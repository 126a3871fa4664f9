/**
 * XML reader events and the token stream built over them.
 * The event type mirrors the reader events of the `xml-rs` crate that the
 * engine keeps; every other event kind (declarations, comments, whitespace,
 * processing instructions, end of document) is one `OtherEvent`.
 */
module Xml {
  import opened Wrappers
  import opened Seqs

  /** WordprocessingML main namespace (ECMA-376 Part 1, chapter 17). */
  const NS_WP_ML: string := "http://schemas.openxmlformats.org/wordprocessingml/2006/main"
  /** WordprocessingML Drawing namespace (ECMA-376 Part 1, section 20.4). */
  const NS_WPD_ML: string := "http://schemas.openxmlformats.org/drawingml/2006/wordprocessingDrawing"
  /** DrawingML main namespace (ECMA-376 Part 1, chapter 20.1). */
  const NS_DWML_MAIN: string := "http://schemas.openxmlformats.org/drawingml/2006/main"
  /** DrawingML picture namespace (ECMA-376 Part 1, section 20.2). */
  const NS_DWML_PIC: string := "http://schemas.openxmlformats.org/drawingml/2006/picture"
  /** Office document relationships namespace (ECMA-376 Part 1, section 22.8). */
  const NS_REL: string := "http://schemas.openxmlformats.org/officeDocument/2006/relationships"

  datatype Name = Name(prefix: Option<string>, namespace: Option<string>, localName: string)

  datatype Attribute = Attribute(name: Name, value: string)

  datatype XmlEvent =
    | StartElement(name: Name, attributes: seq<Attribute>, namespaces: map<string, string>)
    | EndElement(name: Name)
    | Characters(text: string)
    | OtherEvent(kind: string)

  /** What the tokenizer made of a token: a simple placeholder, one with a helper, or plain content. */
  datatype TokenType = Template | ComplexTemplate | Normal

  datatype Token = Token(tokenType: TokenType, tokenText: Option<string>, event: XmlEvent)

  /** A name in the WordprocessingML namespace with prefix `w`. */
  function W(localName: string): Name
  {
    Name(Some("w"), Some(NS_WP_ML), localName)
  }

  /** An attribute in the WordprocessingML namespace with prefix `w`. */
  function WAttr(localName: string, value: string): Attribute
  {
    Attribute(W(localName), value)
  }

  /** An attribute with neither prefix nor namespace. */
  function PlainAttr(localName: string, value: string): Attribute
  {
    Attribute(Name(None, None, localName), value)
  }

  /**
   * `start_tag_event`: a start element whose namespace map binds the
   * prefix to the namespace exactly when both are given.
   */
  function StartTagEvent(prefix: Option<string>, namespace: Option<string>, tagName: string,
                         attrs: Option<seq<Attribute>>): (e: XmlEvent)
    ensures e.StartElement? && e.name == Name(prefix, namespace, tagName)
    ensures e.attributes == (if attrs.Some? then attrs.value else [])
    ensures prefix.Some? && namespace.Some? ==> e.namespaces == map[prefix.value := namespace.value]
    ensures prefix.None? || namespace.None? ==> e.namespaces == map[]
  {
    var ns := if prefix.Some? && namespace.Some? then map[prefix.value := namespace.value] else map[];
    StartElement(Name(prefix, namespace, tagName), if attrs.Some? then attrs.value else [], ns)
  }

  /** `end_tag_event` */
  function EndTagEvent(prefix: Option<string>, namespace: Option<string>, tagName: string): (e: XmlEvent)
    ensures e.EndElement? && e.name == Name(prefix, namespace, tagName)
  {
    EndElement(Name(prefix, namespace, tagName))
  }

  /** A Normal token without text around a start element built by `start_tag_event`. */
  function Open(n: Name, attrs: seq<Attribute>): Token
  {
    Token(Normal, None, StartTagEvent(n.prefix, n.namespace, n.localName, if attrs == [] then None else Some(attrs)))
  }

  /** A Normal token without text around an end element. */
  function Close(n: Name): Token
  {
    Token(Normal, None, EndTagEvent(n.prefix, n.namespace, n.localName))
  }

  /** An element: its start token, its content, its end token. */
  function Elem(n: Name, attrs: seq<Attribute>, inner: seq<Token>): seq<Token>
  {
    [Open(n, attrs)] + inner + [Close(n)]
  }

  predicate IsStartOf(t: Token, n: Name)
  {
    t.event.StartElement? && t.event.name == n
  }

  predicate IsEndOf(t: Token, n: Name)
  {
    t.event.EndElement? && t.event.name == n
  }

  // ---------------------------------------------------------------------
  // Nesting of start and end elements

  /**
   * Runs the element stack over a token sequence: a start pushes its name,
   * an end pops a matching name, anything else leaves the stack alone.
   * None when an end does not match the innermost open element.
   */
  function Reduce(ts: seq<Token>, stack: seq<Name>): Option<seq<Name>>
    decreases |ts|
  {
    if ts == [] then Some(stack)
    else
      match ts[0].event
      case StartElement(n, _, _) => Reduce(ts[1..], stack + [n])
      case EndElement(n) =>
        if |stack| > 0 && stack[|stack| - 1] == n then Reduce(ts[1..], stack[..|stack| - 1]) else None
      case _ => Reduce(ts[1..], stack)
  }

  /** Every end element closes the innermost open element, and nothing is left open. */
  predicate Balanced(ts: seq<Token>)
  {
    Reduce(ts, []) == Some([])
  }

  lemma {:induction false} ReduceAppend(a: seq<Token>, b: seq<Token>, stack: seq<Name>)
    ensures Reduce(a + b, stack) == (match Reduce(a, stack) case None => None case Some(s) => Reduce(b, s))
    decreases |a|
  {
    if a == [] {
      assert a + b == b;
    } else {
      assert (a + b)[0] == a[0];
      assert (a + b)[1..] == a[1..] + b;
      match a[0].event
      case StartElement(n, _, _) => ReduceAppend(a[1..], b, stack + [n]);
      case EndElement(n) =>
        if |stack| > 0 && stack[|stack| - 1] == n {
          ReduceAppend(a[1..], b, stack[..|stack| - 1]);
        }
      case Characters(_) => ReduceAppend(a[1..], b, stack);
      case OtherEvent(_) => ReduceAppend(a[1..], b, stack);
    }
  }

  /** What a sequence does to a stack does not depend on what lies below it. */
  lemma {:induction false} ReduceBelow(ts: seq<Token>, below: seq<Name>, stack: seq<Name>, r: seq<Name>)
    requires Reduce(ts, stack) == Some(r)
    ensures Reduce(ts, below + stack) == Some(below + r)
    decreases |ts|
  {
    if ts != [] {
      match ts[0].event
      case StartElement(n, _, _) =>
        assert below + stack + [n] == below + (stack + [n]);
        ReduceBelow(ts[1..], below, stack + [n], r);
      case EndElement(n) =>
        assert (below + stack)[..|below + stack| - 1] == below + stack[..|stack| - 1];
        ReduceBelow(ts[1..], below, stack[..|stack| - 1], r);
      case Characters(_) => ReduceBelow(ts[1..], below, stack, r);
      case OtherEvent(_) => ReduceBelow(ts[1..], below, stack, r);
    }
  }

  lemma BalancedConcat(a: seq<Token>, b: seq<Token>)
    requires Balanced(a) && Balanced(b)
    ensures Balanced(a + b)
  {
    ReduceAppend(a, b, []);
  }

  lemma BalancedEmpty()
    ensures Balanced([])
  {
  }

  /** An element whose content is balanced is balanced. */
  lemma BalancedElem(n: Name, attrs: seq<Attribute>, inner: seq<Token>)
    requires Balanced(inner)
    ensures Balanced(Elem(n, attrs, inner))
  {
    var o, c := [Open(n, attrs)], [Close(n)];
    assert Elem(n, attrs, inner) == o + (inner + c);
    assert Reduce(o + (inner + c), []) == Reduce(inner + c, [n]) by {
      ReduceAppend(o, inner + c, []);
      assert o[1..] == [] && [] + [n] == [n];
      assert Reduce(o, []) == Some([n]);
    }
    assert Reduce(inner + c, [n]) == Reduce(c, [n]) by {
      ReduceAppend(inner, c, [n]);
      ReduceBelow(inner, [n], [], []);
      assert [n] + [] == [n];
    }
    assert Reduce(c, [n]) == Some([]) by {
      assert c[1..] == [];
    }
  }

  /** A balanced block inserted anywhere into a balanced sequence keeps it balanced. */
  lemma BalancedInsert(a: seq<Token>, m: seq<Token>, b: seq<Token>)
    requires Balanced(a + b) && Balanced(m)
    ensures Balanced(a + m + b)
  {
    ReduceAppend(a, b, []);
    ReduceAppend(a, m + b, []);
    var s := Reduce(a, []).value;
    ReduceAppend(m, b, s);
    ReduceBelow(m, s, [], []);
    assert s + [] == s;
    assert a + m + b == a + (m + b);
  }

  /** A token that neither starts nor ends an element is balanced on its own. */
  lemma BalancedText(t: Token)
    requires !t.event.StartElement? && !t.event.EndElement?
    ensures Balanced([t])
  {
    assert [t][1..] == [];
  }

  /** Concatenating balanced blocks gives a balanced sequence. */
  lemma {:induction false} BalancedMapConcat<T>(xs: seq<T>, f: T -> seq<Token>)
    requires forall i :: 0 <= i < |xs| ==> Balanced(f(xs[i]))
    ensures Balanced(MapConcat(xs, f))
    decreases |xs|
  {
    if xs != [] {
      var init := xs[..|xs| - 1];
      assert forall i :: 0 <= i < |init| ==> init[i] == xs[i];
      BalancedMapConcat(init, f);
      BalancedConcat(MapConcat(init, f), f(xs[|xs| - 1]));
    }
  }

  // ---------------------------------------------------------------------
  // Counting elements

  /** The number of start elements named `n`. */
  function CountStarts(ts: seq<Token>, n: Name): nat
    decreases |ts|
  {
    if ts == [] then 0 else (if IsStartOf(ts[0], n) then 1 else 0) + CountStarts(ts[1..], n)
  }

  lemma {:induction false} CountStartsAppend(a: seq<Token>, b: seq<Token>, n: Name)
    ensures CountStarts(a + b, n) == CountStarts(a, n) + CountStarts(b, n)
    decreases |a|
  {
    if a == [] {
      assert a + b == b;
    } else {
      assert (a + b)[0] == a[0];
      assert (a + b)[1..] == a[1..] + b;
      CountStartsAppend(a[1..], b, n);
    }
  }

  lemma CountStartsElem(m: Name, attrs: seq<Attribute>, inner: seq<Token>, n: Name)
    ensures CountStarts(Elem(m, attrs, inner), n) == (if m == n then 1 else 0) + CountStarts(inner, n)
  {
    var o, c := [Open(m, attrs)], [Close(m)];
    assert Elem(m, attrs, inner) == o + (inner + c);
    CountStartsAppend(o, inner + c, n);
    CountStartsAppend(inner, c, n);
    assert o[1..] == [] && c[1..] == [];
  }

  lemma {:induction false} CountStartsMapConcat<T>(xs: seq<T>, f: T -> seq<Token>, n: Name, c: nat)
    requires forall i :: 0 <= i < |xs| ==> CountStarts(f(xs[i]), n) == c
    ensures CountStarts(MapConcat(xs, f), n) == c * |xs|
    decreases |xs|
  {
    if xs != [] {
      var init := xs[..|xs| - 1];
      assert forall i :: 0 <= i < |init| ==> init[i] == xs[i];
      CountStartsMapConcat(init, f, n, c);
      CountStartsAppend(MapConcat(init, f), f(xs[|xs| - 1]), n);
      MulSucc(c, |init|);
    }
  }

  /** Every start element in the sequence has one of the given names. */
  predicate StartsWithin(ts: seq<Token>, names: set<Name>)
  {
    forall k :: 0 <= k < |ts| && ts[k].event.StartElement? ==> ts[k].event.name in names
  }

  lemma StartsWithinConcat(a: seq<Token>, b: seq<Token>, names: set<Name>)
    requires StartsWithin(a, names) && StartsWithin(b, names)
    ensures StartsWithin(a + b, names)
  {
    assert forall k :: |a| <= k < |a + b| ==> (a + b)[k] == b[k - |a|];
  }

  lemma StartsWithinElem(n: Name, attrs: seq<Attribute>, inner: seq<Token>, names: set<Name>)
    requires n in names && StartsWithin(inner, names)
    ensures StartsWithin(Elem(n, attrs, inner), names)
  {
    StartsWithinConcat([Open(n, attrs)], inner, names);
    StartsWithinConcat([Open(n, attrs)] + inner, [Close(n)], names);
  }

  lemma {:induction false} StartsWithinMapConcat<T>(xs: seq<T>, f: T -> seq<Token>, names: set<Name>)
    requires forall i :: 0 <= i < |xs| ==> StartsWithin(f(xs[i]), names)
    ensures StartsWithin(MapConcat(xs, f), names)
    decreases |xs|
  {
    if xs != [] {
      var init := xs[..|xs| - 1];
      assert forall i :: 0 <= i < |init| ==> init[i] == xs[i];
      StartsWithinMapConcat(init, f, names);
      StartsWithinConcat(MapConcat(init, f), f(xs[|xs| - 1]), names);
    }
  }

  /** A name outside the set has no start element. */
  lemma {:induction false} CountStartsOutside(ts: seq<Token>, names: set<Name>, n: Name)
    requires StartsWithin(ts, names) && n !in names
    ensures CountStarts(ts, n) == 0
    decreases |ts|
  {
    if ts != [] {
      assert forall k :: 0 <= k < |ts[1..]| ==> ts[1..][k] == ts[k + 1];
      CountStartsOutside(ts[1..], names, n);
    }
  }

  /** The value of the first attribute with the given local name. */
  function FindAttr(attrs: seq<Attribute>, localName: string): (r: Option<string>)
    ensures r.Some? <==> exists k :: 0 <= k < |attrs| && attrs[k].name.localName == localName
    decreases |attrs|
  {
    if attrs == [] then None
    else if attrs[0].name.localName == localName then Some(attrs[0].value)
    else
      var r := FindAttr(attrs[1..], localName);
      assert forall k :: 1 <= k < |attrs| ==> attrs[k] == attrs[1..][k - 1];
      r
  }
}

/**
 * `markdown_to_tokens`: WordprocessingML paragraphs, headings and italic
 * runs for the events of a Markdown parser (pulldown-cmark with the
 * strikethrough extension). The parser is not part of this model: the
 * generator is given its event stream.
 */
module Markdown {
  import opened Wrappers
  import opened Text
  import opened Seqs
  import opened Xml
  import opened Render

  /** The tags the generator distinguishes; every other tag is `OtherTag`. */
  datatype Tag = Heading(level: nat) | Paragraph | Emphasis | OtherTag

  /** A parser event; events other than starts, ends and text are `OtherEvent`. */
  datatype MdEvent = Start(tag: Tag) | End(tag: Tag) | Text(text: string) | OtherEvent

  /** What one event adds to the output, and the inline flag after it. */
  datatype Contribution = Contribution(tokens: seq<Token>, isInline: bool)

  /** `Heading{level + 1}`, where `level` is the 1-based depth that pulldown-cmark reports, so `#` is styled `Heading2`. */
  function HeadingStyle(level: nat): string
  {
    "Heading" + NatToString(level + 1)
  }

  /** An italic run opened: `r, rPr, i, /i, iCs, /iCs, /rPr`. */
  function EmphasisStartTokens(): seq<Token>
  {
    [RunStartToken()] + Elem(W("rPr"), [], Elem(W("i"), [], []) + Elem(W("iCs"), [], []))
  }

  /** `cmark_tag_to_wp_tag_start`; only an emphasis changes the flag, and sets it. */
  function TagStart(tag: Tag, isInline: bool): Contribution
  {
    match tag
    case Heading(level) => Contribution(HeadingPrequelTokens(HeadingStyle(level)), isInline)
    case Paragraph => Contribution(ParagraphPrequelTokens(), isInline)
    case Emphasis => Contribution(EmphasisStartTokens(), true)
    case OtherTag => Contribution([], isInline)
  }

  /** `cmark_tag_to_wp_tag_end`; only an emphasis changes the flag, and clears it. */
  function TagEnd(tag: Tag, isInline: bool): Contribution
  {
    match tag
    case Heading(_) => Contribution(HeadingSequelTokens(), isInline)
    case Paragraph => Contribution(ParagraphSequelTokens(), isInline)
    case Emphasis => Contribution([RunEndToken()], false)
    case OtherTag => Contribution([], isInline)
  }

  /** Text inside an emphasis is padded with spaces and joins the open run; elsewhere it gets a run of its own. */
  function TextTokens(text: string, isInline: bool): seq<Token>
  {
    if isInline then CharTextTokens(" " + text + " ", false)
    else [RunStartToken()] + CharTextTokens(text, true) + [RunEndToken()]
  }

  /** One event's contribution. */
  function Step(e: MdEvent, isInline: bool): Contribution
  {
    match e
    case Start(tag) => TagStart(tag, isInline)
    case End(tag) => TagEnd(tag, isInline)
    case Text(text) => Contribution(TextTokens(text, isInline), isInline)
    case OtherEvent => Contribution([], isInline)
  }

  /** The contributions of `step` for the events in order, each one's flag passed to the next. */
  function Contributions(events: seq<MdEvent>, isInline: bool, step: (MdEvent, bool) -> Contribution): Contribution
    decreases |events|
  {
    if events == [] then Contribution([], isInline)
    else
      var before := Contributions(events[..|events| - 1], isInline, step);
      var last := step(events[|events| - 1], before.isInline);
      Contribution(before.tokens + last.tokens, last.isInline)
  }

  /** The events' contributions in order, starting with the flag `isInline`. */
  function RenderFrom(events: seq<MdEvent>, isInline: bool): Contribution
  {
    Contributions(events, isInline, Step)
  }

  /** What `markdown_to_tokens` returns: the flag starts cleared. */
  function MarkdownTokensOf(events: seq<MdEvent>): seq<Token>
  {
    RenderFrom(events, false).tokens
  }

  /** `markdown_to_tokens` */
  method MarkdownToTokens(events: seq<MdEvent>) returns (result: seq<Token>)
    ensures result == MarkdownTokensOf(events)
  {
    result := [];
    var isInline := false;
    for i := 0 to |events|
      invariant Contribution(result, isInline) == RenderFrom(events[..i], false)
    {
      assert events[..i + 1][..i] == events[..i];
      match events[i] {
        case Start(tag) =>
          var c := TagStart(tag, isInline);
          result := result + c.tokens;
          isInline := c.isInline;
        case Text(x) =>
          if isInline {
            var textWithSpaces := " " + x + " ";
            result := result + CharTextTokens(textWithSpaces, false);
          } else {
            result := result + [RunStartToken()];
            result := result + CharTextTokens(x, true);
            result := result + [RunEndToken()];
          }
        case End(tag) =>
          var c := TagEnd(tag, isInline);
          result := result + c.tokens;
          isInline := c.isInline;
        case OtherEvent =>
      }
    }
    assert events[..|events|] == events;
  }

  // ---------------------------------------------------------------------
  // Properties

  /** The output for two event streams in a row is the first's output followed by the second's, the flag carried over. */
  lemma RenderAppend(a: seq<MdEvent>, b: seq<MdEvent>, isInline: bool)
    ensures var first := RenderFrom(a, isInline);
      var second := RenderFrom(b, first.isInline);
      RenderFrom(a + b, isInline) == Contribution(first.tokens + second.tokens, second.isInline)
  {
    ContributionsAppend(a, b, isInline, Step);
  }

  lemma {:induction false} ContributionsAppend(a: seq<MdEvent>, b: seq<MdEvent>, isInline: bool, step: (MdEvent, bool) -> Contribution)
    ensures var first := Contributions(a, isInline, step);
      var second := Contributions(b, first.isInline, step);
      Contributions(a + b, isInline, step) == Contribution(first.tokens + second.tokens, second.isInline)
    decreases |b|
  {
    if b == [] {
      assert a + b == a;
    } else {
      var init := b[..|b| - 1];
      assert (a + b)[..|a + b| - 1] == a + init;
      assert (a + b)[|a + b| - 1] == b[|b| - 1];
      ContributionsAppend(a, init, isInline, step);
    }
  }

  /** A heading opens a paragraph with the style `Heading{level + 1}` and leaves the flag alone. */
  lemma HeadingStart(level: nat, isInline: bool)
    ensures var c := Step(Start(Heading(level)), isInline);
      && c.isInline == isInline && |c.tokens| == 5 && IsStartOf(c.tokens[0], W("p"))
      && IsStartOf(c.tokens[2], W("pStyle")) && FindAttr(c.tokens[2].event.attributes, "val") == Some(HeadingStyle(level))
    ensures Step(End(Heading(level)), isInline) == Contribution([Close(W("p"))], isInline)
  {
  }

  /**
   * Text after an emphasis start, with no emphasis end between, is one
   * `w:t` without space preservation around the text padded with spaces;
   * text after an emphasis end, or with no emphasis before it, is a run of
   * its own. The flag is one boolean, so the end of an inner emphasis
   * ends the outer one too.
   */
  lemma TextAfterEmphasis(a: seq<MdEvent>, between: seq<MdEvent>, x: string, isInline: bool, started: bool)
    requires forall k :: 0 <= k < |between| ==> between[k] != Start(Emphasis) && between[k] != End(Emphasis)
    ensures var before := RenderFrom(a + [EmphasisEvent(started)] + between, isInline);
      RenderFrom(a + [EmphasisEvent(started)] + between + [Text(x)], isInline).tokens
        == before.tokens + (if started then CharTextTokens(" " + x + " ", false)
                            else [RunStartToken()] + CharTextTokens(x, true) + [RunEndToken()])
  {
    var e := EmphasisEvent(started);
    RenderAppend(a, [e], isInline);
    var afterE := RenderFrom(a + [e], isInline).isInline;
    assert afterE == started by {
      assert (a + [e])[..|a + [e]| - 1] == a;
    }
    FlagUnchanged(between, afterE);
    RenderAppend(a + [e], between, isInline);
    var all := a + [e] + between + [Text(x)];
    assert all[..|all| - 1] == a + [e] + between;
  }

  /** The start of an emphasis, or its end. */
  function EmphasisEvent(started: bool): MdEvent
  {
    if started then Start(Emphasis) else End(Emphasis)
  }

  /** Events other than emphasis starts and ends leave the flag as it was. */
  lemma {:induction false} FlagUnchanged(events: seq<MdEvent>, isInline: bool)
    requires forall k :: 0 <= k < |events| ==> events[k] != Start(Emphasis) && events[k] != End(Emphasis)
    ensures RenderFrom(events, isInline).isInline == isInline
    decreases |events|
  {
    if events != [] {
      FlagUnchanged(events[..|events| - 1], isInline);
    }
  }

  // ---------------------------------------------------------------------
  // Nesting

  /** The element names a tag opens when it starts and closes when it ends. */
  function TagNames(tag: Tag): seq<Name>
  {
    match tag
    case Heading(_) => [W("p")]
    case Paragraph => [W("p")]
    case Emphasis => [W("r")]
    case OtherTag => []
  }

  /** The element stack that a stack of open tags stands for. */
  function OpenNames(tags: seq<Tag>): seq<Name>
    decreases |tags|
  {
    if tags == [] then [] else OpenNames(tags[..|tags| - 1]) + TagNames(tags[|tags| - 1])
  }

  /** The tag stack after one event; None when an end does not match the innermost open tag. */
  function StackAfter(stack: seq<Tag>, e: MdEvent): Option<seq<Tag>>
  {
    match e
    case Start(tag) => Some(stack + [tag])
    case End(tag) => if |stack| > 0 && stack[|stack| - 1] == tag then Some(stack[..|stack| - 1]) else None
    case _ => Some(stack)
  }

  /** The stack of open tags after the events; None when an end does not match the innermost open tag. */
  function TagStack(events: seq<MdEvent>): Option<seq<Tag>>
    decreases |events|
  {
    if events == [] then Some([])
    else
      match TagStack(events[..|events| - 1])
      case None => None
      case Some(stack) => StackAfter(stack, events[|events| - 1])
  }

  /** A token sequence that pushes `names` on whatever stack it runs on. */
  lemma Pushes(ts: seq<Token>, names: seq<Name>, stack: seq<Name>)
    requires Reduce(ts, []) == Some(names)
    ensures Reduce(ts, stack) == Some(stack + names)
  {
    ReduceBelow(ts, stack, [], names);
    assert stack + [] == stack;
  }

  /** A start followed by a balanced sequence leaves one more element open. */
  lemma OpenThen(n: Name, attrs: seq<Attribute>, rest: seq<Token>, stack: seq<Name>)
    requires Balanced(rest)
    ensures Reduce([Open(n, attrs)] + rest, stack) == Some(stack + [n])
  {
    ReduceAppend([Open(n, attrs)], rest, stack);
    assert [Open(n, attrs)][1..] == [];
    ReduceBelow(rest, stack + [n], [], []);
    assert stack + [n] + [] == stack + [n];
  }

  lemma HeadingPushes(level: nat)
    ensures Reduce(HeadingPrequelTokens(HeadingStyle(level)), []) == Some([W("p")])
  {
    var pStyle := Elem(W("pStyle"), [WAttr("val", HeadingStyle(level))], []);
    BalancedElem(W("pStyle"), [WAttr("val", HeadingStyle(level))], []);
    BalancedElem(W("pPr"), [], pStyle);
    OpenThen(W("p"), [], Elem(W("pPr"), [], pStyle), []);
    assert [] + [W("p")] == [W("p")];
    assert HeadingPrequelTokens(HeadingStyle(level)) == [Open(W("p"), [])] + Elem(W("pPr"), [], pStyle);
  }

  lemma EmphasisPushes()
    ensures Reduce(EmphasisStartTokens(), []) == Some([W("r")])
  {
    var props := Elem(W("i"), [], []) + Elem(W("iCs"), [], []);
    BalancedElem(W("i"), [], []);
    BalancedElem(W("iCs"), [], []);
    BalancedConcat(Elem(W("i"), [], []), Elem(W("iCs"), [], []));
    BalancedElem(W("rPr"), [], props);
    OpenThen(W("r"), [], Elem(W("rPr"), [], props), []);
    assert [] + [W("r")] == [W("r")];
  }

  /** A tag start pushes the tag's names, whatever the flag. */
  lemma StartNests(tag: Tag, isInline: bool, s: seq<Name>)
    ensures Reduce(TagStart(tag, isInline).tokens, s) == Some(s + TagNames(tag))
  {
    var out := TagStart(tag, isInline).tokens;
    match tag {
      case Heading(level) =>
        HeadingPushes(level);
        Pushes(out, [W("p")], s);
      case Paragraph =>
        BalancedEmpty();
        OpenThen(W("p"), [], [], s);
        assert out == [Open(W("p"), [])] + [];
      case Emphasis =>
        EmphasisPushes();
        Pushes(out, [W("r")], s);
      case OtherTag =>
        assert s + [] == s;
    }
  }

  /** A tag end pops the tag's names, whatever the flag. */
  lemma EndNests(tag: Tag, isInline: bool, s: seq<Name>)
    ensures Reduce(TagEnd(tag, isInline).tokens, s + TagNames(tag)) == Some(s)
  {
    var out := TagEnd(tag, isInline).tokens;
    if tag != OtherTag {
      assert out[1..] == [];
      assert (s + TagNames(tag))[..|s + TagNames(tag)| - 1] == s;
    } else {
      assert s + [] == s;
    }
  }

  /** Text leaves the stack as it was, whatever the flag. */
  lemma TextNests(x: string, isInline: bool, s: seq<Name>)
    ensures Reduce(TextTokens(x, isInline), s) == Some(s)
  {
    var out := TextTokens(x, isInline);
    if !isInline {
      BalancedElem(W("r"), [], CharTextTokens(x, true));
      assert out == Elem(W("r"), [], CharTextTokens(x, true));
    }
    Pushes(out, [], s);
    assert s + [] == s;
  }

  /** One event moves the element stack exactly as it moves the tag stack. */
  lemma StepNests(e: MdEvent, isInline: bool, stack: seq<Tag>, stack': seq<Tag>)
    requires StackAfter(stack, e) == Some(stack')
    ensures Reduce(Step(e, isInline).tokens, OpenNames(stack)) == Some(OpenNames(stack'))
  {
    match e
    case Start(tag) =>
      assert stack'[..|stack'| - 1] == stack;
      StartNests(tag, isInline, OpenNames(stack));
    case End(tag) =>
      assert stack == stack' + [tag];
      EndNests(tag, isInline, OpenNames(stack'));
    case Text(x) =>
      TextNests(x, isInline, OpenNames(stack));
    case OtherEvent =>
  }

  /** The output keeps the elements the still-open tags stand for open, and nothing else. */
  lemma {:induction false} RenderNests(events: seq<MdEvent>, isInline: bool)
    requires TagStack(events).Some?
    ensures Reduce(RenderFrom(events, isInline).tokens, []) == Some(OpenNames(TagStack(events).value))
    decreases |events|
  {
    if events != [] {
      var init := events[..|events| - 1];
      var e := events[|events| - 1];
      RenderNests(init, isInline);
      var before := RenderFrom(init, isInline);
      StepNests(e, before.isInline, TagStack(init).value, TagStack(events).value);
      ReduceAppend(before.tokens, Step(e, before.isInline).tokens, []);
    }
  }

  /** When every tag the parser starts it also ends, in nesting order, the output is balanced. */
  lemma MarkdownBalanced(events: seq<MdEvent>)
    requires TagStack(events) == Some([])
    ensures Balanced(MarkdownTokensOf(events))
  {
    RenderNests(events, false);
  }
}

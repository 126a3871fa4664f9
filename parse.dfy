/**
 * Reading `word/document.xml`: the tokenizer that drives the placeholder
 * accumulator over the reader's events, the resolver that finds the
 * paragraph around each placeholder, and the extraction of the page
 * geometry from `w:pgSz` and `w:pgMar` (ECMA-376 Part 1, section 17.6).
 */
module Parse {
  import opened Wrappers
  import opened Text
  import opened Seqs
  import opened Errors
  import opened Xml
  import opened Patterns
  import opened Accumulator

  /** One item of the reader's event stream: an event, or a reader error. */
  datatype ReadEvent = Event(event: XmlEvent) | ReadError(message: string)

  /** The token type of a completed text: simple pattern first, then helper pattern. */
  function Classify(p: Patterns, s: string): (t: TokenType)
    ensures t == Template <==> p.simple(s)
    ensures t == ComplexTemplate <==> !p.simple(s) && p.helper(s)
  {
    if p.simple(s) then Template else if p.helper(s) then ComplexTemplate else Normal
  }

  // ---------------------------------------------------------------------
  // Tokenizer

  datatype ScanState = ScanState(tokens: seq<Token>, acc: AccState)

  /** What the event loop of `xml_to_token_vec` does with one item. */
  function ScanStep(p: Patterns, st: ScanState, item: ReadEvent): Result<ScanState, Error>
  {
    match item
    case ReadError(m) => Failure(ReaderFailure(m))
    case Event(e) =>
      if e.Characters? then
        var a := Transition(p, st.acc, e.text);
        if a.Done? then Success(ScanState(st.tokens + [Token(Classify(p, a.text), Some(a.text), Characters(a.text))], Idle))
        else Success(ScanState(st.tokens, a))
      else if st.acc.Idle? then Success(ScanState(st.tokens + [Token(Normal, None, e)], st.acc))
      else Success(st)
  }

  /** The loop state after a prefix of the input, or the error that stopped it. */
  function Scan(p: Patterns, items: seq<ReadEvent>): Result<ScanState, Error>
    decreases |items|
  {
    if items == [] then Success(ScanState([], Idle))
    else
      match Scan(p, items[..|items| - 1])
      case Failure(err) => Failure(err)
      case Success(st) => ScanStep(p, st, items[|items| - 1])
  }

  /** The result of `xml_to_token_vec`: the tokens emitted, with no flush of pending text. */
  function Tokenize(p: Patterns, items: seq<ReadEvent>): Result<seq<Token>, Error>
  {
    match Scan(p, items)
    case Failure(err) => Failure(err)
    case Success(st) => Success(st.tokens)
  }

  lemma {:induction false} ScanFailurePersists(p: Patterns, a: seq<ReadEvent>, b: seq<ReadEvent>)
    requires Scan(p, a).Failure?
    ensures Scan(p, a + b) == Scan(p, a)
    decreases |b|
  {
    if b == [] {
      assert a + b == a;
    } else {
      ScanFailurePersists(p, a, b[..|b| - 1]);
      assert (a + b)[..|a + b| - 1] == a + b[..|b| - 1];
    }
  }

  /** `xml_to_token_vec` */
  method XmlToTokenVec(p: Patterns, items: seq<ReadEvent>) returns (r: Result<seq<Token>, Error>)
    ensures r == Tokenize(p, items)
  {
    var result: seq<Token> := [];
    var accumulator := new TemplateAccumulator();
    var i := 0;
    while i < |items|
      invariant 0 <= i <= |items|
      invariant Scan(p, items[..i]) == Success(ScanState(result, accumulator.state))
    {
      assert items[..i + 1][..i] == items[..i];
      match items[i]
      case ReadError(m) =>
        ScanFailurePersists(p, items[..i + 1], items[i + 1..]);
        assert items[..i + 1] + items[i + 1..] == items;
        return Failure(ReaderFailure(m));
      case Event(e) =>
        if e.Characters? {
          accumulator.Accumulate(p, e.text);
          if accumulator.state.Done? {
            var s := accumulator.state.text;
            result := result + [Token(Classify(p, s), Some(s), Characters(s))];
            accumulator.Reset();
          }
        } else if accumulator.state.Idle? {
          result := result + [Token(Normal, None, e)];
        }
      i := i + 1;
    }
    assert items[..|items|] == items;
    return Success(result);
  }

  /** The call fails exactly when the reader reports an error, and then returns no tokens. */
  lemma {:induction false} TokenizeFailsIffReadError(p: Patterns, items: seq<ReadEvent>)
    ensures Tokenize(p, items).Failure? <==> exists i :: 0 <= i < |items| && items[i].ReadError?
    decreases |items|
  {
    if items != [] {
      var init := items[..|items| - 1];
      TokenizeFailsIffReadError(p, init);
      if exists i :: 0 <= i < |init| && init[i].ReadError? {
        var i :| 0 <= i < |init| && init[i].ReadError?;
        assert items[i] == init[i];
      }
      if exists i :: 0 <= i < |items| && items[i].ReadError? {
        var i :| 0 <= i < |items| && items[i].ReadError?;
        if i < |init| {
          assert init[i] == items[i];
        }
      }
    }
  }

  /** The text of a token, or nothing for a structural token. */
  function TokenTexts(ts: seq<Token>): string
    decreases |ts|
  {
    if ts == [] then ""
    else TokenTexts(ts[..|ts| - 1]) + (if ts[|ts| - 1].tokenText.Some? then ts[|ts| - 1].tokenText.value else "")
  }

  /** All character data the reader delivered. */
  function EventTexts(items: seq<ReadEvent>): string
    decreases |items|
  {
    if items == [] then ""
    else
      var last := items[|items| - 1];
      EventTexts(items[..|items| - 1]) + (if last.Event? && last.event.Characters? then last.event.text else "")
  }

  /**
   * A token carries text exactly when it holds a Characters event, the two
   * agree, and its type is the classification of that text; a structural
   * token is Normal.
   */
  predicate WellFormedToken(p: Patterns, t: Token)
  {
    && (t.tokenText.Some? <==> t.event.Characters?)
    && (t.tokenText.Some? ==> t.event.text == t.tokenText.value && t.tokenType == Classify(p, t.tokenText.value))
    && (t.tokenText.None? ==> t.tokenType == Normal)
  }

  lemma TokenTextsAppend(ts: seq<Token>, t: Token)
    ensures TokenTexts(ts + [t]) == TokenTexts(ts) + (if t.tokenText.Some? then t.tokenText.value else "")
  {
    assert (ts + [t])[..|ts|] == ts;
  }

  function ItemText(item: ReadEvent): string
  {
    if item.Event? && item.event.Characters? then item.event.text else ""
  }

  lemma EventTextsLast(items: seq<ReadEvent>)
    requires items != []
    ensures EventTexts(items) == EventTexts(items[..|items| - 1]) + ItemText(items[|items| - 1])
  {
  }

  /** One step keeps the loop invariant below. */
  lemma StepPreserves(p: Patterns, st: ScanState, item: ReadEvent)
    requires !st.acc.Done? && forall k :: 0 <= k < |st.tokens| ==> WellFormedToken(p, st.tokens[k])
    requires ScanStep(p, st, item).Success?
    ensures var st' := ScanStep(p, st, item).value;
      && !st'.acc.Done?
      && (forall k :: 0 <= k < |st'.tokens| ==> WellFormedToken(p, st'.tokens[k]))
      && |st'.tokens| <= |st.tokens| + 1
      && TokenTexts(st'.tokens) + Payload(st'.acc) == TokenTexts(st.tokens) + Payload(st.acc) + ItemText(item)
  {
    var e := item.event;
    if e.Characters? {
      var a := Transition(p, st.acc, e.text);
      assert Payload(a) == Payload(st.acc) + e.text;
      if a.Done? {
        var t := Token(Classify(p, a.text), Some(a.text), Characters(a.text));
        TokenTextsAppend(st.tokens, t);
      }
    } else if st.acc.Idle? {
      TokenTextsAppend(st.tokens, Token(Normal, None, e));
    }
  }

  /**
   * While the loop runs: the accumulator is never Done between events,
   * every token is well formed, at most one token is emitted per event, and
   * the emitted text followed by the pending text is all the character data
   * read so far, so nothing is dropped or reordered and pending text at the
   * end is exactly what is lost.
   */
  lemma {:induction false} ScanInvariant(p: Patterns, items: seq<ReadEvent>)
    requires Scan(p, items).Success?
    ensures var st := Scan(p, items).value;
      && !st.acc.Done?
      && (forall k :: 0 <= k < |st.tokens| ==> WellFormedToken(p, st.tokens[k]))
      && |st.tokens| <= |items|
      && TokenTexts(st.tokens) + Payload(st.acc) == EventTexts(items)
    decreases |items|
  {
    if items != [] {
      var init := items[..|items| - 1];
      ScanInvariant(p, init);
      StepPreserves(p, Scan(p, init).value, items[|items| - 1]);
      EventTextsLast(items);
    }
  }

  /** The token `xml_to_token_vec` emits for an event handled in one step. */
  function TokenOf(p: Patterns, e: XmlEvent): Token
  {
    if e.Characters? then Token(Classify(p, e.text), Some(e.text), e) else Token(Normal, None, e)
  }

  /**
   * When no reader error occurs and every text fragment is complete on its
   * own (the accumulator goes from Idle straight to Done), the tokenizer
   * emits exactly one token per event, in order.
   */
  lemma {:induction false} TokenizeCompleteFragments(p: Patterns, items: seq<ReadEvent>)
    requires forall i :: 0 <= i < |items| ==> items[i].Event?
    requires forall i :: 0 <= i < |items| && items[i].event.Characters? ==> Transition(p, Idle, items[i].event.text).Done?
    ensures Scan(p, items).Success? && Scan(p, items).value.acc == Idle
    ensures |Scan(p, items).value.tokens| == |items|
    ensures forall i :: 0 <= i < |items| ==> Scan(p, items).value.tokens[i] == TokenOf(p, items[i].event)
    decreases |items|
  {
    if items != [] {
      var init := items[..|items| - 1];
      assert forall i :: 0 <= i < |init| ==> init[i] == items[i];
      TokenizeCompleteFragments(p, init);
      var prev := Scan(p, init).value.tokens;
      var e := items[|items| - 1].event;
      if e.Characters? {
        var a := Transition(p, Idle, e.text);
        assert a == Done(e.text);
        assert e == Characters(e.text);
      }
      assert Scan(p, items) == Success(ScanState(prev + [TokenOf(p, e)], Idle));
    }
  }

  // ---------------------------------------------------------------------
  // Template areas

  /** `TemplateArea`: a placeholder token and the paragraph around it, if found. */
  datatype TemplateArea = TemplateArea(tokenIndex: nat, start: Option<nat>, end: Option<nat>)

  predicate IsWrapStart(t: Token, wrap: string)
  {
    t.event.StartElement? && t.event.name.localName == wrap && t.event.name.namespace == Some(NS_WP_ML)
  }

  predicate IsWrapEnd(t: Token, wrap: string)
  {
    t.event.EndElement? && t.event.name.localName == wrap && t.event.name.namespace == Some(NS_WP_ML)
  }

  /** The nearest wrapping start at or before `i` (not nesting-aware). */
  function NearestStart(ts: seq<Token>, wrap: string, i: nat): (r: Option<nat>)
    requires i < |ts|
    ensures r.Some? ==> r.value <= i && IsWrapStart(ts[r.value], wrap)
    ensures r.Some? ==> forall j :: r.value < j <= i ==> !IsWrapStart(ts[j], wrap)
    ensures r.None? ==> forall j :: 0 <= j <= i ==> !IsWrapStart(ts[j], wrap)
    decreases i
  {
    if IsWrapStart(ts[i], wrap) then Some(i)
    else if i == 0 then None
    else NearestStart(ts, wrap, i - 1)
  }

  /** The nearest wrapping end at or after `i`. */
  function NearestEnd(ts: seq<Token>, wrap: string, i: nat): (r: Option<nat>)
    requires i < |ts|
    ensures r.Some? ==> i <= r.value < |ts| && IsWrapEnd(ts[r.value], wrap)
    ensures r.Some? ==> forall j :: i <= j < r.value ==> !IsWrapEnd(ts[j], wrap)
    ensures r.None? ==> forall j :: i <= j < |ts| ==> !IsWrapEnd(ts[j], wrap)
    decreases |ts| - i
  {
    if IsWrapEnd(ts[i], wrap) then Some(i)
    else if i + 1 == |ts| then None
    else NearestEnd(ts, wrap, i + 1)
  }

  /** What happens to the forward scan as written: it finds an end, or indexes one past the last token. */
  datatype ScanOutcome = Found(index: nat) | IndexOutOfBounds

  /**
   * The forward scan of `find_template_areas` as written: the guard
   * `anchor < len` always lets the anchor advance, so without a closing
   * element it reaches `len` and indexes past the end.
   */
  function ForwardScanAsWritten(ts: seq<Token>, wrap: string, anchor: nat): ScanOutcome
    decreases |ts| - anchor
  {
    if anchor >= |ts| then IndexOutOfBounds
    else if IsWrapEnd(ts[anchor], wrap) then Found(anchor)
    else ForwardScanAsWritten(ts, wrap, anchor + 1)
  }

  /** The scan as written agrees with the nearest end when there is one, and fails exactly when there is none. */
  lemma {:induction false} ForwardScanAsWrittenFailsIffNoEnd(ts: seq<Token>, wrap: string, i: nat)
    requires i < |ts|
    ensures ForwardScanAsWritten(ts, wrap, i) == (match NearestEnd(ts, wrap, i) case Some(j) => Found(j) case None => IndexOutOfBounds)
    decreases |ts| - i
  {
    if !IsWrapEnd(ts[i], wrap) && i + 1 < |ts| {
      ForwardScanAsWrittenFailsIffNoEnd(ts, wrap, i + 1);
    }
  }

  /** A lone placeholder outside any paragraph makes the scan as written fail. */
  lemma ForwardScanAsWrittenCounterexample()
    ensures ForwardScanAsWritten([Token(Template, Some("{{x}}"), Characters("{{x}}"))], "p", 0) == IndexOutOfBounds
  {
    var ts := [Token(Template, Some("{{x}}"), Characters("{{x}}"))];
    assert !IsWrapEnd(ts[0], "p");
  }

  /**
   * `areas` is what the resolver returns: one area per token whose type is
   * in `kinds`, in increasing token order, each with the nearest wrapping
   * start and end around it.
   */
  predicate AreasOf(ts: seq<Token>, wrap: string, kinds: set<TokenType>, areas: seq<TemplateArea>)
  {
    && (forall k :: 0 <= k < |areas| ==> AreaFor(ts, wrap, kinds, areas[k]))
    && (forall k, l :: 0 <= k < l < |areas| ==> areas[k].tokenIndex < areas[l].tokenIndex)
    && (forall i :: 0 <= i < |ts| && ts[i].tokenType in kinds ==> exists k :: 0 <= k < |areas| && areas[k].tokenIndex == i)
  }

  /** The area of a token of one of the kinds, with the nearest wrapping start and end around it. */
  predicate AreaFor(ts: seq<Token>, wrap: string, kinds: set<TokenType>, a: TemplateArea)
  {
    && a.tokenIndex < |ts|
    && ts[a.tokenIndex].tokenType in kinds
    && a.start == NearestStart(ts, wrap, a.tokenIndex)
    && a.end == NearestEnd(ts, wrap, a.tokenIndex)
  }

  /** The placeholder kinds the current resolver looks for. */
  const PlaceholderKinds: set<TokenType> := {Template, ComplexTemplate}

  /** The areas of the tokens of the kinds below position `n`, in token order. */
  predicate AreasBelow(ts: seq<Token>, wrap: string, kinds: set<TokenType>, areas: seq<TemplateArea>, n: nat)
  {
    && (forall k :: 0 <= k < |areas| ==> areas[k].tokenIndex < n && AreaFor(ts, wrap, kinds, areas[k]))
    && (forall k, l :: 0 <= k < l < |areas| ==> areas[k].tokenIndex < areas[l].tokenIndex)
    && (forall i :: 0 <= i < n && i < |ts| && ts[i].tokenType in kinds ==> exists k :: 0 <= k < |areas| && areas[k].tokenIndex == i)
  }

  /** One step of the resolver keeps `AreasBelow`, whether or not the token is of a kind. */
  lemma AreasBelowStep(ts: seq<Token>, wrap: string, kinds: set<TokenType>, areas: seq<TemplateArea>, n: nat, a: TemplateArea)
    requires AreasBelow(ts, wrap, kinds, areas, n) && n < |ts|
    requires a.tokenIndex == n && AreaFor(ts, wrap, kinds, a)
    ensures AreasBelow(ts, wrap, kinds, areas + [a], n + 1)
  {
    var next := areas + [a];
    assert forall k :: 0 <= k < |areas| ==> next[k] == areas[k];
    forall i | 0 <= i < n + 1 && ts[i].tokenType in kinds
      ensures exists k :: 0 <= k < |next| && next[k].tokenIndex == i
    {
      if i == n {
        assert next[|areas|].tokenIndex == i;
      } else {
        var k :| 0 <= k < |areas| && areas[k].tokenIndex == i;
        assert next[k].tokenIndex == i;
      }
    }
  }

  /** The resolver's areas from token `i` on, appended to `acc`. */
  function TemplateAreasFrom(ts: seq<Token>, wrap: string, kinds: set<TokenType>, i: nat, acc: seq<TemplateArea>): seq<TemplateArea>
    decreases |ts| - i
  {
    if i >= |ts| then acc
    else
      var next := if ts[i].tokenType in kinds then acc + [TemplateArea(i, NearestStart(ts, wrap, i), NearestEnd(ts, wrap, i))] else acc;
      TemplateAreasFrom(ts, wrap, kinds, i + 1, next)
  }

  /** What `find_template_areas` returns. */
  function TemplateAreasOf(ts: seq<Token>, wrap: string, kinds: set<TokenType>): seq<TemplateArea>
  {
    TemplateAreasFrom(ts, wrap, kinds, 0, [])
  }

  lemma {:induction false} TemplateAreasFromResolves(ts: seq<Token>, wrap: string, kinds: set<TokenType>, i: nat, acc: seq<TemplateArea>)
    requires i <= |ts| && AreasBelow(ts, wrap, kinds, acc, i)
    ensures AreasOf(ts, wrap, kinds, TemplateAreasFrom(ts, wrap, kinds, i, acc))
    decreases |ts| - i
  {
    if i < |ts| {
      if ts[i].tokenType in kinds {
        var a := TemplateArea(i, NearestStart(ts, wrap, i), NearestEnd(ts, wrap, i));
        AreasBelowStep(ts, wrap, kinds, acc, i, a);
        TemplateAreasFromResolves(ts, wrap, kinds, i + 1, acc + [a]);
      } else {
        AreasBelowSkip(ts, wrap, kinds, acc, i);
        TemplateAreasFromResolves(ts, wrap, kinds, i + 1, acc);
      }
    }
  }

  /** A token of another kind adds no area. */
  lemma AreasBelowSkip(ts: seq<Token>, wrap: string, kinds: set<TokenType>, acc: seq<TemplateArea>, i: nat)
    requires i < |ts| && ts[i].tokenType !in kinds && AreasBelow(ts, wrap, kinds, acc, i)
    ensures AreasBelow(ts, wrap, kinds, acc, i + 1)
  {
    forall j | 0 <= j < i + 1 && j < |ts| && ts[j].tokenType in kinds
      ensures exists k :: 0 <= k < |acc| && acc[k].tokenIndex == j
    {
      assert j < i;
    }
  }

  /**
   * The resolver's result is the one area list `AreasOf` describes: one
   * area per token of the kinds, in token order, with the nearest
   * wrapping start and end.
   */
  lemma TemplateAreasOfResolves(ts: seq<Token>, wrap: string, kinds: set<TokenType>)
    ensures AreasOf(ts, wrap, kinds, TemplateAreasOf(ts, wrap, kinds))
  {
    TemplateAreasFromResolves(ts, wrap, kinds, 0, []);
  }

  /**
   * `find_template_areas`, with the forward scan stopping at the last token
   * (see `ForwardScanAsWritten` for the code as written).
   */
  method FindTemplateAreas(ts: seq<Token>, wrap: string, kinds: set<TokenType>) returns (areas: seq<TemplateArea>)
    ensures areas == TemplateAreasOf(ts, wrap, kinds)
    ensures AreasOf(ts, wrap, kinds, areas)
  {
    areas := [];
    var tokenIndex := 0;
    while tokenIndex < |ts|
      invariant 0 <= tokenIndex <= |ts|
      invariant TemplateAreasOf(ts, wrap, kinds) == TemplateAreasFrom(ts, wrap, kinds, tokenIndex, areas)
    {
      if ts[tokenIndex].tokenType in kinds {
        var startIndex := ScanBackward(ts, wrap, tokenIndex);
        var endIndex := ScanForward(ts, wrap, tokenIndex);
        areas := areas + [TemplateArea(tokenIndex, startIndex, endIndex)];
      }
      tokenIndex := tokenIndex + 1;
    }
    TemplateAreasOfResolves(ts, wrap, kinds);
  }

  /** The backward scan of `find_template_areas`: walk down to the nearest wrapping start. */
  method ScanBackward(ts: seq<Token>, wrap: string, tokenIndex: nat) returns (startIndex: Option<nat>)
    requires tokenIndex < |ts|
    ensures startIndex == NearestStart(ts, wrap, tokenIndex)
  {
    startIndex := None;
    var anchor := tokenIndex;
    while true
      invariant 0 <= anchor <= tokenIndex
      invariant NearestStart(ts, wrap, tokenIndex) == NearestStart(ts, wrap, anchor)
      decreases anchor
    {
      if IsWrapStart(ts[anchor], wrap) {
        return Some(anchor);
      }
      if anchor > 0 {
        anchor := anchor - 1;
      } else {
        return None;
      }
    }
  }

  /** The forward scan of `find_template_areas`, stopping at the last token. */
  method ScanForward(ts: seq<Token>, wrap: string, tokenIndex: nat) returns (endIndex: Option<nat>)
    requires tokenIndex < |ts|
    ensures endIndex == NearestEnd(ts, wrap, tokenIndex)
  {
    var anchor := tokenIndex;
    while true
      invariant tokenIndex <= anchor < |ts|
      invariant NearestEnd(ts, wrap, tokenIndex) == NearestEnd(ts, wrap, anchor)
      decreases |ts| - anchor
    {
      if IsWrapEnd(ts[anchor], wrap) {
        return Some(anchor);
      }
      if anchor + 1 < |ts| {
        anchor := anchor + 1;
      } else {
        return None;
      }
    }
  }

  /** When both ends are found the placeholder lies inside its paragraph. */
  lemma AreaEncloses(ts: seq<Token>, wrap: string, kinds: set<TokenType>, areas: seq<TemplateArea>, k: nat)
    requires AreasOf(ts, wrap, kinds, areas) && k < |areas|
    requires areas[k].start.Some? && areas[k].end.Some?
    ensures areas[k].start.value <= areas[k].tokenIndex <= areas[k].end.value < |ts|
  {
  }

  // ---------------------------------------------------------------------
  // Page geometry

  /** `PageDimensions`: page size and margins in twentieths of a point, as `i32`. */
  datatype PageDimensions = PageDimensions(
    height: int, width: int,
    mTop: int, mBottom: int, mRight: int, mLeft: int,
    header: int, footer: int, gutter: int)

  /** The nine `Option<i32>` locals of `parse_page_dimensions`. */
  datatype PageFields = PageFields(
    height: Option<int>, width: Option<int>,
    mTop: Option<int>, mBottom: Option<int>, mRight: Option<int>, mLeft: Option<int>,
    header: Option<int>, footer: Option<int>, gutter: Option<int>)

  const NoPageFields := PageFields(None, None, None, None, None, None, None, None, None)

  predicate IsWmlAttr(a: Attribute, name: string)
  {
    a.name.localName == name && a.name.namespace == Some(NS_WP_ML)
  }

  /**
   * The value of the first WordprocessingML attribute with this local name,
   * parsed as `i32`; an unparsable value is the panic of `unwrap`.
   */
  function AttrValue(attrs: seq<Attribute>, name: string): (r: Result<Option<int>, Error>)
    ensures r == Success(None) <==> forall k :: 0 <= k < |attrs| ==> !IsWmlAttr(attrs[k], name)
    ensures r.Success? && r.value.Some? ==> I32_MIN <= r.value.value <= I32_MAX
    decreases |attrs|
  {
    if attrs == [] then Success(None)
    else if IsWmlAttr(attrs[0], name) then
      match ParseSigned(attrs[0].value, I32_MIN, I32_MAX)
      case None => Failure(Panic("page attribute is not an i32"))
      case Some(v) => Success(Some(v))
    else
      assert forall k :: 1 <= k < |attrs| ==> attrs[k] == attrs[1..][k - 1];
      AttrValue(attrs[1..], name)
  }

  /** The `fetch_attr_value` closure: the first matching attribute wins. */
  method FetchAttrValue(attrs: seq<Attribute>, name: string) returns (r: Result<Option<int>, Error>)
    ensures r == AttrValue(attrs, name)
  {
    for i := 0 to |attrs|
      invariant AttrValue(attrs, name) == AttrValue(attrs[i..], name)
    {
      assert attrs[i..][1..] == attrs[i + 1..];
      if IsWmlAttr(attrs[i], name) {
        var v := ParseSigned(attrs[i].value, I32_MIN, I32_MAX);
        if v.None? {
          return Failure(Panic("page attribute is not an i32"));
        }
        return Success(Some(v.value));
      }
    }
    return Success(None);
  }

  predicate IsPageElement(item: ReadEvent, localName: string)
  {
    item.Event? && item.event.StartElement? && item.event.name.localName == localName
    && item.event.name.namespace == Some(NS_WP_ML)
  }

  /** One iteration: `w:pgSz` sets width and height, `w:pgMar` the seven margins; errors and other events are ignored. */
  function PageStep(f: PageFields, item: ReadEvent): Result<PageFields, Error>
  {
    if IsPageElement(item, "pgSz") then
      var attrs := item.event.attributes;
      var w :- AttrValue(attrs, "w");
      var h :- AttrValue(attrs, "h");
      Success(f.(width := w, height := h))
    else if IsPageElement(item, "pgMar") then
      var attrs := item.event.attributes;
      var top :- AttrValue(attrs, "top");
      var bottom :- AttrValue(attrs, "bottom");
      var right :- AttrValue(attrs, "right");
      var left :- AttrValue(attrs, "left");
      var header :- AttrValue(attrs, "header");
      var footer :- AttrValue(attrs, "footer");
      var gutter :- AttrValue(attrs, "gutter");
      Success(f.(mTop := top, mBottom := bottom, mRight := right, mLeft := left,
                 header := header, footer := footer, gutter := gutter))
    else Success(f)
  }

  function PageScan(items: seq<ReadEvent>): Result<PageFields, Error>
    decreases |items|
  {
    if items == [] then Success(NoPageFields)
    else
      var f :- PageScan(items[..|items| - 1]);
      PageStep(f, items[|items| - 1])
  }

  /** The checks after the loop, in the source's order. */
  function Finish(f: PageFields): Result<PageDimensions, Error>
  {
    if f.height.None? then Failure(Malformed("Page height attribute not found"))
    else if f.width.None? then Failure(Malformed("Page width attribute not found"))
    else if f.mTop.None? then Failure(Malformed("Page top margin attribute not found"))
    else if f.mBottom.None? then Failure(Malformed("Page bottom margin attribute not found"))
    else if f.mRight.None? then Failure(Malformed("Page right margin attribute not found"))
    else if f.mLeft.None? then Failure(Malformed("Page left margin attribute not found"))
    else if f.header.None? then Failure(Malformed("Page header margin attribute not found"))
    else if f.footer.None? then Failure(Malformed("Page footer margin attribute not found"))
    else if f.gutter.None? then Failure(Malformed("Page gutter attribute not found"))
    else Success(PageDimensions(f.height.value, f.width.value, f.mTop.value, f.mBottom.value, f.mRight.value,
                                f.mLeft.value, f.header.value, f.footer.value, f.gutter.value))
  }

  function PageDimensionsOf(items: seq<ReadEvent>): Result<PageDimensions, Error>
  {
    var f :- PageScan(items);
    Finish(f)
  }

  /** `parse_page_dimensions` over the reader's events. */
  method ParsePageDimensions(items: seq<ReadEvent>) returns (r: Result<PageDimensions, Error>)
    ensures r == PageDimensionsOf(items)
  {
    var height: Option<int> := None;
    var width: Option<int> := None;
    var mTop: Option<int> := None;
    var mBottom: Option<int> := None;
    var mRight: Option<int> := None;
    var mLeft: Option<int> := None;
    var header: Option<int> := None;
    var footer: Option<int> := None;
    var gutter: Option<int> := None;
    var i := 0;
    while i < |items|
      invariant 0 <= i <= |items|
      invariant PageScan(items[..i]) == Success(PageFields(height, width, mTop, mBottom, mRight, mLeft, header, footer, gutter))
    {
      PageScanSnoc(items, i);
      var next := ReadPageElement(PageFields(height, width, mTop, mBottom, mRight, mLeft, header, footer, gutter), items[i]);
      if next.Failure? {
        PageScanFailurePersists(items[..i + 1], items[i + 1..]);
        assert items[..i + 1] + items[i + 1..] == items;
        return Failure(next.error);
      }
      height, width := next.value.height, next.value.width;
      mTop, mBottom, mRight, mLeft := next.value.mTop, next.value.mBottom, next.value.mRight, next.value.mLeft;
      header, footer, gutter := next.value.header, next.value.footer, next.value.gutter;
      i := i + 1;
    }
    assert items[..|items|] == items;
    r := CheckPageFields(PageFields(height, width, mTop, mBottom, mRight, mLeft, header, footer, gutter));
  }

  /** The checks after the loop of `parse_page_dimensions`, in its order. */
  method CheckPageFields(f: PageFields) returns (r: Result<PageDimensions, Error>)
    ensures r == Finish(f)
  {
    if f.height.None? { return Failure(Malformed("Page height attribute not found")); }
    if f.width.None? { return Failure(Malformed("Page width attribute not found")); }
    if f.mTop.None? { return Failure(Malformed("Page top margin attribute not found")); }
    if f.mBottom.None? { return Failure(Malformed("Page bottom margin attribute not found")); }
    if f.mRight.None? { return Failure(Malformed("Page right margin attribute not found")); }
    if f.mLeft.None? { return Failure(Malformed("Page left margin attribute not found")); }
    if f.header.None? { return Failure(Malformed("Page header margin attribute not found")); }
    if f.footer.None? { return Failure(Malformed("Page footer margin attribute not found")); }
    if f.gutter.None? { return Failure(Malformed("Page gutter attribute not found")); }
    return Success(PageDimensions(f.height.value, f.width.value, f.mTop.value, f.mBottom.value, f.mRight.value,
                                  f.mLeft.value, f.header.value, f.footer.value, f.gutter.value));
  }

  /** The body of the loop of `parse_page_dimensions` for one event. */
  method ReadPageElement(f: PageFields, item: ReadEvent) returns (r: Result<PageFields, Error>)
    ensures r == PageStep(f, item)
  {
    if IsPageElement(item, "pgSz") {
      var w := FetchAttrValue(item.event.attributes, "w");
      if w.Failure? {
        return Failure(w.error);
      }
      var h := FetchAttrValue(item.event.attributes, "h");
      if h.Failure? {
        return Failure(h.error);
      }
      return Success(f.(width := w.value, height := h.value));
    } else if IsPageElement(item, "pgMar") {
      var a := FetchAttrValue(item.event.attributes, "top");
      if a.Failure? { return Failure(a.error); }
      var b := FetchAttrValue(item.event.attributes, "bottom");
      if b.Failure? { return Failure(b.error); }
      var c := FetchAttrValue(item.event.attributes, "right");
      if c.Failure? { return Failure(c.error); }
      var d := FetchAttrValue(item.event.attributes, "left");
      if d.Failure? { return Failure(d.error); }
      var e := FetchAttrValue(item.event.attributes, "header");
      if e.Failure? { return Failure(e.error); }
      var g := FetchAttrValue(item.event.attributes, "footer");
      if g.Failure? { return Failure(g.error); }
      var k := FetchAttrValue(item.event.attributes, "gutter");
      if k.Failure? { return Failure(k.error); }
      return Success(f.(mTop := a.value, mBottom := b.value, mRight := c.value, mLeft := d.value,
                        header := e.value, footer := g.value, gutter := k.value));
    }
    return Success(f);
  }

  lemma {:induction false} PageScanFailurePersists(a: seq<ReadEvent>, b: seq<ReadEvent>)
    requires PageScan(a).Failure?
    ensures PageScan(a + b) == PageScan(a)
    decreases |b|
  {
    if b == [] {
      assert a + b == a;
    } else {
      PageScanFailurePersists(a, b[..|b| - 1]);
      assert (a + b)[..|a + b| - 1] == a + b[..|b| - 1];
    }
  }

  /** The nine fields in the order they are checked, and the message for each. */
  function FieldsInOrder(f: PageFields): seq<Option<int>>
  {
    [f.height, f.width, f.mTop, f.mBottom, f.mRight, f.mLeft, f.header, f.footer, f.gutter]
  }

  const MissingMessages: seq<string> := [
    "Page height attribute not found", "Page width attribute not found",
    "Page top margin attribute not found", "Page bottom margin attribute not found",
    "Page right margin attribute not found", "Page left margin attribute not found",
    "Page header margin attribute not found", "Page footer margin attribute not found",
    "Page gutter attribute not found"]

  /** The position of the first missing value, or the length when none is missing. */
  function FirstMissing(fs: seq<Option<int>>): (k: nat)
    ensures k <= |fs|
    ensures forall j :: 0 <= j < k ==> fs[j].Some?
    ensures k < |fs| ==> fs[k].None?
    decreases |fs|
  {
    if fs == [] then 0 else if fs[0].None? then 0 else 1 + FirstMissing(fs[1..])
  }

  /**
   * The result is the dimensions when all nine values are present, and
   * otherwise the report for the first missing one in the order height,
   * width, top, bottom, right, left, header, footer, gutter.
   */
  lemma FinishReportsFirstMissing(f: PageFields)
    ensures var k := FirstMissing(FieldsInOrder(f));
      && (Finish(f).Success? <==> k == 9)
      && (k < 9 ==> Finish(f) == Failure(Malformed(MissingMessages[k])))
      && (k == 9 ==> Finish(f).value == PageDimensions(f.height.value, f.width.value, f.mTop.value, f.mBottom.value,
                                                      f.mRight.value, f.mLeft.value, f.header.value, f.footer.value,
                                                      f.gutter.value))
  {
    var fs := FieldsInOrder(f);
    var k := FirstMissing(fs);
    assert fs[0] == f.height && fs[1] == f.width && fs[2] == f.mTop && fs[3] == f.mBottom && fs[4] == f.mRight;
    assert fs[5] == f.mLeft && fs[6] == f.header && fs[7] == f.footer && fs[8] == f.gutter;
  }

  /** Events other than `w:pgSz` starts leave width and height as they are. */
  lemma {:induction false} PageSizeUntouched(a: seq<ReadEvent>, b: seq<ReadEvent>)
    requires forall k :: 0 <= k < |b| ==> !IsPageElement(b[k], "pgSz")
    requires PageScan(a + b).Success?
    ensures PageScan(a).Success?
    ensures PageScan(a + b).value.width == PageScan(a).value.width
    ensures PageScan(a + b).value.height == PageScan(a).value.height
    decreases |b|
  {
    if b == [] {
      assert a + b == a;
    } else {
      var b' := b[..|b| - 1];
      assert (a + b)[..|a + b| - 1] == a + b';
      assert (a + b)[|a + b| - 1] == b[|b| - 1];
      PageSizeUntouched(a, b');
      PageStepKeepsSize(PageScan(a + b').value, b[|b| - 1]);
    }
  }

  lemma PageScanSnoc(items: seq<ReadEvent>, i: nat)
    requires i < |items| && PageScan(items[..i]).Success?
    ensures PageScan(items[..i + 1]) == PageStep(PageScan(items[..i]).value, items[i])
  {
    assert items[..i + 1][..i] == items[..i];
  }

  lemma PageStepKeepsSize(f: PageFields, item: ReadEvent)
    requires !IsPageElement(item, "pgSz") && PageStep(f, item).Success?
    ensures PageStep(f, item).value.width == f.width && PageStep(f, item).value.height == f.height
  {
  }

  /** Events other than `w:pgMar` starts leave the margins as they are. */
  lemma {:induction false} MarginsUntouched(a: seq<ReadEvent>, b: seq<ReadEvent>)
    requires forall k :: 0 <= k < |b| ==> !IsPageElement(b[k], "pgMar")
    requires PageScan(a + b).Success?
    ensures PageScan(a).Success?
    ensures var f, g := PageScan(a + b).value, PageScan(a).value;
      f.(height := g.height, width := g.width) == g
    decreases |b|
  {
    if b == [] {
      assert a + b == a;
    } else {
      var b' := b[..|b| - 1];
      assert (a + b)[..|a + b| - 1] == a + b';
      assert (a + b)[|a + b| - 1] == b[|b| - 1];
      MarginsUntouched(a, b');
    }
  }

  /** The last `w:pgSz` element determines width and height; earlier ones are overwritten. */
  lemma LastPageSizeWins(a: seq<ReadEvent>, e: ReadEvent, b: seq<ReadEvent>)
    requires IsPageElement(e, "pgSz")
    requires forall k :: 0 <= k < |b| ==> !IsPageElement(b[k], "pgSz")
    requires PageScan(a + [e] + b).Success?
    ensures AttrValue(e.event.attributes, "w").Success? && AttrValue(e.event.attributes, "h").Success?
    ensures PageScan(a + [e] + b).value.width == AttrValue(e.event.attributes, "w").value
    ensures PageScan(a + [e] + b).value.height == AttrValue(e.event.attributes, "h").value
  {
    PageSizeUntouched(a + [e], b);
    assert (a + [e])[..|a + [e]| - 1] == a;
    if PageScan(a).Failure? {
      PageScanFailurePersists(a, [e]);
    }
  }

  /** The last `w:pgMar` element determines the seven margins. */
  lemma LastMarginsWin(a: seq<ReadEvent>, e: ReadEvent, b: seq<ReadEvent>)
    requires IsPageElement(e, "pgMar")
    requires forall k :: 0 <= k < |b| ==> !IsPageElement(b[k], "pgMar")
    requires PageScan(a + [e] + b).Success?
    ensures var attrs := e.event.attributes;
      var f := PageScan(a + [e] + b).value;
      && AttrValue(attrs, "top") == Success(f.mTop) && AttrValue(attrs, "bottom") == Success(f.mBottom)
      && AttrValue(attrs, "right") == Success(f.mRight) && AttrValue(attrs, "left") == Success(f.mLeft)
      && AttrValue(attrs, "header") == Success(f.header) && AttrValue(attrs, "footer") == Success(f.footer)
      && AttrValue(attrs, "gutter") == Success(f.gutter)
  {
    MarginsUntouched(a + [e], b);
    assert (a + [e])[..|a + [e]| - 1] == a;
    if PageScan(a).Failure? {
      PageScanFailurePersists(a, [e]);
    }
    var g := PageScan(a).value;
    assert PageScan(a + [e]) == PageStep(g, e);
    MarginStep(g, e);
  }

  lemma MarginStep(g: PageFields, e: ReadEvent)
    requires IsPageElement(e, "pgMar") && PageStep(g, e).Success?
    ensures var attrs := e.event.attributes;
      var f := PageStep(g, e).value;
      && AttrValue(attrs, "top") == Success(f.mTop) && AttrValue(attrs, "bottom") == Success(f.mBottom)
      && AttrValue(attrs, "right") == Success(f.mRight) && AttrValue(attrs, "left") == Success(f.mLeft)
      && AttrValue(attrs, "header") == Success(f.header) && AttrValue(attrs, "footer") == Success(f.footer)
      && AttrValue(attrs, "gutter") == Success(f.gutter)
  {
    assert !IsPageElement(e, "pgSz");
  }
}

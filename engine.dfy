/**
 * The render pass shared by the current engine and the older single-file
 * one: a walk over the template areas with a bookmark into the token
 * stream, de-duplication by paragraph start, and the complex-placeholder
 * loop that pastes the literal text around each `{{helper expr}}` and hands
 * the placeholder to a helper. What an area renders to, what a literal
 * piece pastes to and what a helper produces are parameters; `S` is the
 * state the helpers thread through the pass.
 */
module Engine {
  import opened Wrappers
  import opened Text
  import opened Errors
  import opened Xml
  import opened Patterns
  import opened Parse

  // ---------------------------------------------------------------------
  // Rust slicing, with its panics as failures

  const SLICE_ORDER: string := "slice index starts after its end"
  const SLICE_END: string := "range end index out of range"
  const SLICE_START: string := "range start index out of range"
  const STR_ORDER: string := "begin <= end when slicing"
  const STR_BOUNDS: string := "byte index out of bounds"
  const INDEX_OOB: string := "index out of bounds"

  /** `s[lo..hi]` on a vector. */
  function Slice<T>(s: seq<T>, lo: nat, hi: nat): (r: Result<seq<T>, Error>)
    ensures r.Success? <==> lo <= hi <= |s|
    ensures r.Success? ==> r.value == s[lo..hi]
  {
    if lo > hi then Failure(Panic(SLICE_ORDER))
    else if hi > |s| then Failure(Panic(SLICE_END))
    else Success(s[lo..hi])
  }

  /** `s[lo..]` on a vector. */
  function SliceFrom<T>(s: seq<T>, lo: nat): (r: Result<seq<T>, Error>)
    ensures r.Success? <==> lo <= |s|
    ensures r.Success? ==> r.value == s[lo..]
  {
    if lo > |s| then Failure(Panic(SLICE_START)) else Success(s[lo..])
  }

  /** `text[lo..hi]` on a string. */
  function TextSlice(text: string, lo: nat, hi: nat): (r: Result<string, Error>)
    ensures r.Success? <==> lo <= hi <= |text|
    ensures r.Success? ==> r.value == text[lo..hi]
  {
    if lo > hi then Failure(Panic(STR_ORDER))
    else if hi > |text| then Failure(Panic(STR_BOUNDS))
    else Success(text[lo..hi])
  }

  /** `text[lo..]` on a string. */
  function TextFrom(text: string, lo: nat): (r: Result<string, Error>)
    ensures r.Success? <==> lo <= |text|
    ensures r.Success? ==> r.value == text[lo..]
  {
    if lo > |text| then Failure(Panic(STR_BOUNDS)) else Success(text[lo..])
  }

  // ---------------------------------------------------------------------
  // The pass over the template areas

  /**
   * What an area renders to, given the area's tokens `tokens[start..=end]`,
   * the position of the placeholder token inside them, and the state.
   */
  type AreaRenderer<!S> = (seq<Token>, nat, S) -> Result<(seq<Token>, S), Error>

  /** The locals of the pass: the output so far, the bookmark, the starts already rendered, and the helpers' state. */
  datatype Pass<S> = Pass(result: seq<Token>, bookmark: nat, seen: set<nat>, state: S)

  predicate Complete(a: TemplateArea)
  {
    a.start.Some? && a.end.Some?
  }

  /**
   * One iteration of the area loop. An area without both ends, or whose
   * start was already rendered, changes nothing. Otherwise the tokens from
   * the bookmark up to the start are copied, the area is rendered, and the
   * bookmark moves past the end. `index - start` wraps in a release build,
   * so a placeholder before its paragraph start indexes past the area.
   */
  function AreaStep<S>(tokens: seq<Token>, a: TemplateArea, p: Pass<S>, render: AreaRenderer<S>): Result<Pass<S>, Error>
  {
    if !Complete(a) || a.start.value in p.seen then Success(p)
    else
      var start, end := a.start.value, a.end.value;
      var tt :- Slice(tokens, start, end + 1);
      var prequel :- Slice(tokens, p.bookmark, start);
      if a.tokenIndex < start || a.tokenIndex - start >= |tt| then Failure(Panic(INDEX_OOB))
      else
        var out :- render(tt, a.tokenIndex - start, p.state);
        Success(Pass(p.result + prequel + out.0, end + 1, p.seen + {start}, out.1))
  }

  /** The area loop from area `i` on. */
  function PassFrom<S>(tokens: seq<Token>, areas: seq<TemplateArea>, i: nat, p: Pass<S>, render: AreaRenderer<S>): Result<Pass<S>, Error>
    decreases |areas| - i
  {
    if i >= |areas| then Success(p)
    else
      var q :- AreaStep(tokens, areas[i], p, render);
      PassFrom(tokens, areas, i + 1, q, render)
  }

  /** The rendered token stream and the final state: the pass, then the tokens after the last bookmark. */
  function RenderTokensOf<S>(tokens: seq<Token>, areas: seq<TemplateArea>, init: S, render: AreaRenderer<S>): Result<(seq<Token>, S), Error>
  {
    var p :- PassFrom(tokens, areas, 0, Pass([], 0, {}, init), render);
    var rest :- SliceFrom(tokens, p.bookmark);
    Success((p.result + rest, p.state))
  }

  // ---------------------------------------------------------------------
  // Placeholders of a complex template

  /** `TemplatePlaceholder`: a placeholder's helper, expression and span in the token text. */
  datatype TemplatePlaceholder = TemplatePlaceholder(helperName: Option<string>, expression: string, startPosition: nat, endPosition: nat)

  const UNWRAP_NONE: string := "called `Option::unwrap()` on a `None` value"
  const NO_GROUP_1: string := "no group at index '1'"
  const NO_GROUP_2: string := "no group at index '2'"

  /**
   * The placeholder of one match at position `start`. The pattern has two
   * groups, so the helper arm is always taken; the second group is
   * optional in the pattern, and indexing it when it did not take part in
   * the match panics.
   */
  function PlaceholderAt(c: Capture, start: nat): Result<TemplatePlaceholder, Error>
  {
    if c.group1.None? then Failure(Panic(NO_GROUP_1))
    else if c.group2.None? then Failure(Panic(NO_GROUP_2))
    else Success(TemplatePlaceholder(Some(c.group1.value), c.group2.value, start, start + |c.matched|))
  }

  /**
   * `parse_template_placeholders` as written: the start of each match is
   * looked up again with `text.find`, which returns the first occurrence of
   * the matched text.
   */
  function PlaceholdersAsWrittenFrom(text: string, captures: seq<Capture>, i: nat, acc: seq<TemplatePlaceholder>): Result<seq<TemplatePlaceholder>, Error>
    decreases |captures| - i
  {
    if i >= |captures| then Success(acc)
    else
      var start :- match Find(text, captures[i].matched)
        case None => Failure(Panic(UNWRAP_NONE))
        case Some(s) => Success(s);
      var ph :- PlaceholderAt(captures[i], start);
      PlaceholdersAsWrittenFrom(text, captures, i + 1, acc + [ph])
  }

  function PlaceholdersAsWritten(text: string, captures: seq<Capture>): Result<seq<TemplatePlaceholder>, Error>
  {
    PlaceholdersAsWrittenFrom(text, captures, 0, [])
  }

  /** `parse_template_placeholders` with each start taken from the match itself. */
  function PlaceholdersFrom(captures: seq<Capture>, i: nat, acc: seq<TemplatePlaceholder>): Result<seq<TemplatePlaceholder>, Error>
    decreases |captures| - i
  {
    if i >= |captures| then Success(acc)
    else
      var ph :- PlaceholderAt(captures[i], captures[i].start);
      PlaceholdersFrom(captures, i + 1, acc + [ph])
  }

  function PlaceholdersOf(captures: seq<Capture>): Result<seq<TemplatePlaceholder>, Error>
  {
    PlaceholdersFrom(captures, 0, [])
  }

  /** `parse_template_placeholders`, over the matches of the placeholder pattern. */
  method ParseTemplatePlaceholders(captures: seq<Capture>) returns (r: Result<seq<TemplatePlaceholder>, Error>)
    ensures r == PlaceholdersOf(captures)
  {
    var result: seq<TemplatePlaceholder> := [];
    ghost var all := PlaceholdersOf(captures);
    for i := 0 to |captures|
      invariant all == PlaceholdersFrom(captures, i, result)
    {
      var capture := captures[i];
      if capture.group1.None? {
        return Failure(Panic(NO_GROUP_1));
      }
      if capture.group2.None? {
        return Failure(Panic(NO_GROUP_2));
      }
      var startPosition := capture.start;
      var endPosition := startPosition + |capture.matched|;
      result := result + [TemplatePlaceholder(Some(capture.group1.value), capture.group2.value, startPosition, endPosition)];
    }
    return Success(result);
  }

  /** The matches lie inside the text, one after the other, as `captures_iter` yields them. */
  predicate CapturesInOrder(text: string, captures: seq<Capture>)
  {
    && (forall k :: 0 <= k < |captures| ==> captures[k].start + |captures[k].matched| <= |text|)
    && (forall k :: 0 <= k < |captures| - 1 ==> captures[k].start + |captures[k].matched| <= captures[k + 1].start)
  }

  /** The spans lie inside the text, one after the other. */
  predicate SpansInOrder(text: string, phs: seq<TemplatePlaceholder>)
  {
    && (forall k :: 0 <= k < |phs| ==> phs[k].startPosition <= phs[k].endPosition <= |text|)
    && (forall k :: 0 <= k < |phs| - 1 ==> phs[k].endPosition <= phs[k + 1].startPosition)
  }

  /**
   * The placeholders are the matches, in order: one per match, helper and
   * expression from its two groups, span from its position and length;
   * parsing fails exactly when some match lacks a group.
   */
  lemma {:induction false} PlaceholdersFromFacts(captures: seq<Capture>, i: nat, acc: seq<TemplatePlaceholder>)
    requires i <= |captures|
    ensures PlaceholdersFrom(captures, i, acc).Success? <==>
      forall j :: i <= j < |captures| ==> captures[j].group1.Some? && captures[j].group2.Some?
    ensures PlaceholdersFrom(captures, i, acc).Success? ==>
      var r := PlaceholdersFrom(captures, i, acc).value;
      && |r| == |acc| + |captures| - i
      && r[..|acc|] == acc
      && forall j :: i <= j < |captures| ==>
           r[|acc| + j - i] == TemplatePlaceholder(captures[j].group1, captures[j].group2.value, captures[j].start, captures[j].start + |captures[j].matched|)
    decreases |captures| - i
  {
    if i < |captures| {
      var c := captures[i];
      if c.group1.Some? && c.group2.Some? {
        var ph := TemplatePlaceholder(Some(c.group1.value), c.group2.value, c.start, c.start + |c.matched|);
        PlaceholdersFromFacts(captures, i + 1, acc + [ph]);
        if PlaceholdersFrom(captures, i, acc).Success? {
          var r := PlaceholdersFrom(captures, i, acc).value;
          assert r[..|acc| + 1] == acc + [ph] by {
            assert r[..|acc| + 1] == r[..|acc + [ph]|];
          }
          assert r[..|acc|] == (acc + [ph])[..|acc|];
        }
      }
    }
  }

  /** Matches in order give placeholder spans in order. */
  lemma PlaceholdersInOrder(text: string, captures: seq<Capture>)
    requires CapturesInOrder(text, captures)
    requires PlaceholdersOf(captures).Success?
    ensures SpansInOrder(text, PlaceholdersOf(captures).value)
  {
    var none: seq<TemplatePlaceholder> := [];
    PlaceholdersFromFacts(captures, 0, none);
    var r := PlaceholdersOf(captures).value;
    forall k | 0 <= k < |r|
      ensures r[k].startPosition == captures[k].start && r[k].endPosition == captures[k].start + |captures[k].matched|
    {
      assert r[k] == r[|none| + k - 0];
    }
  }

  /**
   * `text.find` never lands after the match it looks up: for matches that
   * really are in the text, the as-written start is at most the true one.
   */
  lemma {:induction false} AsWrittenNoLater(text: string, captures: seq<Capture>, i: nat, acc: seq<TemplatePlaceholder>, acc': seq<TemplatePlaceholder>)
    requires i <= |captures| && |acc| == |acc'|
    requires forall j :: 0 <= j < |acc| ==> acc[j].startPosition <= acc'[j].startPosition
    requires forall j :: i <= j < |captures| ==> OccursAt(text, captures[j].matched, captures[j].start)
    requires PlaceholdersFrom(captures, i, acc').Success?
    ensures PlaceholdersAsWrittenFrom(text, captures, i, acc).Success?
    ensures var w, r := PlaceholdersAsWrittenFrom(text, captures, i, acc).value, PlaceholdersFrom(captures, i, acc').value;
      |w| == |r| && forall j :: 0 <= j < |w| ==> w[j].startPosition <= r[j].startPosition
    decreases |captures| - i
  {
    if i < |captures| {
      var c := captures[i];
      var f := Find(text, c.matched);
      assert f.Some? && f.value <= c.start;
      var ph := PlaceholderAt(c, f.value).value;
      var ph' := PlaceholderAt(c, c.start).value;
      AsWrittenNoLater(text, captures, i + 1, acc + [ph], acc' + [ph']);
    }
  }

  // ---------------------------------------------------------------------
  // The complex-template loop

  /** What pastes a literal piece of the token text into the area. */
  type Paste = string -> Result<seq<Token>, Error>

  /** What a helper `{{name expression}}` produces, threading the state. */
  type Helper<!S> = (string, string, S) -> Result<(seq<Token>, S), Error>

  /** The locals of the loop: the output so far, the position in the text, the state. */
  datatype Complex<S> = Complex(out: seq<Token>, index: nat, state: S)

  /** The literal text between the position and a placeholder, pasted if there is any. */
  function PrequelOf(text: string, index: nat, start: nat, paste: Paste): Result<seq<Token>, Error>
  {
    if index == start then Success([])
    else
      var piece :- TextSlice(text, index, start);
      paste(piece)
  }

  /** The literal text after the position, pasted if there is any. */
  function SequelOf(text: string, index: nat, paste: Paste): Result<seq<Token>, Error>
  {
    if index == |text| then Success([])
    else
      var piece :- TextFrom(text, index);
      paste(piece)
  }

  /**
   * The placeholder loop from placeholder `k` on: for each placeholder with
   * a helper, paste the literal text before it, move the position to its
   * end, and append what the helper produces.
   */
  function ComplexFrom<S>(text: string, phs: seq<TemplatePlaceholder>, k: nat, c: Complex<S>, paste: Paste, helper: Helper<S>): Result<Complex<S>, Error>
    decreases |phs| - k
  {
    if k >= |phs| then Success(c)
    else
      var ph := phs[k];
      if ph.helperName.None? then ComplexFrom(text, phs, k + 1, c, paste, helper)
      else
        var pre :- PrequelOf(text, c.index, ph.startPosition, paste);
        var h :- helper(ph.helperName.value, ph.expression, c.state);
        ComplexFrom(text, phs, k + 1, Complex(c.out + pre + h.0, ph.endPosition, h.1), paste, helper)
  }

  /** A complex template's tokens: the loop, then the pasted text after the last placeholder. */
  function ComplexTokensOf<S>(text: string, phs: seq<TemplatePlaceholder>, init: S, paste: Paste, helper: Helper<S>): Result<(seq<Token>, S), Error>
  {
    var c :- ComplexFrom(text, phs, 0, Complex([], 0, init), paste, helper);
    var sequel :- SequelOf(text, c.index, paste);
    Success((c.out + sequel, c.state))
  }

  /**
   * With spans in order the loop never slices backwards: if pasting and the
   * helpers succeed, so does the whole complex template.
   */
  lemma {:induction false} ComplexFromSucceeds<S>(text: string, phs: seq<TemplatePlaceholder>, k: nat, c: Complex<S>, paste: Paste, helper: Helper<S>)
    requires SpansInOrder(text, phs) && k <= |phs|
    requires c.index <= |text| && (k < |phs| ==> c.index <= phs[k].startPosition)
    requires forall s :: paste(s).Success?
    requires forall n, e, st :: helper(n, e, st).Success?
    ensures ComplexFrom(text, phs, k, c, paste, helper).Success?
    ensures ComplexFrom(text, phs, k, c, paste, helper).value.index <= |text|
    decreases |phs| - k
  {
    if k < |phs| {
      var ph := phs[k];
      if ph.helperName.None? {
        ComplexFromSucceeds(text, phs, k + 1, c, paste, helper);
      } else {
        var pre := PrequelOf(text, c.index, ph.startPosition, paste);
        assert pre.Success?;
        var h := helper(ph.helperName.value, ph.expression, c.state);
        assert h.Success?;
        ComplexFromSucceeds(text, phs, k + 1, Complex(c.out + pre.value + h.value.0, ph.endPosition, h.value.1), paste, helper);
      }
    }
  }

  lemma ComplexSucceeds<S>(text: string, phs: seq<TemplatePlaceholder>, init: S, paste: Paste, helper: Helper<S>)
    requires SpansInOrder(text, phs)
    requires forall s :: paste(s).Success?
    requires forall n, e, st :: helper(n, e, st).Success?
    ensures ComplexTokensOf(text, phs, init, paste, helper).Success?
  {
    ComplexFromSucceeds(text, phs, 0, Complex([], 0, init), paste, helper);
  }

  /** Pasting and helpers that never fail, for the example below. */
  function PasteNothing(): Paste { (s: string) => Success([]) }

  function HelperNothing(): Helper<()> { (n: string, e: string, st: ()) => Success(([], st)) }

  /**
   * Two identical placeholders in one paragraph: the lookup with `find`
   * gives both the start 0, so the second iteration slices the text from the
   * end of the first placeholder back to 0 and panics, while the spans of
   * the matches themselves render.
   */
  lemma RepeatedPlaceholderCounterexample()
    ensures var m := "{{table t}}";
      var captures := [Capture(0, m, Some("table"), Some("t")), Capture(|m|, m, Some("table"), Some("t"))];
      var first, second := TemplatePlaceholder(Some("table"), "t", 0, |m|), TemplatePlaceholder(Some("table"), "t", |m|, 2 * |m|);
      && PlaceholdersAsWritten(m + m, captures) == Success([first, first])
      && ComplexTokensOf(m + m, [first, first], (), PasteNothing(), HelperNothing()) == Failure(Panic(STR_ORDER))
      && PlaceholdersOf(captures) == Success([first, second])
      && ComplexTokensOf(m + m, [first, second], (), PasteNothing(), HelperNothing()).Success?
  {
    var m := "{{table t}}";
    var text := m + m;
    var captures := [Capture(0, m, Some("table"), Some("t")), Capture(|m|, m, Some("table"), Some("t"))];
    var first, second := TemplatePlaceholder(Some("table"), "t", 0, |m|), TemplatePlaceholder(Some("table"), "t", |m|, 2 * |m|);
    assert text[0..|m|] == m;
    assert OccursAt(text, m, 0);
    assert Find(text, m) == Some(0);
    assert PlaceholderAt(captures[0], 0) == Success(first) && PlaceholderAt(captures[1], 0) == Success(first);
    assert PlaceholderAt(captures[1], |m|) == Success(second);
    var none: seq<TemplatePlaceholder> := [];
    assert none + [first] == [first] && [first] + [first] == [first, first] && [first] + [second] == [first, second];
    assert PlaceholdersAsWrittenFrom(text, captures, 0, []) == PlaceholdersAsWrittenFrom(text, captures, 1, [first]);
    assert PlaceholdersAsWrittenFrom(text, captures, 1, [first]) == PlaceholdersAsWrittenFrom(text, captures, 2, [first, first]);
    var c1 := Complex([], |m|, ());
    assert ComplexFrom(text, [first, first], 0, Complex([], 0, ()), PasteNothing(), HelperNothing()) == ComplexFrom(text, [first, first], 1, c1, PasteNothing(), HelperNothing());
    assert PrequelOf(text, |m|, 0, PasteNothing()) == Failure(Panic(STR_ORDER));
    assert PlaceholdersFrom(captures, 0, []) == PlaceholdersFrom(captures, 1, [first]);
    assert PlaceholdersFrom(captures, 1, [first]) == PlaceholdersFrom(captures, 2, [first, second]);
    assert SpansInOrder(text, [first, second]);
    ComplexSucceeds(text, [first, second], (), PasteNothing(), HelperNothing());
  }

  // ---------------------------------------------------------------------
  // Properties of the pass

  /** An area without both ends, or with a start already rendered, leaves the pass as it is. */
  lemma SkippedArea<S>(tokens: seq<Token>, a: TemplateArea, p: Pass<S>, render: AreaRenderer<S>)
    requires !Complete(a) || a.start.value in p.seen
    ensures AreaStep(tokens, a, p, render) == Success(p)
  {
  }

  /** The starts of the complete areas from `i` on. */
  function CompleteStarts(areas: seq<TemplateArea>, i: nat): set<nat>
    decreases |areas| - i
  {
    if i >= |areas| then {}
    else (if Complete(areas[i]) then {areas[i].start.value} else {}) + CompleteStarts(areas, i + 1)
  }

  /** A renderer that keeps each area and counts how often it is called. */
  function Counting(): AreaRenderer<nat>
  {
    (tt: seq<Token>, sub: nat, n: nat) => Success((tt, n + 1))
  }

  /**
   * De-duplication: over a successful pass the set of rendered starts grows
   * by exactly the starts of the complete areas, and the renderer is called
   * once per start that was not rendered already.
   */
  lemma {:induction false} PassRendersEachStartOnce(tokens: seq<Token>, areas: seq<TemplateArea>, i: nat, p: Pass<nat>)
    requires PassFrom(tokens, areas, i, p, Counting()).Success?
    ensures var q := PassFrom(tokens, areas, i, p, Counting()).value;
      && q.seen == p.seen + CompleteStarts(areas, i)
      && q.state == p.state + |q.seen| - |p.seen|
    decreases |areas| - i
  {
    if i < |areas| {
      var q := AreaStep(tokens, areas[i], p, Counting()).value;
      PassRendersEachStartOnce(tokens, areas, i + 1, q);
      var a := areas[i];
      if Complete(a) && a.start.value !in p.seen {
        assert q.seen == p.seen + {a.start.value} && q.state == p.state + 1;
        assert |q.seen| == |p.seen| + 1;
      }
    }
  }

  /** A template renders each distinct paragraph start exactly once. */
  lemma RenderedOncePerStart(tokens: seq<Token>, areas: seq<TemplateArea>)
    requires RenderTokensOf(tokens, areas, 0, Counting()).Success?
    ensures RenderTokensOf(tokens, areas, 0, Counting()).value.1 == |CompleteStarts(areas, 0)|
  {
    PassRendersEachStartOnce(tokens, areas, 0, Pass([], 0, {}, 0));
  }

  /**
   * The areas fit the stream: each complete area holds its placeholder and
   * ends inside the stream, and areas with different starts come one after
   * the other.
   */
  predicate Separated(tokens: seq<Token>, areas: seq<TemplateArea>)
  {
    && (forall k :: 0 <= k < |areas| && Complete(areas[k]) ==>
          areas[k].start.value <= areas[k].tokenIndex <= areas[k].end.value < |tokens|)
    && (forall k, l :: 0 <= k < l < |areas| && Complete(areas[k]) && Complete(areas[l]) && areas[k].start != areas[l].start ==>
          areas[k].end.value < areas[l].start.value)
  }

  /** A renderer that reproduces every area it is given. */
  ghost predicate KeepsAreas<S(!new)>(render: AreaRenderer<S>)
  {
    forall tt, sub, st :: render(tt, sub, st).Success? && render(tt, sub, st).value.0 == tt
  }

  lemma {:induction false} PassKeeps<S(!new)>(tokens: seq<Token>, areas: seq<TemplateArea>, i: nat, p: Pass<S>, render: AreaRenderer<S>)
    requires Separated(tokens, areas) && KeepsAreas(render)
    requires p.bookmark <= |tokens| && p.result == tokens[..p.bookmark]
    requires forall l :: i <= l < |areas| && Complete(areas[l]) && areas[l].start.value !in p.seen ==> p.bookmark <= areas[l].start.value
    ensures PassFrom(tokens, areas, i, p, render).Success?
    ensures var q := PassFrom(tokens, areas, i, p, render).value;
      q.bookmark <= |tokens| && q.result == tokens[..q.bookmark]
    decreases |areas| - i
  {
    if i < |areas| {
      var a := areas[i];
      if Complete(a) && a.start.value !in p.seen {
        var start, end := a.start.value, a.end.value;
        var tt := tokens[start..end + 1];
        var out := render(tt, a.tokenIndex - start, p.state).value;
        var q := Pass(p.result + tokens[p.bookmark..start] + out.0, end + 1, p.seen + {start}, out.1);
        assert AreaStep(tokens, a, p, render) == Success(q);
        assert q.result == tokens[..end + 1];
        PassKeeps(tokens, areas, i + 1, q, render);
      } else {
        PassKeeps(tokens, areas, i + 1, p, render);
      }
    }
  }

  /**
   * If every area renders to its own tokens, the output is the input:
   * the copies between the areas and after the last one, together with the
   * areas, tile the stream.
   */
  lemma RenderKeepsTokens<S(!new)>(tokens: seq<Token>, areas: seq<TemplateArea>, init: S, render: AreaRenderer<S>)
    requires Separated(tokens, areas) && KeepsAreas(render)
    ensures RenderTokensOf(tokens, areas, init, render).Success?
    ensures RenderTokensOf(tokens, areas, init, render).value.0 == tokens
  {
    PassKeeps(tokens, areas, 0, Pass([], 0, {}, init), render);
    var q := PassFrom(tokens, areas, 0, Pass([], 0, {}, init), render).value;
    assert tokens[..q.bookmark] + tokens[q.bookmark..] == tokens;
  }
}

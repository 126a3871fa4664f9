/**
 * The prototype generator `textkit-word`: a tokenizer that knows only
 * simple placeholders and drops reader errors, the paragraph resolver, a
 * render without de-duplication that splits rendered text on `\n\n` only,
 * and the package rebuild that puts the new document back.
 */
module PrototypeWord {
  import opened Wrappers
  import opened Seqs
  import opened Text
  import opened Errors
  import opened Xml
  import opened Patterns
  import opened Parse
  import opened Parts = Render
  import opened Engine
  import LegacyDocx

  /** The prototype resolves areas for simple placeholders only. */
  const PrototypeKinds: set<TokenType> := {Template}

  const UNWRAP_ERR: string := "called `Result::unwrap()` on an `Err` value"

  // ---------------------------------------------------------------------
  // Tokenizer

  /** The token of one event: character data is a Template when the simple pattern matches it. */
  function ProtoTokenOf(simple: string -> bool, e: XmlEvent): Token
  {
    if e.Characters? then Token(if simple(e.text) then Template else Normal, Some(e.text), e)
    else Token(Normal, None, e)
  }

  /** What the prototype `xml_to_token_vec` returns: one token per event, reader errors skipped. */
  function ProtoTokens(simple: string -> bool, items: seq<ReadEvent>): seq<Token>
    decreases |items|
  {
    if items == [] then []
    else
      ProtoTokens(simple, items[..|items| - 1])
      + (match items[|items| - 1] case Event(e) => [ProtoTokenOf(simple, e)] case ReadError(_) => [])
  }

  /** `xml_to_token_vec` of the prototype */
  method ProtoXmlToTokenVec(simple: string -> bool, items: seq<ReadEvent>) returns (r: seq<Token>)
    ensures r == ProtoTokens(simple, items)
  {
    r := [];
    for i := 0 to |items|
      invariant r == ProtoTokens(simple, items[..i])
    {
      assert items[..i + 1][..i] == items[..i];
      match items[i]
      case Event(e) =>
        if e.Characters? {
          var contents := e.text;
          if simple(contents) {
            r := r + [Token(Template, Some(contents), e)];
          } else {
            r := r + [Token(Normal, Some(contents), e)];
          }
        } else {
          r := r + [Token(Normal, None, e)];
        }
      case ReadError(_) =>
    }
    assert items[..|items|] == items;
  }

  /** The events the reader delivered, without its errors. */
  function DeliveredEvents(items: seq<ReadEvent>): seq<XmlEvent>
    decreases |items|
  {
    if items == [] then []
    else if items[0].ReadError? then DeliveredEvents(items[1..])
    else [items[0].event] + DeliveredEvents(items[1..])
  }

  lemma {:induction false} DeliveredEventsAppend(a: seq<ReadEvent>, b: seq<ReadEvent>)
    ensures DeliveredEvents(a + b) == DeliveredEvents(a) + DeliveredEvents(b)
    decreases |a|
  {
    if a == [] {
      assert a + b == b;
    } else {
      assert (a + b)[0] == a[0];
      assert (a + b)[1..] == a[1..] + b;
      DeliveredEventsAppend(a[1..], b);
    }
  }

  /**
   * The tokens are the delivered events in order, one each: the reader's
   * errors are dropped, character data carries its text and is a Template
   * exactly when the simple pattern matches, and no token is a
   * ComplexTemplate.
   */
  lemma {:induction false} ProtoTokensFacts(simple: string -> bool, items: seq<ReadEvent>)
    ensures var r, events := ProtoTokens(simple, items), DeliveredEvents(items);
      && |r| == |events|
      && forall j :: 0 <= j < |r| ==>
        && r[j] == ProtoTokenOf(simple, events[j])
        && r[j].event == events[j]
        && (r[j].tokenType == Template <==> events[j].Characters? && simple(events[j].text))
        && r[j].tokenType != ComplexTemplate
        && (r[j].tokenText.Some? <==> events[j].Characters?)
    decreases |items|
  {
    if items != [] {
      var init, last := items[..|items| - 1], items[|items| - 1];
      ProtoTokensFacts(simple, init);
      DeliveredEventsAppend(init, [last]);
      assert init + [last] == items;
      assert [last][1..] == [];
    }
  }

  /**
   * Without reader errors and without text that only the helper pattern
   * matches, the prototype's tokens are those of the older generator.
   */
  lemma ProtoTokensAgainstLegacy(p: Patterns, items: seq<ReadEvent>)
    requires forall i :: 0 <= i < |items| ==> items[i].Event?
    requires forall i :: 0 <= i < |items| && items[i].event.Characters? ==> Classify(p, items[i].event.text) != ComplexTemplate
    ensures LegacyDocx.LegacyTokenize(p, items) == Success(ProtoTokens(p.simple, items))
  {
    LegacyDocx.LegacyTokenizeFacts(p, items);
    ProtoTokensFacts(p.simple, items);
    AllDelivered(items);
    var a, b := LegacyDocx.LegacyTokenize(p, items).value, ProtoTokens(p.simple, items);
    forall j | 0 <= j < |items| ensures a[j] == b[j] {
      assert b[j] == ProtoTokenOf(p.simple, items[j].event);
    }
    assert a == b;
  }

  lemma {:induction false} AllDelivered(items: seq<ReadEvent>)
    requires forall i :: 0 <= i < |items| ==> items[i].Event?
    ensures |DeliveredEvents(items)| == |items|
    ensures forall j :: 0 <= j < |items| ==> DeliveredEvents(items)[j] == items[j].event
    decreases |items|
  {
    if items != [] {
      AllDelivered(items[1..]);
      assert forall j :: 0 < j < |items| ==> items[1..][j - 1] == items[j];
    }
  }

  // ---------------------------------------------------------------------
  // The render

  /**
   * The paste of the prototype's render: one copy of the area per chunk of
   * a non-empty rendering split on `\n\n`, and otherwise (an error or the
   * empty string) the area unchanged.
   */
  function ProtoPasteOf(tt: seq<Token>, text: string, index: nat, evaluate: string -> Option<string>): seq<Token>
    requires index < |tt|
  {
    match evaluate(text)
    case None => tt
    case Some(rendered) =>
      if rendered == [] then tt
      else MapConcat(Split(rendered, "\n\n"), PasteChunk(tt, index))
  }

  /** The prototype's paste is the older generator's whenever the rendering has no `\r\n`. */
  lemma ProtoPasteAgainstLegacy(tt: seq<Token>, text: string, index: nat, evaluate: string -> Option<string>)
    requires index < |tt|
    requires evaluate(text).Some? ==> !Contains(evaluate(text).value, "\r\n")
    ensures LegacyDocx.LegacyPasteOf(tt, text, index, evaluate) == Success(ProtoPasteOf(tt, text, index, evaluate))
  {
  }

  /** What an area renders to: the paste of its placeholder token, or nothing when that token has no text. */
  function ProtoAreaTokens(tt: seq<Token>, sub: nat, evaluate: string -> Option<string>): seq<Token>
    requires sub < |tt|
  {
    match tt[sub].tokenText
    case None => []
    case Some(text) => ProtoPasteOf(tt, text, sub, evaluate)
  }

  /** The same area rendering, as a renderer for the de-duplicating pass of the later engine. */
  function ProtoRenderer(evaluate: string -> Option<string>): AreaRenderer<()>
  {
    (tt: seq<Token>, sub: nat, st: ()) =>
      if sub < |tt| then Success((ProtoAreaTokens(tt, sub, evaluate), st)) else Failure(Panic(INDEX_OOB))
  }

  /** The locals of the prototype's area loop: the output so far and the bookmark. */
  datatype ProtoPass = ProtoPass(result: seq<Token>, bookmark: nat)

  /**
   * One iteration: every area with both ends is rendered, with no check for
   * a start already seen, so a second area of the same paragraph slices
   * the prequel from past its end back to its start.
   */
  function ProtoStep(tokens: seq<Token>, a: TemplateArea, p: ProtoPass, evaluate: string -> Option<string>): Result<ProtoPass, Error>
  {
    if !Complete(a) then Success(p)
    else
      var start, end := a.start.value, a.end.value;
      var tt :- Slice(tokens, start, end + 1);
      var prequel :- Slice(tokens, p.bookmark, start);
      if a.tokenIndex < start || a.tokenIndex - start >= |tt| then Failure(Panic(INDEX_OOB))
      else
        Success(ProtoPass(p.result + prequel + ProtoAreaTokens(tt, a.tokenIndex - start, evaluate), end + 1))
  }

  function ProtoPassFrom(tokens: seq<Token>, areas: seq<TemplateArea>, i: nat, p: ProtoPass, evaluate: string -> Option<string>): Result<ProtoPass, Error>
    decreases |areas| - i
  {
    if i >= |areas| then Success(p)
    else
      var q :- ProtoStep(tokens, areas[i], p, evaluate);
      ProtoPassFrom(tokens, areas, i + 1, q, evaluate)
  }

  /** The rendered document: the loop, then the tokens after the last bookmark. */
  function ProtoDocumentOf(tokens: seq<Token>, areas: seq<TemplateArea>, evaluate: string -> Option<string>): Result<seq<Token>, Error>
  {
    var p :- ProtoPassFrom(tokens, areas, 0, ProtoPass([], 0), evaluate);
    var rest :- SliceFrom(tokens, p.bookmark);
    Success(p.result + rest)
  }

  /** The prototype's template: the package and the reader's events for `word/document.xml`. */
  datatype ProtoTemplate = ProtoTemplate(sourcePayload: seq<Entry>, documentXml: seq<ReadEvent>)

  /** The simple placeholder pattern, Handlebars evaluation over the data, and the XML writer. */
  datatype ProtoEnv = ProtoEnv(
    simple: string -> bool,
    evaluate: string -> Option<string>,
    serialize: seq<Token> -> Option<Bytes>)

  /**
   * `DocxTemplate::render` of the prototype: tokenize, resolve the `w:p`
   * around each simple placeholder, render, write (a writer error is an
   * `unwrap` panic), and put the document back into the package.
   */
  function ProtoRenderOf(t: ProtoTemplate, env: ProtoEnv): Result<seq<Entry>, Error>
  {
    var tokens := ProtoTokens(env.simple, t.documentXml);
    var document :- ProtoDocumentOf(tokens, TemplateAreasOf(tokens, "p", PrototypeKinds), env.evaluate);
    match env.serialize(document)
    case None => Failure(Panic(UNWRAP_ERR))
    case Some(documentXml) => Success(KeptEntries(t.sourcePayload, DOCUMENT_XML) + [Entry(DOCUMENT_XML, true, documentXml)])
  }

  /** The body of the prototype's area loop once the area's tokens are cut out. */
  method ProtoRenderArea(tt: seq<Token>, sub: nat, evaluate: string -> Option<string>) returns (r: seq<Token>)
    requires sub < |tt|
    ensures r == ProtoAreaTokens(tt, sub, evaluate)
  {
    if tt[sub].tokenText.None? {
      return [];
    }
    var rendered := evaluate(tt[sub].tokenText.value);
    if rendered.None? || rendered.value == [] {
      return tt;
    }
    var chunks := Split(rendered.value, "\n\n");
    var result: seq<Token> := [];
    for i := 0 to |chunks|
      invariant result == MapConcat(chunks[..i], PasteChunk(tt, sub))
    {
      assert chunks[..i + 1][..i] == chunks[..i];
      var chunkTokens := tt;
      chunkTokens := chunkTokens[sub := TextToken(chunks[i])];
      result := result + chunkTokens;
    }
    assert chunks[..|chunks|] == chunks;
    return result;
  }

  /** The area loop of the prototype's render and the sequel after it. */
  method ProtoRenderTokens(tokens: seq<Token>, contexts: seq<TemplateArea>, evaluate: string -> Option<string>)
    returns (r: Result<seq<Token>, Error>)
    ensures r == ProtoDocumentOf(tokens, contexts, evaluate)
  {
    var result: seq<Token> := [];
    var bookmark: nat := 0;
    ghost var all := ProtoPassFrom(tokens, contexts, 0, ProtoPass([], 0), evaluate);
    for i := 0 to |contexts|
      invariant all == ProtoPassFrom(tokens, contexts, i, ProtoPass(result, bookmark), evaluate)
    {
      var context := contexts[i];
      if context.start.Some? && context.end.Some? {
        var start, end := context.start.value, context.end.value;
        var templateTokens := Slice(tokens, start, end + 1);
        if templateTokens.Failure? {
          return Failure(templateTokens.error);
        }
        var prequel := Slice(tokens, bookmark, start);
        if prequel.Failure? {
          return Failure(prequel.error);
        }
        bookmark := end + 1;
        result := result + prequel.value;
        if context.tokenIndex < start || context.tokenIndex - start >= |templateTokens.value| {
          return Failure(Panic(INDEX_OOB));
        }
        var out := ProtoRenderArea(templateTokens.value, context.tokenIndex - start, evaluate);
        result := result + out;
      }
    }
    var sequel := SliceFrom(tokens, bookmark);
    if sequel.Failure? {
      return Failure(sequel.error);
    }
    return Success(result + sequel.value);
  }

  /** `DocxTemplate::render` of the prototype */
  method ProtoRender(t: ProtoTemplate, env: ProtoEnv) returns (r: Result<seq<Entry>, Error>)
    ensures r == ProtoRenderOf(t, env)
  {
    var tokens := ProtoXmlToTokenVec(env.simple, t.documentXml);
    var contexts := FindTemplateAreas(tokens, "p", PrototypeKinds);
    var document := ProtoRenderTokens(tokens, contexts, env.evaluate);
    if document.Failure? {
      return Failure(document.error);
    }
    var documentXml := env.serialize(document.value);
    if documentXml.None? {
      return Failure(Panic(UNWRAP_ERR));
    }
    var rebuilt := NewZipBytesWithDocumentXml(t.sourcePayload, documentXml.value);
    return Success(rebuilt);
  }

  // ---------------------------------------------------------------------
  // Properties

  /** No two complete areas share a paragraph start: at most one placeholder per paragraph. */
  predicate DistinctStarts(areas: seq<TemplateArea>)
  {
    forall k, l :: 0 <= k < l < |areas| && Complete(areas[k]) && Complete(areas[l]) ==> areas[k].start != areas[l].start
  }

  function Unseen(r: Result<Pass<()>, Error>): Result<ProtoPass, Error>
  {
    match r
    case Success(q) => Success(ProtoPass(q.result, q.bookmark))
    case Failure(e) => Failure(e)
  }

  lemma {:induction false} ProtoPassAsDedup(tokens: seq<Token>, areas: seq<TemplateArea>, i: nat, p: ProtoPass, seen: set<nat>,
                                            evaluate: string -> Option<string>)
    requires DistinctStarts(areas) && i <= |areas|
    requires forall l :: i <= l < |areas| && Complete(areas[l]) ==> areas[l].start.value !in seen
    ensures ProtoPassFrom(tokens, areas, i, p, evaluate)
      == Unseen(PassFrom(tokens, areas, i, Pass(p.result, p.bookmark, seen, ()), ProtoRenderer(evaluate)))
    decreases |areas| - i
  {
    if i < |areas| {
      var a := areas[i];
      var d := Pass(p.result, p.bookmark, seen, ());
      var step := AreaStep(tokens, a, d, ProtoRenderer(evaluate));
      if !Complete(a) {
        ProtoPassAsDedup(tokens, areas, i + 1, p, seen, evaluate);
      } else {
        var start, end := a.start.value, a.end.value;
        assert start !in seen;
        if step.Success? {
          var q := step.value;
          assert Unseen(Success(q)) == ProtoStep(tokens, a, p, evaluate);
          forall l | i + 1 <= l < |areas| && Complete(areas[l]) ensures areas[l].start.value !in q.seen {
            assert areas[i].start != areas[l].start;
          }
          ProtoPassAsDedup(tokens, areas, i + 1, ProtoPass(q.result, q.bookmark), q.seen, evaluate);
        } else {
          assert ProtoStep(tokens, a, p, evaluate) == Failure(step.error);
        }
      }
    }
  }

  /**
   * With at most one placeholder per paragraph the missing de-duplication
   * does not matter: the prototype renders the document the de-duplicating
   * pass of the later engine renders with the same area rendering.
   */
  lemma ProtoDocumentAsDedup(tokens: seq<Token>, areas: seq<TemplateArea>, evaluate: string -> Option<string>)
    requires DistinctStarts(areas)
    ensures ProtoDocumentOf(tokens, areas, evaluate)
      == (var out :- RenderTokensOf(tokens, areas, (), ProtoRenderer(evaluate)); Success(out.0))
  {
    ProtoPassAsDedup(tokens, areas, 0, ProtoPass([], 0), {}, evaluate);
  }

  /**
   * Two simple placeholders in one paragraph: the resolver gives both the
   * same paragraph, the prototype renders the first, then slices the
   * prequel from past the paragraph's end back to its start and panics,
   * while the de-duplicating pass renders the paragraph once.
   */
  lemma ProtoTwoPlaceholdersCounterexample(evaluate: string -> Option<string>)
    ensures var t := Token(Template, Some("{{a}}"), Characters("{{a}}"));
      var tokens := [Open(W("p"), []), t, t, Close(W("p"))];
      var areas := [TemplateArea(1, Some(0), Some(3)), TemplateArea(2, Some(0), Some(3))];
      && TemplateAreasOf(tokens, "p", PrototypeKinds) == areas
      && ProtoDocumentOf(tokens, areas, evaluate) == Failure(Panic(SLICE_ORDER))
      && RenderTokensOf(tokens, areas, (), ProtoRenderer(evaluate)).Success?
  {
    var t := Token(Template, Some("{{a}}"), Characters("{{a}}"));
    var tokens := [Open(W("p"), []), t, t, Close(W("p"))];
    var a1, a2 := TemplateArea(1, Some(0), Some(3)), TemplateArea(2, Some(0), Some(3));
    assert IsWrapStart(tokens[0], "p") && !IsWrapStart(tokens[1], "p") && !IsWrapStart(tokens[2], "p");
    assert IsWrapEnd(tokens[3], "p") && !IsWrapEnd(tokens[1], "p") && !IsWrapEnd(tokens[2], "p");
    assert NearestStart(tokens, "p", 1) == Some(0) && NearestStart(tokens, "p", 2) == Some(0);
    assert NearestEnd(tokens, "p", 2) == Some(3) && NearestEnd(tokens, "p", 1) == Some(3);
    assert tokens[1].tokenType in PrototypeKinds && tokens[2].tokenType in PrototypeKinds;
    assert tokens[0].tokenType !in PrototypeKinds && tokens[3].tokenType !in PrototypeKinds;
    assert TemplateAreasFrom(tokens, "p", PrototypeKinds, 3, [a1, a2]) == [a1, a2];
    assert [a1] + [TemplateArea(2, NearestStart(tokens, "p", 2), NearestEnd(tokens, "p", 2))] == [a1, a2];
    assert TemplateAreasFrom(tokens, "p", PrototypeKinds, 2, [a1]) == TemplateAreasFrom(tokens, "p", PrototypeKinds, 3, [a1, a2]);
    assert TemplateAreasFrom(tokens, "p", PrototypeKinds, 2, [a1]) == [a1, a2];
    assert [] + [TemplateArea(1, NearestStart(tokens, "p", 1), NearestEnd(tokens, "p", 1))] == [a1];
    assert TemplateAreasFrom(tokens, "p", PrototypeKinds, 1, []) == TemplateAreasFrom(tokens, "p", PrototypeKinds, 2, [a1]);
    assert TemplateAreasFrom(tokens, "p", PrototypeKinds, 1, []) == [a1, a2];
    assert TemplateAreasFrom(tokens, "p", PrototypeKinds, 0, []) == [a1, a2];
    var first := ProtoStep(tokens, a1, ProtoPass([], 0), evaluate);
    assert first.Success? && first.value.bookmark == 4;
    assert ProtoStep(tokens, a2, first.value, evaluate) == Failure(Panic(SLICE_ORDER));
    var d1 := AreaStep(tokens, a1, Pass([], 0, {}, ()), ProtoRenderer(evaluate));
    assert d1.Success? && d1.value.bookmark == 4 && d1.value.seen == {0};
    assert AreaStep(tokens, a2, d1.value, ProtoRenderer(evaluate)) == Success(d1.value);
    assert PassFrom(tokens, [a1, a2], 2, d1.value, ProtoRenderer(evaluate)) == Success(d1.value);
    assert PassFrom(tokens, [a1, a2], 1, d1.value, ProtoRenderer(evaluate)) == Success(d1.value);
    assert PassFrom(tokens, [a1, a2], 0, Pass([], 0, {}, ()), ProtoRenderer(evaluate)) == Success(d1.value);
  }

  /**
   * A successful render yields the package with exactly one
   * `word/document.xml`, the written document, as its last entry, and every
   * other readable name keeps exactly its entries, in order.
   */
  lemma ProtoRenderPackage(t: ProtoTemplate, env: ProtoEnv, name: string)
    requires ProtoRenderOf(t, env).Success?
    ensures var r := ProtoRenderOf(t, env).value;
      && |r| >= 1 && r[|r| - 1].name == DOCUMENT_XML
      && EntriesNamed(r, name) == if name == DOCUMENT_XML then [r[|r| - 1]] else EntriesNamed(t.sourcePayload, name)
  {
    var tokens := ProtoTokens(env.simple, t.documentXml);
    var document := ProtoDocumentOf(tokens, TemplateAreasOf(tokens, "p", PrototypeKinds), env.evaluate).value;
    ReplacedPackage(t.sourcePayload, DOCUMENT_XML, env.serialize(document).value, name);
  }
}

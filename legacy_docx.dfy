/**
 * The older single-file generator of `textkit-docx`: a tokenizer with one
 * token per reader event, paragraphs whose `w:t` carries no attributes,
 * tables with `w:noVBand="1"`, a render whose only helper is `table` and
 * whose paste keeps the paragraph when the rendering is empty, and a
 * package rebuild that replaces the document only.
 *
 * The area pass, the placeholder loop and the table layout are those of
 * the current engine, instantiated with this generator's builders.
 */
module LegacyDocx {
  import opened Wrappers
  import opened Seqs
  import opened Errors
  import opened Xml
  import opened Patterns
  import opened Parse
  import opened Parts = Render
  import opened Engine
  import opened Accumulator
  import DatakitTable
  import Template

  // ---------------------------------------------------------------------
  // Tokenizer

  /** The loop of `xml_to_token_vec` from item `i` on: one token per event, a reader error aborts. */
  function LegacyTokensFrom(p: Patterns, items: seq<ReadEvent>, i: nat, acc: seq<Token>): Result<seq<Token>, Error>
    decreases |items| - i
  {
    if i >= |items| then Success(acc)
    else match items[i]
      case ReadError(m) => Failure(ReaderFailure(m))
      case Event(e) => LegacyTokensFrom(p, items, i + 1, acc + [TokenOf(p, e)])
  }

  function LegacyTokenize(p: Patterns, items: seq<ReadEvent>): Result<seq<Token>, Error>
  {
    LegacyTokensFrom(p, items, 0, [])
  }

  /** `xml_to_token_vec` of the older generator */
  method LegacyXmlToTokenVec(p: Patterns, items: seq<ReadEvent>) returns (r: Result<seq<Token>, Error>)
    ensures r == LegacyTokenize(p, items)
  {
    var result: seq<Token> := [];
    ghost var all := LegacyTokenize(p, items);
    for i := 0 to |items|
      invariant all == LegacyTokensFrom(p, items, i, result)
    {
      match items[i]
      case ReadError(m) =>
        return Failure(ReaderFailure(m));
      case Event(e) =>
        if e.Characters? {
          var contents := e.text;
          if p.simple(contents) {
            result := result + [Token(Template, Some(contents), e)];
          } else if p.helper(contents) {
            result := result + [Token(ComplexTemplate, Some(contents), e)];
          } else {
            result := result + [Token(Normal, Some(contents), e)];
          }
        } else {
          result := result + [Token(Normal, None, e)];
        }
    }
    return Success(result);
  }

  lemma {:induction false} LegacyTokensFromFacts(p: Patterns, items: seq<ReadEvent>, i: nat, acc: seq<Token>)
    requires i <= |items|
    ensures LegacyTokensFrom(p, items, i, acc).Success? <==> forall j :: i <= j < |items| ==> items[j].Event?
    ensures var r := LegacyTokensFrom(p, items, i, acc);
      r.Success? ==>
        && |r.value| == |acc| + |items| - i
        && r.value[..|acc|] == acc
        && forall j :: i <= j < |items| ==> r.value[|acc| + j - i] == TokenOf(p, items[j].event)
    decreases |items| - i
  {
    if i < |items| && items[i].Event? {
      var acc' := acc + [TokenOf(p, items[i].event)];
      LegacyTokensFromFacts(p, items, i + 1, acc');
      var r := LegacyTokensFrom(p, items, i, acc);
      assert r == LegacyTokensFrom(p, items, i + 1, acc');
      if r.Success? {
        assert r.value[..|acc|] == r.value[..|acc'|][..|acc|];
        assert r.value[|acc|] == r.value[..|acc'|][|acc|];
      }
    }
  }

  lemma {:induction false} LegacyTokensFromFailure(p: Patterns, items: seq<ReadEvent>, i: nat, acc: seq<Token>)
    requires i <= |items|
    ensures var r := LegacyTokensFrom(p, items, i, acc);
      r.Failure? ==> exists j :: i <= j < |items| && items[j].ReadError? && r.error == ReaderFailure(items[j].message)
                                && forall k :: i <= k < j ==> items[k].Event?
    decreases |items| - i
  {
    if i < |items| && items[i].Event? {
      LegacyTokensFromFailure(p, items, i + 1, acc + [TokenOf(p, items[i].event)]);
    }
  }

  /**
   * The tokenizer fails exactly when the reader reports an error, with the
   * first such error; otherwise it emits one token per event, in order,
   * holding that event, with text and classification for character data
   * and as a plain Normal token for everything else.
   */
  lemma LegacyTokenizeFacts(p: Patterns, items: seq<ReadEvent>)
    ensures LegacyTokenize(p, items).Success? <==> forall j :: 0 <= j < |items| ==> items[j].Event?
    ensures var r := LegacyTokenize(p, items);
      r.Failure? ==> exists j :: 0 <= j < |items| && items[j].ReadError? && r.error == ReaderFailure(items[j].message)
                                && forall k :: 0 <= k < j ==> items[k].Event?
    ensures var r := LegacyTokenize(p, items);
      r.Success? ==> |r.value| == |items| && forall j :: 0 <= j < |items| ==>
        && r.value[j].event == items[j].event
        && (items[j].event.Characters? ==>
              r.value[j].tokenText == Some(items[j].event.text) && r.value[j].tokenType == Classify(p, items[j].event.text))
        && (!items[j].event.Characters? ==> r.value[j].tokenText == None && r.value[j].tokenType == Normal)
  {
    LegacyTokensFromFacts(p, items, 0, []);
    LegacyTokensFromFailure(p, items, 0, []);
  }

  /**
   * On text that the accumulator of the current tokenizer sees complete in
   * one piece, the two generations of the tokenizer give the same tokens.
   */
  lemma LegacyAgreesWithModular(p: Patterns, items: seq<ReadEvent>)
    requires forall i :: 0 <= i < |items| ==> items[i].Event?
    requires forall i :: 0 <= i < |items| && items[i].event.Characters? ==> Transition(p, Idle, items[i].event.text).Done?
    ensures LegacyTokenize(p, items) == Tokenize(p, items)
  {
    TokenizeCompleteFragments(p, items);
    LegacyTokensFromFacts(p, items, 0, []);
    var a, b := LegacyTokenize(p, items).value, Scan(p, items).value.tokens;
    assert |a| == |b|;
    assert forall j :: 0 <= j < |items| ==> a[j] == b[j];
    assert a == b;
  }

  // ---------------------------------------------------------------------
  // Token builders

  /** `make_owned_attributes`: each pair becomes a `w`-prefixed WordprocessingML attribute. */
  method MakeOwnedAttributes(pairs: seq<(string, string)>) returns (r: seq<Attribute>)
    ensures |r| == |pairs|
    ensures forall i :: 0 <= i < |pairs| ==> r[i] == WAttr(pairs[i].0, pairs[i].1)
  {
    r := [];
    for i := 0 to |pairs|
      invariant |r| == i
      invariant forall k :: 0 <= k < i ==> r[k] == WAttr(pairs[k].0, pairs[k].1)
    {
      var (name, value) := pairs[i];
      r := r + [Attribute(W(name), value)];
    }
  }

  /**
   * `make_start_tag_event`: a `w:` start element that binds `w` to the
   * WordprocessingML namespace, with the pairs as `w:` attributes. As a
   * Normal token without text it is the current generator's `Open`.
   */
  method MakeStartTagEvent(tagName: string, attrs: Option<seq<(string, string)>>) returns (e: XmlEvent)
    ensures e.StartElement? && e.name == W(tagName) && e.namespaces == map["w" := NS_WP_ML]
    ensures |e.attributes| == (if attrs.Some? then |attrs.value| else 0)
    ensures attrs.Some? ==> forall i :: 0 <= i < |attrs.value| ==> e.attributes[i] == WAttr(attrs.value[i].0, attrs.value[i].1)
    ensures Token(Normal, None, e) == Open(W(tagName), e.attributes)
  {
    var attributes: seq<Attribute> := [];
    if attrs.Some? {
      attributes := MakeOwnedAttributes(attrs.value);
    }
    e := StartElement(W(tagName), attributes, map["w" := NS_WP_ML]);
  }

  /** One chunk of `make_paragraph_tokens`: `p`, `r`, `t` without attributes, the text, and the three ends. */
  function LegacyParagraphBlock(chunk: string): seq<Token>
  {
    Elem(W("p"), [], Elem(W("r"), [], Elem(W("t"), [], [TextToken(chunk)])))
  }

  /** What `make_paragraph_tokens` returns. */
  function MakeParagraphTokensOf(contents: string): seq<Token>
  {
    MapConcat(SplitStringByEmptyLine(contents), LegacyParagraphBlock)
  }

  /** The seven tokens `make_paragraph_tokens` pushes for one chunk. */
  method MakeParagraphBlock(text: string) returns (block: seq<Token>)
    ensures block == LegacyParagraphBlock(text)
  {
    var p := MakeStartTagEvent("p", None);
    var run := MakeStartTagEvent("r", None);
    var t := MakeStartTagEvent("t", None);
    block := [Token(Normal, None, p), Token(Normal, None, run), Token(Normal, None, t),
              Token(Normal, Some(text), Characters(text)),
              Token(Normal, None, EndElement(W("t"))), Token(Normal, None, EndElement(W("r"))),
              Token(Normal, None, EndElement(W("p")))];
  }

  /** `make_paragraph_tokens` */
  method MakeParagraphTokens(contents: string) returns (r: seq<Token>)
    ensures r == MakeParagraphTokensOf(contents)
  {
    var paragraphs := SplitStringByEmptyLine(contents);
    r := [];
    for i := 0 to |paragraphs|
      invariant r == MapConcat(paragraphs[..i], LegacyParagraphBlock)
    {
      assert paragraphs[..i + 1][..i] == paragraphs[..i];
      var block := MakeParagraphBlock(paragraphs[i]);
      r := r + block;
    }
    assert paragraphs[..|paragraphs|] == paragraphs;
  }

  /**
   * A legacy paragraph block is the current one except at the `w:t` start,
   * which has no `xml:space="preserve"`: all seven tokens are Normal, and
   * the only one with text is the chunk at position 3.
   */
  lemma LegacyBlockAgainstCurrent(chunk: string)
    ensures |LegacyParagraphBlock(chunk)| == 7 && |ParagraphBlock(chunk)| == 7
    ensures forall k :: 0 <= k < 7 && k != 2 ==> LegacyParagraphBlock(chunk)[k] == ParagraphBlock(chunk)[k]
    ensures LegacyParagraphBlock(chunk)[2] == Open(W("t"), []) && ParagraphBlock(chunk)[2] == Open(W("t"), [XmlSpacePreserve])
    ensures forall k :: 0 <= k < 7 ==> LegacyParagraphBlock(chunk)[k].tokenType == Normal
    ensures forall k :: 0 <= k < 7 ==> (LegacyParagraphBlock(chunk)[k].tokenText.Some? <==> k == 3)
    ensures LegacyParagraphBlock(chunk)[3] == TextToken(chunk)
  {
    ParagraphBlockShape(chunk);
  }

  lemma LegacyBlockFacts(chunk: string)
    ensures Balanced(LegacyParagraphBlock(chunk))
    ensures StartsWithin(LegacyParagraphBlock(chunk), ParagraphNames())
    ensures CountStarts(LegacyParagraphBlock(chunk), W("p")) == 1
  {
    var text := [TextToken(chunk)];
    var t := Elem(W("t"), [], text);
    var r := Elem(W("r"), [], t);
    BalancedText(TextToken(chunk));
    BalancedElem(W("t"), [], text);
    BalancedElem(W("r"), [], t);
    BalancedElem(W("p"), [], r);
    assert StartsWithin(text, ParagraphNames());
    StartsWithinElem(W("t"), [], text, ParagraphNames());
    StartsWithinElem(W("r"), [], t, ParagraphNames());
    StartsWithinElem(W("p"), [], r, ParagraphNames());
    CountStartsElem(W("p"), [], r, W("p"));
    CountStartsElem(W("r"), [], t, W("p"));
    CountStartsElem(W("t"), [], text, W("p"));
    assert text[1..] == [];
  }

  /** Seven tokens per chunk, the `k`-th block being that chunk's paragraph; balanced; one `w:p` per chunk. */
  lemma MakeParagraphTokensShape(contents: string)
    ensures var chunks := SplitStringByEmptyLine(contents);
      var r := MakeParagraphTokensOf(contents);
      && |r| == 7 * |chunks|
      && (forall k :: 0 <= k < |chunks| ==> 7 * k + 7 <= |r| && r[7 * k..7 * k + 7] == LegacyParagraphBlock(chunks[k]))
      && Balanced(r)
      && StartsWithin(r, ParagraphNames())
      && CountStarts(r, W("p")) == |chunks|
  {
    var chunks := SplitStringByEmptyLine(contents);
    forall c ensures |LegacyParagraphBlock(c)| == 7 && Balanced(LegacyParagraphBlock(c))
      && StartsWithin(LegacyParagraphBlock(c), ParagraphNames()) && CountStarts(LegacyParagraphBlock(c), W("p")) == 1
    {
      LegacyBlockAgainstCurrent(c);
      LegacyBlockFacts(c);
    }
    MapConcatLength(chunks, LegacyParagraphBlock, 7);
    forall k | 0 <= k < |chunks|
      ensures 7 * k + 7 <= |MakeParagraphTokensOf(contents)| && MakeParagraphTokensOf(contents)[7 * k..7 * k + 7] == LegacyParagraphBlock(chunks[k])
    {
      MapConcatBlock(chunks, LegacyParagraphBlock, 7, k);
      assert k * 7 == 7 * k;
    }
    BalancedMapConcat(chunks, LegacyParagraphBlock);
    StartsWithinMapConcat(chunks, LegacyParagraphBlock, ParagraphNames());
    CountStartsMapConcat(chunks, LegacyParagraphBlock, W("p"), 1);
  }

  lemma MakeParagraphTokensGood()
    ensures DatakitTable.GoodParagraphs(MakeParagraphTokensOf)
  {
    forall s ensures Balanced(MakeParagraphTokensOf(s)) && StartsWithin(MakeParagraphTokensOf(s), ParagraphNames()) {
      MakeParagraphTokensShape(s);
    }
  }

  // ---------------------------------------------------------------------
  // Placeholder substitution

  /**
   * What the older `render_and_paste_tokens` returns: one copy of the
   * template per chunk of a non-empty rendering, and otherwise (an error
   * or the empty string) the template unchanged.
   */
  function LegacyPasteOf(tt: seq<Token>, text: string, index: nat, evaluate: string -> Option<string>): Result<seq<Token>, Error>
  {
    match evaluate(text)
    case None => Success(tt)
    case Some(rendered) =>
      if rendered == [] then Success(tt)
      else if index >= |tt| then Failure(Panic(INDEX_OOB))
      else Success(MapConcat(SplitStringByEmptyLine(rendered), PasteChunk(tt, index)))
  }

  /** `render_and_paste_tokens` of the older generator */
  method LegacyRenderAndPasteTokens(tt: seq<Token>, text: string, index: nat, evaluate: string -> Option<string>)
    returns (r: Result<seq<Token>, Error>)
    ensures r == LegacyPasteOf(tt, text, index, evaluate)
  {
    var rendered := evaluate(text);
    if rendered.None? || rendered.value == [] {
      return Success(tt);
    }
    var result: seq<Token> := [];
    var chunks := SplitStringByEmptyLine(rendered.value);
    for i := 0 to |chunks|
      invariant index < |tt| ==> result == MapConcat(chunks[..i], PasteChunk(tt, index))
    {
      assert chunks[..i + 1][..i] == chunks[..i];
      if index >= |tt| {
        return Failure(Panic(INDEX_OOB));
      }
      var chunkTokens := tt;
      chunkTokens := chunkTokens[index := TextToken(chunks[i])];
      result := result + chunkTokens;
    }
    assert chunks[..|chunks|] == chunks;
    if index >= |tt| {
      return Failure(Panic(INDEX_OOB));
    }
    return Success(result);
  }

  /**
   * The two generations of the paste agree except on an empty rendering,
   * where the current one removes the paragraph and the older one keeps it.
   */
  lemma LegacyPasteAgainstCurrent(tt: seq<Token>, text: string, index: nat, evaluate: string -> Option<string>)
    ensures evaluate(text) != Some([]) ==> LegacyPasteOf(tt, text, index, evaluate) == PasteOf(tt, text, index, evaluate)
    ensures evaluate(text) == Some([]) ==> LegacyPasteOf(tt, text, index, evaluate) == Success(tt) && PasteOf(tt, text, index, evaluate) == Success([])
  {
  }

  // ---------------------------------------------------------------------
  // Tables

  method LegacyBuildCell(value: DatakitTable.Value, width: string) returns (cell: seq<Token>)
    ensures cell == DatakitTable.CellTokens(value, width, MakeParagraphTokensOf)
  {
    cell := [Open(W("tc"), [])] + DatakitTable.CellProperties(width);
    match DatakitTable.CellText(value) {
      case Some(text) =>
        var paragraphs := MakeParagraphTokens(text);
        cell := cell + paragraphs;
      case None =>
    }
    cell := cell + [Close(W("tc"))];
  }

  /** The cell loop of one row of the older generator, appending to `acc`. */
  method LegacyBuildCells(columns: seq<seq<DatakitTable.Value>>, row: nat, width: string, acc: seq<Token>) returns (r: Result<seq<Token>, Error>)
    ensures r == DatakitTable.CellsFrom(columns, row, 0, width, MakeParagraphTokensOf, acc)
  {
    var result := acc;
    for col := 0 to |columns|
      invariant DatakitTable.CellsFrom(columns, row, 0, width, MakeParagraphTokensOf, acc)
        == DatakitTable.CellsFrom(columns, row, col, width, MakeParagraphTokensOf, result)
    {
      if row >= |columns[col]| {
        return Failure(Panic(INDEX_OOB));
      }
      var cell := LegacyBuildCell(columns[col][row], width);
      result := result + cell;
    }
    return Success(result);
  }

  /** `datakit_table_to_tokens` of the older generator: the shared layout with `noVBand="1"` and legacy paragraphs. */
  method LegacyDatakitTableToTokens(table: DatakitTable.Table, dims: PageDimensions) returns (r: Result<seq<Token>, Error>)
    ensures r == DatakitTable.TableTokensOf(table, dims, "1", MakeParagraphTokensOf)
  {
    var width := Text.IntToString(DatakitTable.ColumnWidth(dims));
    var result := DatakitTable.BuildTableHead("1", width, |table.columns|);
    ghost var rows := DatakitTable.RowsFrom(table, 0, width, MakeParagraphTokensOf, result);
    for row := 0 to table.rowCount
      invariant rows == DatakitTable.RowsFrom(table, row, width, MakeParagraphTokensOf, result)
    {
      var cells := LegacyBuildCells(table.columns, row, width, result + [Open(W("tr"), [])]);
      if cells.Failure? {
        return Failure(cells.error);
      }
      result := cells.value + [Close(W("tr"))];
    }
    return Success(result + [Close(W("tbl"))]);
  }

  /** The older generator's table has the same shape, widths and cell-by-cell layout as the current one's. */
  lemma LegacyTableShape(table: DatakitTable.Table, dims: PageDimensions)
    ensures DatakitTable.TableTokensOf(table, dims, "1", MakeParagraphTokensOf).Success? <==>
      forall j :: 0 <= j < |table.columns| ==> table.rowCount <= |table.columns[j]|
    ensures DatakitTable.TableTokensOf(table, dims, "1", MakeParagraphTokensOf).Success? ==>
      var r := DatakitTable.TableTokensOf(table, dims, "1", MakeParagraphTokensOf).value;
      && IsStartOf(r[0], W("tbl")) && IsEndOf(r[|r| - 1], W("tbl"))
      && DatakitTable.BlockFacts(r, Text.IntToString(DatakitTable.ColumnWidth(dims)),
           |table.columns|, table.rowCount, table.rowCount * |table.columns|)
    ensures DatakitTable.TableTokensOf(table, dims, "1", MakeParagraphTokensOf).Success? ==>
      DatakitTable.TableTokensOf(table, dims, "1", MakeParagraphTokensOf).value
        == DatakitTable.TableLayout(table, Text.IntToString(DatakitTable.ColumnWidth(dims)), "1", MakeParagraphTokensOf)
  {
    MakeParagraphTokensGood();
    DatakitTable.TableShape(table, dims, "1", MakeParagraphTokensOf);
    DatakitTable.TableTokensLayout(table, dims, "1", MakeParagraphTokensOf);
  }

  // ---------------------------------------------------------------------
  // The render

  /** The parsed template of the older generator: the package, the document's tokens, the page geometry, the areas. */
  datatype LegacyTemplate = LegacyTemplate(
    sourcePayload: seq<Entry>,
    tokens: seq<Token>,
    dimensions: PageDimensions,
    templateAreas: seq<TemplateArea>)

  /** The placeholder patterns, Handlebars evaluation, the data as a JSON object, and the XML writer. */
  datatype LegacyEnv = LegacyEnv(
    patterns: Patterns,
    evaluate: string -> Option<string>,
    data: map<string, Template.DataItem>,
    serialize: seq<Token> -> Option<Bytes>)

  /** The only helper, `{{table key}}`; any other helper name produces nothing. */
  function LegacyHelperTokens(env: LegacyEnv, dims: PageDimensions, name: string, key: string, st: ()): Result<(seq<Token>, ()), Error>
  {
    if name != "table" || key !in env.data then Success(([], st))
    else match env.data[key]
      case TableData(table) =>
        var ts :- DatakitTable.TableTokensOf(table, dims, "1", MakeParagraphTokensOf);
        Success((ts, st))
      case _ => Failure(InvalidInputData(Template.DATA_MISMATCH))
  }

  function LegacyHelperWith(env: LegacyEnv, dims: PageDimensions): Helper<()>
  {
    (name: string, key: string, st: ()) => LegacyHelperTokens(env, dims, name, key, st)
  }

  function LegacyPasteWith(tt: seq<Token>, sub: nat, evaluate: string -> Option<string>): Paste
  {
    (piece: string) => LegacyPasteOf(tt, piece, sub, evaluate)
  }

  function LegacyComplexArea(env: LegacyEnv, dims: PageDimensions, tt: seq<Token>, sub: nat, text: string, st: ()): Result<(seq<Token>, ()), Error>
  {
    var placeholders :- PlaceholdersOf(env.patterns.all(text));
    ComplexTokensOf(text, placeholders, st, LegacyPasteWith(tt, sub, env.evaluate), LegacyHelperWith(env, dims))
  }

  /** What an area renders to: a Template token is pasted, a ComplexTemplate token goes through its placeholders. */
  function LegacyAreaTokens(env: LegacyEnv, dims: PageDimensions, tt: seq<Token>, sub: nat, st: ()): Result<(seq<Token>, ()), Error>
  {
    if sub >= |tt| then Failure(Panic(INDEX_OOB))
    else match tt[sub].tokenText
      case None => Success(([], st))
      case Some(text) =>
        match tt[sub].tokenType
        case Template =>
          var out :- LegacyPasteOf(tt, text, sub, env.evaluate);
          Success((out, st))
        case ComplexTemplate => LegacyComplexArea(env, dims, tt, sub, text, st)
        case Normal => Success(([], st))
  }

  function LegacyRenderer(env: LegacyEnv, dims: PageDimensions): AreaRenderer<()>
  {
    (tt: seq<Token>, sub: nat, st: ()) => LegacyAreaTokens(env, dims, tt, sub, st)
  }

  /** The rendered document: the shared area pass with this generator's area renderer. */
  function LegacyDocumentOf(t: LegacyTemplate, env: LegacyEnv): Result<seq<Token>, Error>
  {
    var out :- RenderTokensOf(t.tokens, t.templateAreas, (), LegacyRenderer(env, t.dimensions));
    Success(out.0)
  }

  /** `DocxTemplate::render` of the older generator: the document written and put back into the package. */
  function LegacyRenderOf(t: LegacyTemplate, env: LegacyEnv): Result<seq<Entry>, Error>
  {
    var document :- LegacyDocumentOf(t, env);
    match env.serialize(document)
    case None => Failure(SerializationFailure)
    case Some(documentXml) => Success(KeptEntries(t.sourcePayload, DOCUMENT_XML) + [Entry(DOCUMENT_XML, true, documentXml)])
  }

  method LegacyRenderHelper(env: LegacyEnv, dims: PageDimensions, name: string, key: string, st: ())
    returns (r: Result<(seq<Token>, ()), Error>)
    ensures r == LegacyHelperTokens(env, dims, name, key, st)
  {
    if name != "table" || key !in env.data {
      return Success(([], st));
    }
    var item := env.data[key];
    if !item.TableData? {
      return Failure(InvalidInputData(Template.DATA_MISMATCH));
    }
    var ts := LegacyDatakitTableToTokens(item.table, dims);
    if ts.Failure? {
      return Failure(ts.error);
    }
    return Success((ts.value, st));
  }

  /** The ComplexTemplate arm of the older render. */
  method LegacyRenderComplex(env: LegacyEnv, dims: PageDimensions, tt: seq<Token>, sub: nat, text: string, st: ())
    returns (r: Result<(seq<Token>, ()), Error>)
    ensures r == LegacyComplexArea(env, dims, tt, sub, text, st)
  {
    var parsed := ParseTemplatePlaceholders(env.patterns.all(text));
    if parsed.Failure? {
      return Failure(parsed.error);
    }
    var placeholders := parsed.value;
    ghost var paste, helper := LegacyPasteWith(tt, sub, env.evaluate), LegacyHelperWith(env, dims);
    ghost var all := ComplexFrom(text, placeholders, 0, Complex([], 0, st), paste, helper);
    var result: seq<Token> := [];
    var index: nat := 0;
    for k := 0 to |placeholders|
      invariant all == ComplexFrom(text, placeholders, k, Complex(result, index, st), paste, helper)
    {
      var placeholder := placeholders[k];
      if placeholder.helperName.Some? {
        var prequel: seq<Token> := [];
        if index != placeholder.startPosition {
          var piece := TextSlice(text, index, placeholder.startPosition);
          if piece.Failure? {
            return Failure(piece.error);
          }
          var pasted := LegacyRenderAndPasteTokens(tt, piece.value, sub, env.evaluate);
          if pasted.Failure? {
            return Failure(pasted.error);
          }
          prequel := pasted.value;
        }
        index := placeholder.endPosition;
        var h := LegacyRenderHelper(env, dims, placeholder.helperName.value, placeholder.expression, st);
        if h.Failure? {
          return Failure(h.error);
        }
        result := result + prequel + h.value.0;
      }
    }
    assert all == Success(Complex(result, index, st));
    if index != |text| {
      var piece := TextFrom(text, index);
      if piece.Failure? {
        return Failure(piece.error);
      }
      var pasted := LegacyRenderAndPasteTokens(tt, piece.value, sub, env.evaluate);
      if pasted.Failure? {
        return Failure(pasted.error);
      }
      assert SequelOf(text, index, paste) == pasted;
      result := result + pasted.value;
    } else {
      assert result + [] == result;
    }
    return Success((result, st));
  }

  method LegacyRenderArea(env: LegacyEnv, dims: PageDimensions, tt: seq<Token>, sub: nat, st: ())
    returns (r: Result<(seq<Token>, ()), Error>)
    ensures r == LegacyAreaTokens(env, dims, tt, sub, st)
  {
    if sub >= |tt| {
      return Failure(Panic(INDEX_OOB));
    }
    var token := tt[sub];
    if token.tokenText.None? {
      return Success(([], st));
    }
    var text := token.tokenText.value;
    match token.tokenType {
      case Template =>
        var pasted := LegacyRenderAndPasteTokens(tt, text, sub, env.evaluate);
        if pasted.Failure? {
          return Failure(pasted.error);
        }
        return Success((pasted.value, st));
      case ComplexTemplate =>
        r := LegacyRenderComplex(env, dims, tt, sub, text, st);
      case Normal =>
        return Success(([], st));
    }
  }

  /** `DocxTemplate::render` of the older generator */
  method LegacyRender(t: LegacyTemplate, env: LegacyEnv) returns (r: Result<seq<Entry>, Error>)
    ensures r == LegacyRenderOf(t, env)
  {
    var tokens, areas := t.tokens, t.templateAreas;
    var result: seq<Token> := [];
    var bookmark: nat := 0;
    var seen: set<nat> := {};
    ghost var render := LegacyRenderer(env, t.dimensions);
    ghost var all := PassFrom(tokens, areas, 0, Pass([], 0, {}, ()), render);
    for i := 0 to |areas|
      invariant all == PassFrom(tokens, areas, i, Pass(result, bookmark, seen, ()), render)
    {
      var area := areas[i];
      if area.start.Some? && area.end.Some? && area.start.value !in seen {
        var start, end := area.start.value, area.end.value;
        seen := seen + {start};
        var templateTokens := Slice(tokens, start, end + 1);
        if templateTokens.Failure? {
          return Failure(templateTokens.error);
        }
        var prequel := Slice(tokens, bookmark, start);
        if prequel.Failure? {
          return Failure(prequel.error);
        }
        bookmark := end + 1;
        result := result + prequel.value;
        if area.tokenIndex < start || area.tokenIndex - start >= |templateTokens.value| {
          return Failure(Panic(INDEX_OOB));
        }
        var out := LegacyRenderArea(env, t.dimensions, templateTokens.value, area.tokenIndex - start, ());
        if out.Failure? {
          return Failure(out.error);
        }
        assert out.value.1 == ();
        result := result + out.value.0;
      }
    }
    var sequel := SliceFrom(tokens, bookmark);
    if sequel.Failure? {
      return Failure(sequel.error);
    }
    result := result + sequel.value;
    var documentXml := env.serialize(result);
    if documentXml.None? {
      return Failure(SerializationFailure);
    }
    var rebuilt := NewZipBytesWithDocumentXml(t.sourcePayload, documentXml.value);
    return Success(rebuilt);
  }

  // ---------------------------------------------------------------------
  // Properties of the render

  /**
   * A Template paragraph whose placeholder renders to the empty string is
   * kept as it is by the older render; any other rendering is pasted as by
   * the current one.
   */
  lemma LegacyKeepsEmptyParagraph(env: LegacyEnv, dims: PageDimensions, tt: seq<Token>, sub: nat)
    requires sub < |tt| && tt[sub].tokenType == Template && tt[sub].tokenText.Some?
    ensures env.evaluate(tt[sub].tokenText.value) == Some([]) ==> LegacyAreaTokens(env, dims, tt, sub, ()) == Success((tt, ()))
    ensures env.evaluate(tt[sub].tokenText.value) != Some([]) ==>
      LegacyAreaTokens(env, dims, tt, sub, ()) ==
        (var out :- PasteOf(tt, tt[sub].tokenText.value, sub, env.evaluate); Success((out, ())))
  {
    LegacyPasteAgainstCurrent(tt, tt[sub].tokenText.value, sub, env.evaluate);
  }

  /**
   * A successful render yields the package with exactly one
   * `word/document.xml`, the written document, as its last entry, and every
   * other readable name keeps exactly its entries, in order.
   */
  lemma LegacyRenderPackage(t: LegacyTemplate, env: LegacyEnv, name: string)
    requires LegacyRenderOf(t, env).Success?
    ensures var r := LegacyRenderOf(t, env).value;
      var documentXml := env.serialize(LegacyDocumentOf(t, env).value).value;
      && |r| >= 1 && r[|r| - 1] == Entry(DOCUMENT_XML, true, documentXml)
      && EntriesNamed(r, name) == if name == DOCUMENT_XML then [r[|r| - 1]] else EntriesNamed(t.sourcePayload, name)
  {
    var documentXml := env.serialize(LegacyDocumentOf(t, env).value).value;
    ReplacedPackage(t.sourcePayload, DOCUMENT_XML, documentXml, name);
  }
}

/**
 * `DocxTemplate::render` of the current engine: the area pass with the
 * three helpers `table`, `jupyter` and `markdown`, the relationship-id
 * counter and image map threaded through it, and the rebuild of the
 * package: relationships part, images, content types, then the document.
 * Handlebars evaluation, the template data (as already deserialised
 * values), the placeholder pattern and the XML writer are parameters.
 */
module Template {
  import opened Wrappers
  import opened Errors
  import opened Xml
  import opened Patterns
  import opened Parse
  import opened Parts = Render
  import opened Engine
  import SortedMap
  import DatakitTable
  import Markdown
  import JupyterNb

  /**
   * A value of the template data, as `serde_json::from_value` can read it:
   * a table, a notebook, a string, or anything else.
   */
  datatype DataItem =
    | TableData(table: DatakitTable.Table)
    | NotebookData(notebook: JupyterNb.Notebook)
    | TextData(text: string)
    | OtherData

  /** The parsed template: the package and its three parts as tokens, the page geometry, and the areas. */
  datatype DocxTemplate = DocxTemplate(
    sourcePayload: seq<Entry>,
    tokens: seq<Token>,
    documentRelsTokens: seq<Token>,
    contentTypesTokens: seq<Token>,
    dimensions: PageDimensions,
    templateAreas: seq<TemplateArea>)

  /**
   * What the render calls out to: the placeholder pattern, Handlebars
   * evaluation over the data, the data as a JSON object, the notebook
   * services, and the XML writer (`None` when writing fails).
   */
  datatype Env = Env(
    patterns: Patterns,
    evaluate: string -> Option<string>,
    data: map<string, DataItem>,
    services: JupyterNb.Services,
    serialize: seq<Token> -> Option<Bytes>)

  /** The state the helpers share: the latest relationship id and the images to add. */
  datatype EngineState = EngineState(relsId: nat, images: SortedMap.Pairs<ImageFileContents>)

  const DATA_MISMATCH: string := "invalid type"
  const RELS_PATH: string := "word/_rels/document.xml.rels"
  const CONTENT_TYPES_PATH: string := "[Content_Types].xml"
  const MEDIA_DIR: string := "word/media/"

  // ---------------------------------------------------------------------
  // Helpers

  /** `{{table key}}`: the table under the key, or nothing when the key is absent. */
  function TableHelper(env: Env, dims: PageDimensions, key: string, st: EngineState): Result<(seq<Token>, EngineState), Error>
  {
    if key !in env.data then Success(([], st))
    else match env.data[key]
      case TableData(table) =>
        var ts :- DatakitTable.TableTokensOf(table, dims, "0", ParagraphTokensOf);
        Success((ts, st))
      case _ => Failure(InvalidInputData(DATA_MISMATCH))
  }

  /** `{{jupyter key}}`: the notebook under the key, advancing the counter and adding its images. */
  function NotebookHelper(env: Env, key: string, st: EngineState): Result<(seq<Token>, EngineState), Error>
  {
    if key !in env.data then Success(([], st))
    else match env.data[key]
      case NotebookData(nb) =>
        var out :- JupyterNb.JupyterNbOf(nb, env.services, st.relsId, st.images);
        Success((out.tokens, EngineState(out.relsId, out.images)))
      case _ => Failure(InvalidInputData(DATA_MISMATCH))
  }

  /** `{{markdown key}}`: the Markdown source under the key. */
  function MarkdownHelper(env: Env, key: string, st: EngineState): Result<(seq<Token>, EngineState), Error>
  {
    if key !in env.data then Success(([], st))
    else match env.data[key]
      case TextData(source) => Success((Markdown.MarkdownTokensOf(env.services.parseMarkdown(source)), st))
      case _ => Failure(InvalidInputData(DATA_MISMATCH))
  }

  /** The helper dispatch; any other helper name produces nothing. */
  function HelperTokens(env: Env, dims: PageDimensions, name: string, key: string, st: EngineState): Result<(seq<Token>, EngineState), Error>
  {
    if name == "table" then TableHelper(env, dims, key, st)
    else if name == "jupyter" then NotebookHelper(env, key, st)
    else if name == "markdown" then MarkdownHelper(env, key, st)
    else Success(([], st))
  }

  function HelperWith(env: Env, dims: PageDimensions): Helper<EngineState>
  {
    (name: string, key: string, st: EngineState) => HelperTokens(env, dims, name, key, st)
  }

  function PasteWith(tt: seq<Token>, sub: nat, evaluate: string -> Option<string>): Paste
  {
    (piece: string) => PasteOf(tt, piece, sub, evaluate)
  }

  /** A ComplexTemplate token: its placeholders, then the complex-template loop. */
  function ComplexArea(env: Env, dims: PageDimensions, tt: seq<Token>, sub: nat, text: string, st: EngineState): Result<(seq<Token>, EngineState), Error>
  {
    var placeholders :- PlaceholdersOf(env.patterns.all(text));
    ComplexTokensOf(text, placeholders, st, PasteWith(tt, sub, env.evaluate), HelperWith(env, dims))
  }

  /**
   * What an area renders to: a Template token is pasted, a ComplexTemplate
   * token goes through its placeholders, and a token without text or of
   * type Normal produces nothing.
   */
  function AreaTokens(env: Env, dims: PageDimensions, tt: seq<Token>, sub: nat, st: EngineState): Result<(seq<Token>, EngineState), Error>
  {
    if sub >= |tt| then Failure(Panic(INDEX_OOB))
    else match tt[sub].tokenText
      case None => Success(([], st))
      case Some(text) =>
        match tt[sub].tokenType
        case Template =>
          var out :- PasteOf(tt, text, sub, env.evaluate);
          Success((out, st))
        case ComplexTemplate => ComplexArea(env, dims, tt, sub, text, st)
        case Normal => Success(([], st))
  }

  function Renderer(env: Env, dims: PageDimensions): AreaRenderer<EngineState>
  {
    (tt: seq<Token>, sub: nat, st: EngineState) => AreaTokens(env, dims, tt, sub, st)
  }

  // ---------------------------------------------------------------------
  // The render

  /** The document's tokens and the final state, the counter starting at the largest existing id. */
  function DocumentOf(t: DocxTemplate, env: Env): Result<(seq<Token>, EngineState), Error>
  {
    var latest :- LastIdNumber(t.documentRelsTokens);
    RenderTokensOf(t.tokens, t.templateAreas, EngineState(latest, []), Renderer(env, t.dimensions))
  }

  function Serialized(env: Env, ts: seq<Token>): Result<Bytes, Error>
  {
    match env.serialize(ts)
    case None => Failure(SerializationFailure)
    case Some(bytes) => Success(bytes)
  }

  /** The package with one entry replaced. */
  function Replaced(archive: seq<Entry>, path: string, payload: Bytes): seq<Entry>
  {
    KeptEntries(archive, path) + [Entry(path, true, payload)]
  }

  /** The package with each image written under `word/media/`, in key order. */
  function WithImages(archive: seq<Entry>, images: SortedMap.Pairs<ImageFileContents>): seq<Entry>
    decreases |images|
  {
    if images == [] then archive
    else
      var image := images[|images| - 1].1;
      Replaced(WithImages(archive, images[..|images| - 1]), MEDIA_DIR + image.fileContents.filename, image.fileContents.payload)
  }

  /** The rebuilt package: relationships, images, content types, then the document last. */
  function PackageOf(t: DocxTemplate, env: Env, documentXml: Bytes, images: SortedMap.Pairs<ImageFileContents>): Result<seq<Entry>, Error>
  {
    var rels :- RelsWithImages(t.documentRelsTokens, images);
    var relsXml :- Serialized(env, rels);
    var withImages := WithImages(Replaced(t.sourcePayload, RELS_PATH, relsXml), images);
    var contentTypes :- InsertPngContentType(t.contentTypesTokens);
    var contentTypesXml :- Serialized(env, contentTypes);
    Success(Replaced(Replaced(withImages, CONTENT_TYPES_PATH, contentTypesXml), DOCUMENT_XML, documentXml))
  }

  /** `DocxTemplate::render` */
  function RenderOf(t: DocxTemplate, env: Env): Result<seq<Entry>, Error>
  {
    var document :- DocumentOf(t, env);
    var documentXml :- Serialized(env, document.0);
    PackageOf(t, env, documentXml, document.1.images)
  }

  method RenderHelper(env: Env, dims: PageDimensions, name: string, key: string, st: EngineState)
    returns (r: Result<(seq<Token>, EngineState), Error>)
    ensures r == HelperTokens(env, dims, name, key, st)
  {
    if (name != "table" && name != "jupyter" && name != "markdown") || key !in env.data {
      return Success(([], st));
    }
    var item := env.data[key];
    if name == "table" {
      if !item.TableData? {
        return Failure(InvalidInputData(DATA_MISMATCH));
      }
      var ts := DatakitTable.DatakitTableToTokens(item.table, dims);
      if ts.Failure? {
        return Failure(ts.error);
      }
      return Success((ts.value, st));
    } else if name == "jupyter" {
      if !item.NotebookData? {
        return Failure(InvalidInputData(DATA_MISMATCH));
      }
      var out := JupyterNb.JupyterNbToTokens(item.notebook, env.services, st.relsId, st.images);
      if out.Failure? {
        return Failure(out.error);
      }
      return Success((out.value.tokens, EngineState(out.value.relsId, out.value.images)));
    } else {
      if !item.TextData? {
        return Failure(InvalidInputData(DATA_MISMATCH));
      }
      var ts := Markdown.MarkdownToTokens(env.services.parseMarkdown(item.text));
      return Success((ts, st));
    }
  }

  /** The ComplexTemplate arm: paste the text around each placeholder and run its helper. */
  method RenderComplex(env: Env, dims: PageDimensions, tt: seq<Token>, sub: nat, text: string, st: EngineState)
    returns (r: Result<(seq<Token>, EngineState), Error>)
    ensures r == ComplexArea(env, dims, tt, sub, text, st)
  {
    var parsed := ParseTemplatePlaceholders(env.patterns.all(text));
    if parsed.Failure? {
      return Failure(parsed.error);
    }
    var placeholders := parsed.value;
    ghost var paste, helper := PasteWith(tt, sub, env.evaluate), HelperWith(env, dims);
    ghost var all := ComplexFrom(text, placeholders, 0, Complex([], 0, st), paste, helper);
    var result: seq<Token> := [];
    var index: nat := 0;
    var state := st;
    for k := 0 to |placeholders|
      invariant all == ComplexFrom(text, placeholders, k, Complex(result, index, state), paste, helper)
    {
      var placeholder := placeholders[k];
      if placeholder.helperName.Some? {
        var prequel: seq<Token> := [];
        if index != placeholder.startPosition {
          var piece := TextSlice(text, index, placeholder.startPosition);
          if piece.Failure? {
            return Failure(piece.error);
          }
          var pasted := RenderAndPasteTokens(tt, piece.value, sub, env.evaluate);
          if pasted.Failure? {
            return Failure(pasted.error);
          }
          prequel := pasted.value;
        }
        index := placeholder.endPosition;
        var h := RenderHelper(env, dims, placeholder.helperName.value, placeholder.expression, state);
        if h.Failure? {
          return Failure(h.error);
        }
        result := result + prequel + h.value.0;
        state := h.value.1;
      }
    }
    assert all == Success(Complex(result, index, state));
    if index != |text| {
      var piece := TextFrom(text, index);
      if piece.Failure? {
        return Failure(piece.error);
      }
      var pasted := RenderAndPasteTokens(tt, piece.value, sub, env.evaluate);
      if pasted.Failure? {
        return Failure(pasted.error);
      }
      assert SequelOf(text, index, paste) == pasted;
      result := result + pasted.value;
    } else {
      assert result + [] == result;
    }
    return Success((result, state));
  }

  /** The body of the area loop once the area's tokens are cut out. */
  method RenderArea(env: Env, dims: PageDimensions, tt: seq<Token>, sub: nat, st: EngineState)
    returns (r: Result<(seq<Token>, EngineState), Error>)
    ensures r == AreaTokens(env, dims, tt, sub, st)
  {
    if sub >= |tt| {
      return Failure(Panic(INDEX_OOB));
    }
    var token := tt[sub];
    if token.tokenText.None? {
      return Success(([], st));
    }
    var text := token.tokenText.value;
    match token.tokenType {
      case Template =>
        var pasted := RenderAndPasteTokens(tt, text, sub, env.evaluate);
        if pasted.Failure? {
          return Failure(pasted.error);
        }
        return Success((pasted.value, st));
      case ComplexTemplate =>
        r := RenderComplex(env, dims, tt, sub, text, st);
      case Normal =>
        return Success(([], st));
    }
  }

  /** The rebuild: relationships part, each image, content types, then the document. */
  method RebuildPackage(t: DocxTemplate, env: Env, documentXml: Bytes, images: SortedMap.Pairs<ImageFileContents>)
    returns (r: Result<seq<Entry>, Error>)
    ensures r == PackageOf(t, env, documentXml, images)
  {
    var rels := InsertImagesInDocumentXmlRels(t.documentRelsTokens, images);
    if rels.Failure? {
      return Failure(rels.error);
    }
    var relsXml := env.serialize(rels.value);
    if relsXml.None? {
      return Failure(SerializationFailure);
    }
    var payload := ReplaceFileInZip(t.sourcePayload, RELS_PATH, relsXml.value);
    ghost var withRels := payload;
    for i := 0 to |images|
      invariant payload == WithImages(withRels, images[..i])
    {
      assert images[..i + 1][..i] == images[..i];
      var image := images[i].1;
      payload := ReplaceFileInZip(payload, MEDIA_DIR + image.fileContents.filename, image.fileContents.payload);
    }
    assert images[..|images|] == images;
    var contentTypes := InsertPngContentType(t.contentTypesTokens);
    if contentTypes.Failure? {
      return Failure(contentTypes.error);
    }
    var contentTypesXml := env.serialize(contentTypes.value);
    if contentTypesXml.None? {
      return Failure(SerializationFailure);
    }
    payload := ReplaceFileInZip(payload, CONTENT_TYPES_PATH, contentTypesXml.value);
    var rebuilt := NewZipBytesWithDocumentXml(payload, documentXml);
    return Success(rebuilt);
  }

  /** One iteration of the area loop of `DocxTemplate::render`, on its locals. */
  method RenderAreaStep(env: Env, dims: PageDimensions, tokens: seq<Token>, area: TemplateArea, p: Pass<EngineState>)
    returns (r: Result<Pass<EngineState>, Error>)
    ensures r == AreaStep(tokens, area, p, Renderer(env, dims))
  {
    if !(area.start.Some? && area.end.Some? && area.start.value !in p.seen) {
      return Success(p);
    }
    var start, end := area.start.value, area.end.value;
    var seen := p.seen + {start};
    var templateTokens := Slice(tokens, start, end + 1);
    if templateTokens.Failure? {
      return Failure(templateTokens.error);
    }
    var prequel := Slice(tokens, p.bookmark, start);
    if prequel.Failure? {
      return Failure(prequel.error);
    }
    var bookmark := end + 1;
    var result := p.result + prequel.value;
    if area.tokenIndex < start || area.tokenIndex - start >= |templateTokens.value| {
      return Failure(Panic(INDEX_OOB));
    }
    var out := RenderArea(env, dims, templateTokens.value, area.tokenIndex - start, p.state);
    if out.Failure? {
      return Failure(out.error);
    }
    return Success(Pass(result + out.value.0, bookmark, seen, out.value.1));
  }

  /** `DocxTemplate::render` */
  method Render(t: DocxTemplate, env: Env) returns (r: Result<seq<Entry>, Error>)
    ensures r == RenderOf(t, env)
  {
    var latest := GetLastIdNumber(t.documentRelsTokens);
    if latest.Failure? {
      return Failure(latest.error);
    }
    var tokens, areas := t.tokens, t.templateAreas;
    var result: seq<Token> := [];
    var bookmark: nat := 0;
    var seen: set<nat> := {};
    var latestRelsId := latest.value;
    var images: SortedMap.Pairs<ImageFileContents> := [];
    ghost var render := Renderer(env, t.dimensions);
    ghost var all := PassFrom(tokens, areas, 0, Pass([], 0, {}, EngineState(latestRelsId, images)), render);
    for i := 0 to |areas|
      invariant all == PassFrom(tokens, areas, i, Pass(result, bookmark, seen, EngineState(latestRelsId, images)), render)
    {
      var next := RenderAreaStep(env, t.dimensions, tokens, areas[i], Pass(result, bookmark, seen, EngineState(latestRelsId, images)));
      if next.Failure? {
        return Failure(next.error);
      }
      result, bookmark, seen := next.value.result, next.value.bookmark, next.value.seen;
      latestRelsId, images := next.value.state.relsId, next.value.state.images;
    }
    var sequel := SliceFrom(tokens, bookmark);
    if sequel.Failure? {
      return Failure(sequel.error);
    }
    result := result + sequel.value;
    var documentXml := env.serialize(result);
    if documentXml.None? {
      return Failure(SerializationFailure);
    }
    r := RebuildPackage(t, env, documentXml.value, images);
  }

  // ---------------------------------------------------------------------
  // The relationship counter

  lemma {:induction false} RelIdsJoin(a: nat, b: nat, c: nat)
    requires a <= b <= c
    ensures JupyterNb.RelIds(a, b) + JupyterNb.RelIds(b, c) == JupyterNb.RelIds(a, c)
    decreases c
  {
    if c > b {
      RelIdsJoin(a, b, c - 1);
    }
  }

  /**
   * From one state to a later one the counter has not gone down, the map
   * stays sorted, and it gained exactly the ids the counter passed.
   */
  ghost predicate Grows(a: EngineState, b: EngineState)
  {
    && a.relsId <= b.relsId
    && SortedMap.Sorted(b.images)
    && SortedMap.Keys(b.images) == SortedMap.Keys(a.images) + JupyterNb.RelIds(a.relsId, b.relsId)
  }

  lemma GrowsRefl(a: EngineState)
    requires SortedMap.Sorted(a.images)
    ensures Grows(a, a)
  {
    assert JupyterNb.RelIds(a.relsId, a.relsId) == {};
  }

  lemma GrowsTrans(a: EngineState, b: EngineState, c: EngineState)
    requires Grows(a, b) && Grows(b, c)
    ensures Grows(a, c)
  {
    RelIdsJoin(a.relsId, b.relsId, c.relsId);
  }

  lemma HelperGrows(env: Env, dims: PageDimensions, name: string, key: string, st: EngineState)
    requires SortedMap.Sorted(st.images)
    ensures HelperTokens(env, dims, name, key, st).Success? ==> Grows(st, HelperTokens(env, dims, name, key, st).value.1)
  {
    GrowsRefl(st);
    if name == "jupyter" && key in env.data && env.data[key].NotebookData? {
      JupyterNb.NotebookIds(env.data[key].notebook, env.services, st.relsId, st.images);
    }
  }

  lemma {:induction false} ComplexFromGrows(env: Env, dims: PageDimensions, text: string, phs: seq<TemplatePlaceholder>, k: nat, c: Complex<EngineState>, paste: Paste)
    requires SortedMap.Sorted(c.state.images)
    ensures ComplexFrom(text, phs, k, c, paste, HelperWith(env, dims)).Success? ==>
      Grows(c.state, ComplexFrom(text, phs, k, c, paste, HelperWith(env, dims)).value.state)
    decreases |phs| - k
  {
    GrowsRefl(c.state);
    var helper := HelperWith(env, dims);
    if k < |phs| && ComplexFrom(text, phs, k, c, paste, helper).Success? {
      var ph := phs[k];
      if ph.helperName.None? {
        ComplexFromGrows(env, dims, text, phs, k + 1, c, paste);
      } else {
        var pre := PrequelOf(text, c.index, ph.startPosition, paste).value;
        var h := HelperTokens(env, dims, ph.helperName.value, ph.expression, c.state).value;
        HelperGrows(env, dims, ph.helperName.value, ph.expression, c.state);
        var c' := Complex(c.out + pre + h.0, ph.endPosition, h.1);
        ComplexFromGrows(env, dims, text, phs, k + 1, c', paste);
        GrowsTrans(c.state, h.1, ComplexFrom(text, phs, k, c, paste, helper).value.state);
      }
    }
  }

  lemma AreaGrows(env: Env, dims: PageDimensions, tt: seq<Token>, sub: nat, st: EngineState)
    requires SortedMap.Sorted(st.images)
    ensures AreaTokens(env, dims, tt, sub, st).Success? ==> Grows(st, AreaTokens(env, dims, tt, sub, st).value.1)
  {
    GrowsRefl(st);
    if sub < |tt| && tt[sub].tokenText.Some? && tt[sub].tokenType == ComplexTemplate {
      var text := tt[sub].tokenText.value;
      var phs := PlaceholdersOf(env.patterns.all(text));
      if phs.Success? {
        var paste := PasteWith(tt, sub, env.evaluate);
        ComplexFromGrows(env, dims, text, phs.value, 0, Complex([], 0, st), paste);
      }
    }
  }

  lemma AreaStepGrows(env: Env, dims: PageDimensions, tokens: seq<Token>, a: TemplateArea, p: Pass<EngineState>)
    requires SortedMap.Sorted(p.state.images)
    ensures AreaStep(tokens, a, p, Renderer(env, dims)).Success? ==>
      Grows(p.state, AreaStep(tokens, a, p, Renderer(env, dims)).value.state)
  {
    GrowsRefl(p.state);
    if AreaStep(tokens, a, p, Renderer(env, dims)).Success? && Complete(a) && a.start.value !in p.seen {
      var start := a.start.value;
      AreaGrows(env, dims, tokens[start..a.end.value + 1], a.tokenIndex - start, p.state);
    }
  }

  lemma {:induction false} PassGrows(env: Env, dims: PageDimensions, tokens: seq<Token>, areas: seq<TemplateArea>, i: nat, p: Pass<EngineState>)
    requires SortedMap.Sorted(p.state.images)
    ensures PassFrom(tokens, areas, i, p, Renderer(env, dims)).Success? ==>
      Grows(p.state, PassFrom(tokens, areas, i, p, Renderer(env, dims)).value.state)
    decreases |areas| - i
  {
    GrowsRefl(p.state);
    var render := Renderer(env, dims);
    if i < |areas| && PassFrom(tokens, areas, i, p, render).Success? {
      var q := AreaStep(tokens, areas[i], p, render).value;
      AreaStepGrows(env, dims, tokens, areas[i], p);
      PassGrows(env, dims, tokens, areas, i + 1, q);
      GrowsTrans(p.state, q.state, PassFrom(tokens, areas, i, p, render).value.state);
    }
  }

  /**
   * The images a render adds are keyed `rId{latest+1}` … `rId{last}`, where
   * `latest` is the largest id already in the relationships part: the
   * counter never goes down, every new id is above every existing one,
   * and there are as many images as ids.
   */
  lemma RenderRelationshipIds(t: DocxTemplate, env: Env)
    requires DocumentOf(t, env).Success?
    ensures var latest := LastIdNumber(t.documentRelsTokens).value;
      var st := DocumentOf(t, env).value.1;
      && latest <= st.relsId
      && SortedMap.Sorted(st.images)
      && SortedMap.Keys(st.images) == JupyterNb.RelIds(latest, st.relsId)
      && |SortedMap.Keys(st.images)| == st.relsId - latest
  {
    var latest := LastIdNumber(t.documentRelsTokens).value;
    var init := EngineState(latest, []);
    PassGrows(env, t.dimensions, t.tokens, t.templateAreas, 0, Pass([], 0, {}, init));
    var st := DocumentOf(t, env).value.1;
    JupyterNb.RelIdsCount(latest, st.relsId);
  }

  // ---------------------------------------------------------------------
  // The rebuilt package

  lemma MediaPathIsNoPart(filename: string)
    ensures MEDIA_DIR + filename != RELS_PATH
    ensures MEDIA_DIR + filename != CONTENT_TYPES_PATH
    ensures MEDIA_DIR + filename != DOCUMENT_XML
  {
    assert (MEDIA_DIR + filename)[5] == 'm';
    assert (MEDIA_DIR + filename)[0] == 'w';
    assert RELS_PATH[5] == '_' && DOCUMENT_XML[5] == 'd' && CONTENT_TYPES_PATH[0] == '[';
  }

  /** The media paths of the images. */
  function MediaPaths(images: SortedMap.Pairs<ImageFileContents>): set<string>
  {
    set k | 0 <= k < |images| :: MEDIA_DIR + images[k].1.fileContents.filename
  }

  /** Writing the images leaves one entry per media path and every other name as it was. */
  lemma {:induction false} WithImagesNamed(archive: seq<Entry>, images: SortedMap.Pairs<ImageFileContents>, name: string)
    ensures name in MediaPaths(images) ==> |EntriesNamed(WithImages(archive, images), name)| == 1
    ensures name !in MediaPaths(images) ==> EntriesNamed(WithImages(archive, images), name) == EntriesNamed(archive, name)
    decreases |images|
  {
    if images != [] {
      var init := images[..|images| - 1];
      var image := images[|images| - 1].1;
      var path := MEDIA_DIR + image.fileContents.filename;
      WithImagesNamed(archive, init, name);
      ReplacedPackage(WithImages(archive, init), path, image.fileContents.payload, name);
      assert MediaPaths(images) == MediaPaths(init) + {path} by {
        forall x | x in MediaPaths(images) ensures x in MediaPaths(init) + {path} {
          var k :| 0 <= k < |images| && x == MEDIA_DIR + images[k].1.fileContents.filename;
          if k < |images| - 1 {
            assert images[k] == init[k];
          }
        }
        forall x | x in MediaPaths(init) ensures x in MediaPaths(images) {
          var k :| 0 <= k < |init| && x == MEDIA_DIR + init[k].1.fileContents.filename;
          assert init[k] == images[k];
        }
      }
    }
  }

  /** The last two replacements: the replaced entry comes last, right after the one replaced before it. */
  lemma ReplacedTwice(archive: seq<Entry>, path1: string, payload1: Bytes, path2: string, payload2: Bytes)
    requires path1 != path2
    ensures var r := Replaced(Replaced(archive, path1, payload1), path2, payload2);
      |r| >= 2 && r[|r| - 1] == Entry(path2, true, payload2) && r[|r| - 2] == Entry(path1, true, payload1)
  {
    var first := Replaced(archive, path1, payload1);
    assert first[|first| - 1] == Entry(path1, true, payload1);
    assert first[..|first| - 1] + [first[|first| - 1]] == first;
    assert KeptEntries(first, path2) == KeptEntries(first[..|first| - 1], path2) + [Entry(path1, true, payload1)];
  }

  /**
   * The rebuild order: the document is the last entry and the content
   * types, replaced whether or not there are images, the one before it.
   */
  lemma PackageOrder(t: DocxTemplate, env: Env, documentXml: Bytes, images: SortedMap.Pairs<ImageFileContents>)
    requires PackageOf(t, env, documentXml, images).Success?
    ensures var r := PackageOf(t, env, documentXml, images).value;
      && |r| >= 2
      && r[|r| - 1] == Entry(DOCUMENT_XML, true, documentXml)
      && r[|r| - 2] == Entry(CONTENT_TYPES_PATH, true, Serialized(env, InsertPngContentType(t.contentTypesTokens).value).value)
  {
    var relsXml := Serialized(env, RelsWithImages(t.documentRelsTokens, images).value).value;
    var withImages := WithImages(Replaced(t.sourcePayload, RELS_PATH, relsXml), images);
    var contentTypesXml := Serialized(env, InsertPngContentType(t.contentTypesTokens).value).value;
    ReplacedTwice(withImages, CONTENT_TYPES_PATH, contentTypesXml, DOCUMENT_XML, documentXml);
  }

  /**
   * Every part the render writes is in the rebuilt package exactly once:
   * the document, the content types, the relationships part and the media
   * entry of each image; every other name keeps the entries of the source
   * package.
   */
  lemma PackageEntries(t: DocxTemplate, env: Env, documentXml: Bytes, images: SortedMap.Pairs<ImageFileContents>, name: string)
    requires PackageOf(t, env, documentXml, images).Success?
    ensures var r := PackageOf(t, env, documentXml, images).value;
      && (name == DOCUMENT_XML || name == CONTENT_TYPES_PATH || name == RELS_PATH || name in MediaPaths(images) ==>
            |EntriesNamed(r, name)| == 1)
      && (name !in MediaPaths(images) && name != RELS_PATH && name != CONTENT_TYPES_PATH && name != DOCUMENT_XML ==>
            EntriesNamed(r, name) == EntriesNamed(t.sourcePayload, name))
  {
    var relsXml := Serialized(env, RelsWithImages(t.documentRelsTokens, images).value).value;
    var withRels := Replaced(t.sourcePayload, RELS_PATH, relsXml);
    var withImages := WithImages(withRels, images);
    var contentTypesXml := Serialized(env, InsertPngContentType(t.contentTypesTokens).value).value;
    var withTypes := Replaced(withImages, CONTENT_TYPES_PATH, contentTypesXml);
    ReplacedPackage(withTypes, DOCUMENT_XML, documentXml, name);
    ReplacedPackage(withImages, CONTENT_TYPES_PATH, contentTypesXml, name);
    WithImagesNamed(withRels, images, name);
    ReplacedPackage(t.sourcePayload, RELS_PATH, relsXml, name);
    if name in MediaPaths(images) {
      var k :| 0 <= k < |images| && name == MEDIA_DIR + images[k].1.fileContents.filename;
      MediaPathIsNoPart(images[k].1.fileContents.filename);
    }
  }
}

/**
 * `jupyter_nb_to_tokens`: a Jupyter notebook as WordprocessingML. Markdown
 * cells go through the Markdown generator, each line of a code cell's
 * `text/plain` output becomes a monospace paragraph, and each `image/png`
 * output that decodes becomes an inline picture, registered under a fresh
 * relationship id in the image map the caller passes in.
 *
 * JSON values, base64 decoding and PNG header probing are external; they
 * enter as the `Json` datatype and the `Services` functions.
 */
module JupyterNb {
  import opened Wrappers
  import opened Text
  import opened Seqs
  import opened Errors
  import opened Xml
  import opened Render
  import opened Markdown
  import SortedMap

  /** The JSON values the generator looks at: a string, an array of strings, or anything else. */
  datatype Json = JString(s: string) | JStrings(lines: seq<string>) | JOther

  /** One output of a code cell: its MIME bundle. */
  datatype CellOutput = CellOutput(data: map<string, Json>)

  datatype CellType = MarkdownCell | Code | Raw

  datatype Cell = Cell(cellType: CellType, source: seq<string>, outputs: Option<seq<CellOutput>>)

  datatype Notebook = Notebook(cells: seq<Cell>)

  /**
   * The external services: the Markdown parser's event stream, base64
   * decoding of the trimmed text (None when it is not base64), and the
   * PNG header's (width, height) (None when the payload is not a PNG).
   */
  datatype Services = Services(
    parseMarkdown: string -> seq<MdEvent>,
    decodeBase64: string -> Option<Bytes>,
    pngDimensions: Bytes -> Option<(nat, nat)>)

  /** The generator's state: output so far, the relationship counter, the image map and the image counter. */
  datatype NbState = NbState(tokens: seq<Token>, relsId: nat, images: SortedMap.Pairs<ImageFileContents>, imageCounter: nat)

  /** What the caller sees: the tokens, and the counter and map it passed by `&mut`. */
  datatype NbOutput = NbOutput(tokens: seq<Token>, relsId: nat, images: SortedMap.Pairs<ImageFileContents>)

  const TEXT_PLAIN: string := "text/plain"
  const IMAGE_PNG: string := "image/png"
  const UNWRAP_FAILED: string := "called `Result::unwrap()` on an `Err` value"

  function RelId(n: nat): string { "rId" + NatToString(n) }

  function FigureFilename(n: nat): string { "figure-" + NatToString(n) + ".png" }

  /** The `text/plain` part of an output: one monospace paragraph block per line. */
  function TextPart(o: CellOutput, st: NbState): Result<NbState, Error>
  {
    if TEXT_PLAIN !in o.data then Success(st)
    else
      match o.data[TEXT_PLAIN]
      case JStrings(lines) => Success(st.(tokens := st.tokens + MapConcat(lines, MonospaceParagraphTokensOf)))
      case _ => Failure(Panic(UNWRAP_FAILED))
  }

  /** The `image/png` part of an output: nothing when it does not decode, else a new image. */
  function ImagePart(o: CellOutput, st: NbState, svc: Services): Result<NbState, Error>
  {
    if IMAGE_PNG !in o.data then Success(st)
    else
      match o.data[IMAGE_PNG]
      case JString(encoded) =>
        (match svc.decodeBase64(encoded)
         case None => Success(st)
         case Some(payload) =>
           match svc.pngDimensions(payload)
           case None => Failure(Panic(UNWRAP_FAILED))
           case Some(dims) => Success(Figure(st, payload, dims.0, dims.1)))
      case _ => Failure(Panic(UNWRAP_FAILED))
  }

  /** A decoded PNG: registered under the next id and emitted as a picture paragraph. */
  function Figure(st: NbState, payload: Bytes, width: nat, height: nat): NbState
  {
    var id := NextRelId(st);
    var image := ImageFileContents(FileContents(FigureFilename(st.imageCounter), payload), height, width);
    Advance(st, st.tokens + ImageParagraphTokens(id, width, height, st.imageCounter), SortedMap.Insert(st.images, id, image))
  }

  /** The id the next image is registered under. */
  function NextRelId(st: NbState): string { RelId(st.relsId + 1) }

  /** The state after one image: both counters move on by one. */
  function Advance(st: NbState, tokens: seq<Token>, images: SortedMap.Pairs<ImageFileContents>): NbState
  {
    NbState(tokens, st.relsId + 1, images, st.imageCounter + 1)
  }

  function OutputStep(o: CellOutput, st: NbState, svc: Services): Result<NbState, Error>
  {
    var afterText :- TextPart(o, st);
    ImagePart(o, afterText, svc)
  }

  /** The outputs from the `j`-th on. */
  function OutputsFrom(outputs: seq<CellOutput>, j: nat, st: NbState, svc: Services): Result<NbState, Error>
    decreases |outputs| - j
  {
    if j >= |outputs| then Success(st)
    else
      var next :- OutputStep(outputs[j], st, svc);
      OutputsFrom(outputs, j + 1, next, svc)
  }

  function CellStep(c: Cell, st: NbState, svc: Services): Result<NbState, Error>
  {
    match c.cellType
    case MarkdownCell => Success(st.(tokens := st.tokens + MarkdownTokensOf(svc.parseMarkdown(Join(c.source, "\n")))))
    case Code => if c.outputs.None? then Success(st) else OutputsFrom(c.outputs.value, 0, st, svc)
    case Raw => Success(st)
  }

  /** The cells from the `i`-th on. */
  function CellsFrom(cells: seq<Cell>, i: nat, st: NbState, svc: Services): Result<NbState, Error>
    decreases |cells| - i
  {
    if i >= |cells| then Success(st)
    else
      var next :- CellStep(cells[i], st, svc);
      CellsFrom(cells, i + 1, next, svc)
  }

  /** The generator's final state: output empty and image counter 1 at the start of every call. */
  function NotebookState(nb: Notebook, svc: Services, startRelsId: nat, images: SortedMap.Pairs<ImageFileContents>): Result<NbState, Error>
  {
    CellsFrom(nb.cells, 0, NbState([], startRelsId, images, 1), svc)
  }

  function JupyterNbOf(nb: Notebook, svc: Services, startRelsId: nat, images: SortedMap.Pairs<ImageFileContents>): Result<NbOutput, Error>
  {
    var st :- NotebookState(nb, svc, startRelsId, images);
    Success(NbOutput(st.tokens, st.relsId, st.images))
  }

  /** `jupyter_nb_to_tokens` */
  method JupyterNbToTokens(nb: Notebook, svc: Services, startRelsId: nat, images: SortedMap.Pairs<ImageFileContents>)
    returns (r: Result<NbOutput, Error>)
    ensures r == JupyterNbOf(nb, svc, startRelsId, images)
  {
    var result: seq<Token> := [];
    var relsId := startRelsId;
    var imgs := images;
    var imageCounter := 1;
    ghost var all := NotebookState(nb, svc, startRelsId, images);
    for i := 0 to |nb.cells|
      invariant all == CellsFrom(nb.cells, i, NbState(result, relsId, imgs, imageCounter), svc)
    {
      var cell := nb.cells[i];
      match cell.cellType {
        case MarkdownCell =>
          var tokens := MarkdownToTokens(svc.parseMarkdown(Join(cell.source, "\n")));
          result := result + tokens;
        case Code =>
          if cell.outputs.Some? {
            var outputs := cell.outputs.value;
            ghost var cellStart := NbState(result, relsId, imgs, imageCounter);
            for j := 0 to |outputs|
              invariant OutputsFrom(outputs, 0, cellStart, svc) == OutputsFrom(outputs, j, NbState(result, relsId, imgs, imageCounter), svc)
            {
              var next := OutputToTokens(outputs[j], NbState(result, relsId, imgs, imageCounter), svc);
              if next.Failure? {
                return Failure(next.error);
              }
              result, relsId, imgs, imageCounter := next.value.tokens, next.value.relsId, next.value.images, next.value.imageCounter;
            }
          }
        case Raw =>
      }
    }
    return Success(NbOutput(result, relsId, imgs));
  }

  /** The body of the output loop: the `text/plain` lines, then the `image/png` figure. */
  method OutputToTokens(output: CellOutput, st: NbState, svc: Services) returns (r: Result<NbState, Error>)
    ensures r == OutputStep(output, st, svc)
  {
    var afterText := TextLinesToTokens(output, st);
    if afterText.Failure? {
      return Failure(afterText.error);
    }
    r := FigureToTokens(output, afterText.value, svc);
  }

  /** Each line of a `text/plain` output as a monospace paragraph. */
  method TextLinesToTokens(output: CellOutput, st: NbState) returns (r: Result<NbState, Error>)
    ensures r == TextPart(output, st)
  {
    if TEXT_PLAIN !in output.data {
      return Success(st);
    }
    var value := output.data[TEXT_PLAIN];
    if !value.JStrings? {
      return Failure(Panic(UNWRAP_FAILED));
    }
    var lines := MonospaceLines(value.lines);
    return Success(st.(tokens := st.tokens + lines));
  }

  /** An `image/png` output that decodes: registered under the next id and emitted as a picture paragraph. */
  method FigureToTokens(output: CellOutput, st: NbState, svc: Services) returns (r: Result<NbState, Error>)
    ensures r == ImagePart(output, st, svc)
  {
    if IMAGE_PNG !in output.data {
      return Success(st);
    }
    var value := output.data[IMAGE_PNG];
    if !value.JString? {
      return Failure(Panic(UNWRAP_FAILED));
    }
    var decoded := svc.decodeBase64(value.s);
    if decoded.None? {
      return Success(st);
    }
    var payload := decoded.value;
    var dims := svc.pngDimensions(payload);
    if dims.None? {
      return Failure(Panic(UNWRAP_FAILED));
    }
    var (width, height) := dims.value;
    var next := AddFigure(st, payload, width, height);
    return Success(next);
  }

  /** Registering the image and emitting its paragraph. */
  method AddFigure(st: NbState, payload: Bytes, width: nat, height: nat) returns (r: NbState)
    ensures r == Figure(st, payload, width, height)
  {
    var figureRelationshipId := NextRelId(st);
    var filename := FigureFilename(st.imageCounter);
    var imgs := SortedMap.Insert(st.images, figureRelationshipId, ImageFileContents(FileContents(filename, payload), height, width));
    var tokens := ImageParagraphTokens(figureRelationshipId, width, height, st.imageCounter);
    r := Advance(st, st.tokens + tokens, imgs);
  }

  /** The loop over the lines of a `text/plain` output. */
  method MonospaceLines(lines: seq<string>) returns (r: seq<Token>)
    ensures r == MapConcat(lines, MonospaceParagraphTokensOf)
  {
    r := [];
    for k := 0 to |lines|
      invariant r == MapConcat(lines[..k], MonospaceParagraphTokensOf)
    {
      assert lines[..k + 1][..k] == lines[..k];
      var block := MonospaceParagraphTokens(lines[k]);
      r := r + block;
    }
    assert lines[..|lines|] == lines;
  }

  // ---------------------------------------------------------------------
  // Relationship ids and image names

  /** The ids `rId{lo+1}` … `rId{hi}`. */
  function RelIds(lo: nat, hi: nat): set<string>
    decreases hi
  {
    if hi <= lo then {} else RelIds(lo, hi - 1) + {RelId(hi)}
  }

  lemma RelIdInjective(a: nat, b: nat)
    requires RelId(a) == RelId(b)
    ensures a == b
  {
    assert NatToString(a) == RelId(a)[3..];
    assert NatToString(b) == RelId(b)[3..];
    DigitsValueOfNatToString(a);
    DigitsValueOfNatToString(b);
  }

  /** Exactly the ids of the numbers between the bounds. */
  lemma {:induction false} RelIdsMembers(lo: nat, hi: nat, n: nat)
    ensures RelId(n) in RelIds(lo, hi) <==> lo < n <= hi
    decreases hi
  {
    if hi > lo {
      RelIdsMembers(lo, hi - 1, n);
      if RelId(n) == RelId(hi) {
        RelIdInjective(n, hi);
      }
    }
  }

  /** There are as many ids as numbers between the bounds: no two coincide. */
  lemma {:induction false} RelIdsCount(lo: nat, hi: nat)
    requires lo <= hi
    ensures |RelIds(lo, hi)| == hi - lo
    decreases hi
  {
    if hi > lo {
      RelIdsCount(lo, hi - 1);
      RelIdsMembers(lo, hi - 1, hi);
    }
  }

  /**
   * What the generator keeps true of its state, for a call that started
   * with the counter at `start` and the map `original`: the image counter
   * has moved with the relationship counter from 1, the map holds the
   * original keys and one `rId{k}` for every k the counter passed, and the
   * image under `rId{k}` is `figure-{k - start}.png`.
   */
  ghost predicate Tracks(st: NbState, start: nat, original: SortedMap.Pairs<ImageFileContents>)
  {
    && SortedMap.Sorted(st.images)
    && start <= st.relsId && st.imageCounter == st.relsId - start + 1
    && SortedMap.Keys(st.images) == SortedMap.Keys(original) + RelIds(start, st.relsId)
    && forall k: nat :: start < k <= st.relsId ==>
         SortedMap.Get(st.images, RelId(k)).Some? && SortedMap.Get(st.images, RelId(k)).value.fileContents.filename == FigureFilename(k - start)
  }

  lemma TextPartTracks(o: CellOutput, st: NbState, start: nat, original: SortedMap.Pairs<ImageFileContents>)
    requires Tracks(st, start, original) && TextPart(o, st).Success?
    ensures TextPart(o, st).value.relsId == st.relsId && TextPart(o, st).value.images == st.images
    ensures Tracks(TextPart(o, st).value, start, original)
  {
  }

  lemma ImagePartTracks(o: CellOutput, st: NbState, svc: Services, start: nat, original: SortedMap.Pairs<ImageFileContents>)
    requires Tracks(st, start, original) && ImagePart(o, st, svc).Success?
    ensures ImagePart(o, st, svc).value.relsId in {st.relsId, st.relsId + 1}
    ensures Tracks(ImagePart(o, st, svc).value, start, original)
  {
    if IMAGE_PNG in o.data && o.data[IMAGE_PNG].JString? && svc.decodeBase64(o.data[IMAGE_PNG].s).Some? {
      var payload := svc.decodeBase64(o.data[IMAGE_PNG].s).value;
      var dims := svc.pngDimensions(payload).value;
      FigureTracks(st, payload, dims.0, dims.1, start, original);
    }
  }

  /** Registering a figure keeps the tracking facts. */
  lemma FigureTracks(st: NbState, payload: Bytes, width: nat, height: nat, start: nat, original: SortedMap.Pairs<ImageFileContents>)
    requires Tracks(st, start, original)
    ensures Figure(st, payload, width, height).relsId == st.relsId + 1
    ensures Tracks(Figure(st, payload, width, height), start, original)
  {
    var image := ImageFileContents(FileContents(FigureFilename(st.imageCounter), payload), height, width);
    ImageInserted(st, Figure(st, payload, width, height).tokens, start, original, image);
  }

  /** Inserting the next id's image keeps the tracking facts, the counters moved on by one. */
  lemma ImageInserted(st: NbState, tokens: seq<Token>, start: nat, original: SortedMap.Pairs<ImageFileContents>, image: ImageFileContents)
    requires Tracks(st, start, original)
    requires image.fileContents.filename == FigureFilename(st.imageCounter)
    ensures Tracks(Advance(st, tokens, SortedMap.Insert(st.images, NextRelId(st), image)), start, original)
  {
    var id := NextRelId(st);
    SortedMap.InsertSorted(st.images, id, image);
    SortedMap.InsertKeys(st.images, id, image);
    InsertedFigureNames(st, start, original, image);
  }

  /** After the insertion every id the counter passed still names its figure. */
  lemma InsertedFigureNames(st: NbState, start: nat, original: SortedMap.Pairs<ImageFileContents>, image: ImageFileContents)
    requires Tracks(st, start, original)
    requires image.fileContents.filename == FigureFilename(st.imageCounter)
    ensures var images := SortedMap.Insert(st.images, NextRelId(st), image);
      forall k: nat :: start < k <= st.relsId + 1 ==>
        SortedMap.Get(images, RelId(k)).Some? && SortedMap.Get(images, RelId(k)).value.fileContents.filename == FigureFilename(k - start)
  {
    var id := NextRelId(st);
    var images := SortedMap.Insert(st.images, id, image);
    forall k: nat | start < k <= st.relsId + 1
      ensures SortedMap.Get(images, RelId(k)).Some? && SortedMap.Get(images, RelId(k)).value.fileContents.filename == FigureFilename(k - start)
    {
      SortedMap.InsertGet(st.images, id, image, RelId(k));
      if k <= st.relsId && RelId(k) == id {
        RelIdInjective(k, st.relsId + 1);
      }
    }
  }

  lemma OutputStepTracks(o: CellOutput, st: NbState, svc: Services, start: nat, original: SortedMap.Pairs<ImageFileContents>)
    requires Tracks(st, start, original) && OutputStep(o, st, svc).Success?
    ensures st.relsId <= OutputStep(o, st, svc).value.relsId
    ensures Tracks(OutputStep(o, st, svc).value, start, original)
  {
    TextPartTracks(o, st, start, original);
    ImagePartTracks(o, TextPart(o, st).value, svc, start, original);
  }

  lemma {:induction false} OutputsFromTracks(outputs: seq<CellOutput>, j: nat, st: NbState, svc: Services, start: nat, original: SortedMap.Pairs<ImageFileContents>)
    requires Tracks(st, start, original) && OutputsFrom(outputs, j, st, svc).Success?
    ensures st.relsId <= OutputsFrom(outputs, j, st, svc).value.relsId
    ensures Tracks(OutputsFrom(outputs, j, st, svc).value, start, original)
    decreases |outputs| - j
  {
    if j < |outputs| {
      OutputStepTracks(outputs[j], st, svc, start, original);
      OutputsFromTracks(outputs, j + 1, OutputStep(outputs[j], st, svc).value, svc, start, original);
    }
  }

  lemma {:induction false} CellsFromTracks(cells: seq<Cell>, i: nat, st: NbState, svc: Services, start: nat, original: SortedMap.Pairs<ImageFileContents>)
    requires Tracks(st, start, original) && CellsFrom(cells, i, st, svc).Success?
    ensures st.relsId <= CellsFrom(cells, i, st, svc).value.relsId
    ensures Tracks(CellsFrom(cells, i, st, svc).value, start, original)
    decreases |cells| - i
  {
    if i < |cells| {
      var c := cells[i];
      if c.cellType.Code? && c.outputs.Some? {
        OutputsFromTracks(c.outputs.value, 0, st, svc, start, original);
      }
      CellsFromTracks(cells, i + 1, CellStep(c, st, svc).value, svc, start, original);
    }
  }

  /**
   * After a successful call the counter has not gone down; the image map stays sorted,
   * holds the keys it had plus exactly `rId{start+1}` … `rId{last}`, one per
   * image added and pairwise distinct; and the k-th image added is stored
   * under `rId{start+k}` as `figure-{k}.png`, the image counter having
   * restarted at 1.
   */
  lemma NotebookIds(nb: Notebook, svc: Services, start: nat, images: SortedMap.Pairs<ImageFileContents>)
    requires SortedMap.Sorted(images)
    ensures JupyterNbOf(nb, svc, start, images).Success? ==>
      var out := JupyterNbOf(nb, svc, start, images).value;
      && start <= out.relsId
      && SortedMap.Sorted(out.images)
      && SortedMap.Keys(out.images) == SortedMap.Keys(images) + RelIds(start, out.relsId)
      && |RelIds(start, out.relsId)| == out.relsId - start
      && (forall n: nat :: RelId(n) in RelIds(start, out.relsId) <==> start < n <= out.relsId)
      && (forall k: nat :: start < k <= out.relsId ==>
           SortedMap.Get(out.images, RelId(k)).Some? && SortedMap.Get(out.images, RelId(k)).value.fileContents.filename == FigureFilename(k - start))
  {
    var init := NbState([], start, images, 1);
    assert RelIds(start, start) == {};
    assert Tracks(init, start, images);
    if JupyterNbOf(nb, svc, start, images).Success? {
      CellsFromTracks(nb.cells, 0, init, svc, start, images);
      var out := JupyterNbOf(nb, svc, start, images).value;
      RelIdsCount(start, out.relsId);
      forall n: nat ensures RelId(n) in RelIds(start, out.relsId) <==> start < n <= out.relsId {
        RelIdsMembers(start, out.relsId, n);
      }
    }
  }

  /** An image that does not decode adds no tokens and leaves both counters and the map alone. */
  lemma FailedDecodeChangesNothing(o: CellOutput, st: NbState, svc: Services)
    requires IMAGE_PNG in o.data && o.data[IMAGE_PNG].JString? && svc.decodeBase64(o.data[IMAGE_PNG].s).None?
    ensures ImagePart(o, st, svc) == Success(st)
  {
  }
}

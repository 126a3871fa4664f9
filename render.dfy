/**
 * The token builders and package patching of the render layer: paragraph,
 * monospace, heading and image paragraphs in WordprocessingML (ECMA-376
 * Part 1, chapter 17 and section 20.4), the relationships and content-types
 * parts (ECMA-376 Part 2, Open Packaging Conventions), placeholder
 * substitution, and the replacement of one part of a package.
 */
module Render {
  import opened Wrappers
  import opened Text
  import opened Seqs
  import opened Errors
  import opened Xml
  import SortedMap

  // ---------------------------------------------------------------------
  // Packages as lists of entries

  type Bytes = seq<bv8>

  /** A zip entry: its name, whether that name is valid UTF-8, and its contents. */
  datatype Entry = Entry(name: string, utf8Name: bool, payload: Bytes)

  const DOCUMENT_XML: string := "word/document.xml"

  /** The entries `replace_file_in_zip` copies: those with a readable name other than `path`, in order. */
  function KeptEntries(archive: seq<Entry>, path: string): (r: seq<Entry>)
    ensures |r| <= |archive|
    decreases |archive|
  {
    if archive == [] then []
    else
      var last := archive[|archive| - 1];
      KeptEntries(archive[..|archive| - 1], path) + (if last.utf8Name && last.name != path then [last] else [])
  }

  /** `replace_file_in_zip` */
  method ReplaceFileInZip(archive: seq<Entry>, path: string, payload: Bytes) returns (r: seq<Entry>)
    ensures r == KeptEntries(archive, path) + [Entry(path, true, payload)]
  {
    r := [];
    for i := 0 to |archive|
      invariant r == KeptEntries(archive[..i], path)
    {
      assert archive[..i + 1][..i] == archive[..i];
      var entry := archive[i];
      if entry.utf8Name && entry.name != path {
        r := r + [entry];
      }
    }
    assert archive[..|archive|] == archive;
    r := r + [Entry(path, true, payload)];
  }

  /** `new_zip_bytes_with_document_xml` */
  method NewZipBytesWithDocumentXml(archive: seq<Entry>, documentXml: Bytes) returns (r: seq<Entry>)
    ensures r == KeptEntries(archive, DOCUMENT_XML) + [Entry(DOCUMENT_XML, true, documentXml)]
  {
    r := ReplaceFileInZip(archive, DOCUMENT_XML, documentXml);
  }

  /** The readable entries with a given name, in order. */
  function EntriesNamed(archive: seq<Entry>, name: string): seq<Entry>
    decreases |archive|
  {
    if archive == [] then []
    else
      var last := archive[|archive| - 1];
      EntriesNamed(archive[..|archive| - 1], name) + (if last.utf8Name && last.name == name then [last] else [])
  }

  lemma {:induction false} EntriesNamedAppend(a: seq<Entry>, b: seq<Entry>, name: string)
    ensures EntriesNamed(a + b, name) == EntriesNamed(a, name) + EntriesNamed(b, name)
    decreases |b|
  {
    if b == [] {
      assert a + b == a;
    } else {
      assert (a + b)[..|a + b| - 1] == a + b[..|b| - 1];
      EntriesNamedAppend(a, b[..|b| - 1], name);
    }
  }

  lemma {:induction false} EntriesNamedKept(archive: seq<Entry>, path: string, name: string)
    ensures EntriesNamed(KeptEntries(archive, path), name) == if name == path then [] else EntriesNamed(archive, name)
    decreases |archive|
  {
    if archive != [] {
      var init, last := archive[..|archive| - 1], archive[|archive| - 1];
      EntriesNamedKept(init, path, name);
      var tail := if last.utf8Name && last.name != path then [last] else [];
      EntriesNamedAppend(KeptEntries(init, path), tail, name);
      assert tail != [] ==> tail[..0] == [];
    }
  }

  /**
   * After a replacement the package holds exactly one entry under `path`,
   * the new one, and every other name keeps exactly the entries it had.
   */
  lemma ReplacedPackage(archive: seq<Entry>, path: string, payload: Bytes, name: string)
    ensures var r := KeptEntries(archive, path) + [Entry(path, true, payload)];
      EntriesNamed(r, name) == if name == path then [Entry(path, true, payload)] else EntriesNamed(archive, name)
  {
    var e := Entry(path, true, payload);
    EntriesNamedKept(archive, path, name);
    EntriesNamedAppend(KeptEntries(archive, path), [e], name);
    assert [e][..0] == [];
  }

  // ---------------------------------------------------------------------
  // Splitting rendered text into paragraphs

  /** `\r\n\r\n` when the text uses Windows line ends anywhere, `\n\n` otherwise. */
  function EmptyLineSeparator(s: string): string
  {
    if Contains(s, "\r\n") then "\r\n\r\n" else "\n\n"
  }

  /** `split_string_by_empty_line` */
  function SplitStringByEmptyLine(s: string): (r: seq<string>)
    ensures |r| >= 1
  {
    Split(s, EmptyLineSeparator(s))
  }

  /** The pieces joined with the separator give back the text, and no piece holds the separator. */
  lemma SplitStringByEmptyLineJoins(s: string)
    ensures Join(SplitStringByEmptyLine(s), EmptyLineSeparator(s)) == s
    ensures forall k :: 0 <= k < |SplitStringByEmptyLine(s)| ==> !Contains(SplitStringByEmptyLine(s)[k], EmptyLineSeparator(s))
  {
    JoinSplit(s, EmptyLineSeparator(s));
    SplitPiecesFree(s, EmptyLineSeparator(s));
  }

  // ---------------------------------------------------------------------
  // Paragraph builders

  /** A Normal token holding character data. */
  function TextToken(s: string): Token
  {
    Token(Normal, Some(s), Characters(s))
  }

  const XmlSpacePreserve: Attribute := Attribute(Name(Some("xml"), None, "space"), "preserve")

  /** `char_text_tokens`: a `w:t` element around the text, preserving spaces on request. */
  function CharTextTokens(contents: string, preserveSpace: bool): (r: seq<Token>)
    ensures Balanced(r) && |r| == 3 && r[1] == TextToken(contents)
    ensures IsStartOf(r[0], W("t")) && (r[0].event.attributes == if preserveSpace then [XmlSpacePreserve] else [])
  {
    var r := Elem(W("t"), if preserveSpace then [XmlSpacePreserve] else [], [TextToken(contents)]);
    BalancedText(TextToken(contents));
    BalancedElem(W("t"), if preserveSpace then [XmlSpacePreserve] else [], [TextToken(contents)]);
    r
  }

  function RunStartToken(): Token { Open(W("r"), []) }

  function RunEndToken(): Token { Close(W("r")) }

  function ParagraphPrequelTokens(): seq<Token> { [Open(W("p"), [])] }

  function ParagraphSequelTokens(): seq<Token> { [Close(W("p"))] }

  /** `heading_prequel_tokens`: opens a paragraph and gives it the named paragraph style. */
  function HeadingPrequelTokens(style: string): (r: seq<Token>)
    ensures |r| == 5 && IsStartOf(r[0], W("p")) && Balanced(r[1..])
    ensures IsStartOf(r[2], W("pStyle")) && FindAttr(r[2].event.attributes, "val") == Some(style)
  {
    var pStyle := Elem(W("pStyle"), [WAttr("val", style)], []);
    var pPr := Elem(W("pPr"), [], pStyle);
    BalancedElem(W("pStyle"), [WAttr("val", style)], []);
    BalancedElem(W("pPr"), [], pStyle);
    var r := ParagraphPrequelTokens() + pPr;
    assert r[1..] == pPr;
    r
  }

  function HeadingSequelTokens(): seq<Token> { ParagraphSequelTokens() }

  /** A heading opened by its prequel and closed by its sequel is balanced when its content is. */
  lemma HeadingBalanced(style: string, inner: seq<Token>)
    requires Balanced(inner)
    ensures Balanced(HeadingPrequelTokens(style) + inner + HeadingSequelTokens())
  {
    var pre := HeadingPrequelTokens(style);
    BalancedConcat(pre[1..], inner);
    BalancedElem(W("p"), [], pre[1..] + inner);
    assert pre + inner + HeadingSequelTokens() == Elem(W("p"), [], pre[1..] + inner);
  }

  /** One chunk of `paragraph_tokens`: prequel, run start, text, run end, sequel. */
  function ParagraphBlock(chunk: string): seq<Token>
  {
    ParagraphPrequelTokens() + [RunStartToken()] + CharTextTokens(chunk, true) + [RunEndToken()] + ParagraphSequelTokens()
  }

  /** A paragraph block is exactly `p, r, t(xml:space=preserve), text, /t, /r, /p`, all Normal, balanced. */
  lemma ParagraphBlockShape(chunk: string)
    ensures ParagraphBlock(chunk) == Elem(W("p"), [], Elem(W("r"), [], Elem(W("t"), [XmlSpacePreserve], [TextToken(chunk)])))
    ensures |ParagraphBlock(chunk)| == 7 && Balanced(ParagraphBlock(chunk))
    ensures forall k :: 0 <= k < 7 ==> ParagraphBlock(chunk)[k].tokenType == Normal
  {
    var t := CharTextTokens(chunk, true);
    BalancedElem(W("r"), [], t);
    BalancedElem(W("p"), [], Elem(W("r"), [], t));
  }

  /** What `paragraph_tokens` returns. */
  function ParagraphTokensOf(contents: string): seq<Token>
  {
    MapConcat(SplitStringByEmptyLine(contents), ParagraphBlock)
  }

  /** `paragraph_tokens` */
  method ParagraphTokens(contents: string) returns (r: seq<Token>)
    ensures r == ParagraphTokensOf(contents)
  {
    var paragraphs := SplitStringByEmptyLine(contents);
    r := [];
    for i := 0 to |paragraphs|
      invariant r == MapConcat(paragraphs[..i], ParagraphBlock)
    {
      assert paragraphs[..i + 1][..i] == paragraphs[..i];
      var block := ParagraphPrequelTokens() + [RunStartToken()] + CharTextTokens(paragraphs[i], true)
        + [RunEndToken()] + ParagraphSequelTokens();
      r := r + block;
    }
    assert paragraphs[..|paragraphs|] == paragraphs;
  }

  /** Seven tokens per chunk of the split text, the `k`-th block being that chunk's paragraph, all balanced. */
  lemma ParagraphTokensShape(contents: string)
    ensures var chunks := SplitStringByEmptyLine(contents);
      var r := ParagraphTokensOf(contents);
      && |r| == 7 * |chunks|
      && (forall k :: 0 <= k < |chunks| ==> 7 * k + 7 <= |r| && r[7 * k..7 * k + 7] == ParagraphBlock(chunks[k]))
      && Balanced(r)
      && CountStarts(r, W("p")) == |chunks|
  {
    var chunks := SplitStringByEmptyLine(contents);
    forall c ensures |ParagraphBlock(c)| == 7 && Balanced(ParagraphBlock(c)) && CountStarts(ParagraphBlock(c), W("p")) == 1 {
      ParagraphBlockShape(c);
      var t := CharTextTokens(c, true);
      CountStartsElem(W("p"), [], Elem(W("r"), [], t), W("p"));
      CountStartsElem(W("r"), [], t, W("p"));
      CountStartsElem(W("t"), [XmlSpacePreserve], [TextToken(c)], W("p"));
      assert [TextToken(c)][1..] == [];
    }
    MapConcatLength(chunks, ParagraphBlock, 7);
    forall k | 0 <= k < |chunks|
      ensures 7 * k + 7 <= |ParagraphTokensOf(contents)| && ParagraphTokensOf(contents)[7 * k..7 * k + 7] == ParagraphBlock(chunks[k])
    {
      MapConcatBlock(chunks, ParagraphBlock, 7, k);
      assert k * 7 == 7 * k;
    }
    BalancedMapConcat(chunks, ParagraphBlock);
    CountStartsMapConcat(chunks, ParagraphBlock, W("p"), 1);
  }

  /** The element names a paragraph block uses. */
  function ParagraphNames(): set<Name> { {W("p"), W("r"), W("t")} }

  /** Plain paragraphs start no element other than `w:p`, `w:r` and `w:t`. */
  lemma ParagraphTokensStarts(contents: string)
    ensures StartsWithin(ParagraphTokensOf(contents), ParagraphNames())
  {
    var chunks := SplitStringByEmptyLine(contents);
    forall i | 0 <= i < |chunks| ensures StartsWithin(ParagraphBlock(chunks[i]), ParagraphNames()) {
      var c := chunks[i];
      ParagraphBlockShape(c);
      StartsWithinElem(W("t"), [XmlSpacePreserve], [TextToken(c)], ParagraphNames());
      StartsWithinElem(W("r"), [], Elem(W("t"), [XmlSpacePreserve], [TextToken(c)]), ParagraphNames());
      StartsWithinElem(W("p"), [], Elem(W("r"), [], Elem(W("t"), [XmlSpacePreserve], [TextToken(c)])), ParagraphNames());
    }
    StartsWithinMapConcat(chunks, ParagraphBlock, ParagraphNames());
  }

  /** The run properties of monospace text: Consolas at 8 points (16 half-points). */
  function MonospaceRunProperties(): seq<Token>
  {
    Elem(W("rPr"), [],
      Elem(W("rFonts"), [WAttr("ascii", "Consolas"), WAttr("hAnsi", "Consolas")], [])
      + Elem(W("sz"), [WAttr("val", "16")], [])
      + Elem(W("szCs"), [WAttr("val", "16")], []))
  }

  /** One chunk of `monospace_paragraph_tokens`. */
  function MonospaceBlock(chunk: string): seq<Token>
  {
    ParagraphPrequelTokens() + Elem(W("pPr"), [], MonospaceRunProperties())
    + [RunStartToken()] + MonospaceRunProperties() + CharTextTokens(chunk, true) + [RunEndToken()]
    + ParagraphSequelTokens()
  }

  lemma MonospaceRunPropertiesShape()
    ensures |MonospaceRunProperties()| == 8 && Balanced(MonospaceRunProperties())
    ensures CountStarts(MonospaceRunProperties(), W("p")) == 0
  {
    var fonts := [WAttr("ascii", "Consolas"), WAttr("hAnsi", "Consolas")];
    var f := Elem(W("rFonts"), fonts, []);
    var sz := Elem(W("sz"), [WAttr("val", "16")], []);
    var szCs := Elem(W("szCs"), [WAttr("val", "16")], []);
    BalancedElem(W("rFonts"), fonts, []);
    BalancedElem(W("sz"), [WAttr("val", "16")], []);
    BalancedElem(W("szCs"), [WAttr("val", "16")], []);
    BalancedConcat(f, sz);
    BalancedConcat(f + sz, szCs);
    BalancedElem(W("rPr"), [], f + sz + szCs);
    CountStartsElem(W("rPr"), [], f + sz + szCs, W("p"));
    CountStartsAppend(f + sz, szCs, W("p"));
    CountStartsAppend(f, sz, W("p"));
    CountStartsElem(W("rFonts"), fonts, [], W("p"));
    CountStartsElem(W("sz"), [WAttr("val", "16")], [], W("p"));
    CountStartsElem(W("szCs"), [WAttr("val", "16")], [], W("p"));
  }

  lemma CharTextNoParagraph(chunk: string)
    ensures CountStarts(CharTextTokens(chunk, true), W("p")) == 0
  {
    CountStartsElem(W("t"), [XmlSpacePreserve], [TextToken(chunk)], W("p"));
    assert [TextToken(chunk)][1..] == [];
  }

  /** A monospace block is one balanced 25-token paragraph whose paragraph and run both carry the Consolas properties. */
  lemma MonospaceBlockShape(chunk: string)
    ensures MonospaceBlock(chunk) == Elem(W("p"), [], Elem(W("pPr"), [], MonospaceRunProperties())
      + Elem(W("r"), [], MonospaceRunProperties() + CharTextTokens(chunk, true)))
    ensures |MonospaceBlock(chunk)| == 25 && Balanced(MonospaceBlock(chunk))
    ensures CountStarts(MonospaceBlock(chunk), W("p")) == 1
  {
    MonospaceBlockNested(chunk);
    MonospaceNestedShape(chunk);
  }

  lemma MonospaceBlockNested(chunk: string)
    ensures MonospaceBlock(chunk) == Elem(W("p"), [], Elem(W("pPr"), [], MonospaceRunProperties())
      + Elem(W("r"), [], MonospaceRunProperties() + CharTextTokens(chunk, true)))
  {
  }

  lemma MonospaceNestedShape(chunk: string)
    ensures var b := Elem(W("p"), [], Elem(W("pPr"), [], MonospaceRunProperties())
      + Elem(W("r"), [], MonospaceRunProperties() + CharTextTokens(chunk, true)));
      |b| == 25 && Balanced(b) && CountStarts(b, W("p")) == 1
  {
    var props := MonospaceRunProperties();
    MonospaceRunPropertiesShape();
    CharTextNoParagraph(chunk);
    var t := CharTextTokens(chunk, true);
    var pPr := Elem(W("pPr"), [], props);
    var run := Elem(W("r"), [], props + t);
    BalancedElem(W("pPr"), [], props);
    BalancedConcat(props, t);
    BalancedElem(W("r"), [], props + t);
    BalancedConcat(pPr, run);
    BalancedElem(W("p"), [], pPr + run);
    CountStartsElem(W("p"), [], pPr + run, W("p"));
    CountStartsAppend(pPr, run, W("p"));
    CountStartsElem(W("pPr"), [], props, W("p"));
    CountStartsElem(W("r"), [], props + t, W("p"));
    CountStartsAppend(props, t, W("p"));
  }

  function MonospaceParagraphTokensOf(contents: string): seq<Token>
  {
    MapConcat(SplitStringByEmptyLine(contents), MonospaceBlock)
  }

  /** `monospace_paragraph_tokens` */
  method MonospaceParagraphTokens(contents: string) returns (r: seq<Token>)
    ensures r == MonospaceParagraphTokensOf(contents)
  {
    var paragraphs := SplitStringByEmptyLine(contents);
    r := [];
    for i := 0 to |paragraphs|
      invariant r == MapConcat(paragraphs[..i], MonospaceBlock)
    {
      assert paragraphs[..i + 1][..i] == paragraphs[..i];
      var block := ParagraphPrequelTokens() + Elem(W("pPr"), [], MonospaceRunProperties())
        + [RunStartToken()] + MonospaceRunProperties() + CharTextTokens(paragraphs[i], true) + [RunEndToken()]
        + ParagraphSequelTokens();
      r := r + block;
    }
    assert paragraphs[..|paragraphs|] == paragraphs;
  }

  /** Twenty-five tokens and one paragraph per chunk, all balanced. */
  lemma MonospaceParagraphTokensShape(contents: string)
    ensures var chunks := SplitStringByEmptyLine(contents);
      var r := MonospaceParagraphTokensOf(contents);
      && |r| == 25 * |chunks|
      && (forall k :: 0 <= k < |chunks| ==> 25 * k + 25 <= |r| && r[25 * k..25 * k + 25] == MonospaceBlock(chunks[k]))
      && Balanced(r)
      && CountStarts(r, W("p")) == |chunks|
  {
    var chunks := SplitStringByEmptyLine(contents);
    forall c ensures |MonospaceBlock(c)| == 25 && Balanced(MonospaceBlock(c)) && CountStarts(MonospaceBlock(c), W("p")) == 1 {
      MonospaceBlockShape(c);
    }
    MapConcatLength(chunks, MonospaceBlock, 25);
    forall k | 0 <= k < |chunks|
      ensures 25 * k + 25 <= |MonospaceParagraphTokensOf(contents)| && MonospaceParagraphTokensOf(contents)[25 * k..25 * k + 25] == MonospaceBlock(chunks[k])
    {
      MapConcatBlock(chunks, MonospaceBlock, 25, k);
      assert k * 25 == 25 * k;
    }
    BalancedMapConcat(chunks, MonospaceBlock);
    CountStartsMapConcat(chunks, MonospaceBlock, W("p"), 1);
  }

  // ---------------------------------------------------------------------
  // Placeholder substitution

  /** The template tokens with the placeholder token replaced by the chunk. */
  function PasteChunk(tt: seq<Token>, index: nat): string -> seq<Token>
  {
    (chunk: string) => if index < |tt| then tt[index := TextToken(chunk)] else tt
  }

  /**
   * What `render_and_paste_tokens` returns: the template unchanged when
   * evaluation fails, nothing when it renders to the empty string, and
   * otherwise one copy of the template per chunk of the rendered text.
   * Indexing past the template is Rust's index panic.
   */
  function PasteOf(tt: seq<Token>, text: string, index: nat, evaluate: string -> Option<string>): Result<seq<Token>, Error>
  {
    match evaluate(text)
    case None => Success(tt)
    case Some(rendered) =>
      if rendered == [] then Success([])
      else if index >= |tt| then Failure(Panic("index out of bounds"))
      else Success(MapConcat(SplitStringByEmptyLine(rendered), PasteChunk(tt, index)))
  }

  /** `render_and_paste_tokens`, with the Handlebars evaluation as a parameter. */
  method RenderAndPasteTokens(tt: seq<Token>, text: string, index: nat, evaluate: string -> Option<string>)
    returns (r: Result<seq<Token>, Error>)
    ensures r == PasteOf(tt, text, index, evaluate)
  {
    var rendered := evaluate(text);
    if rendered.None? {
      return Success(tt);
    }
    var result: seq<Token> := [];
    if rendered.value != [] {
      var chunks := SplitStringByEmptyLine(rendered.value);
      for i := 0 to |chunks|
        invariant index < |tt| ==> result == MapConcat(chunks[..i], PasteChunk(tt, index))
      {
        assert chunks[..i + 1][..i] == chunks[..i];
        if index >= |tt| {
          return Failure(Panic("index out of bounds"));
        }
        var chunkTokens := tt;
        chunkTokens := chunkTokens[index := TextToken(chunks[i])];
        result := result + chunkTokens;
      }
      assert chunks[..|chunks|] == chunks;
      if index >= |tt| {
        return Failure(Panic("index out of bounds"));
      }
    }
    return Success(result);
  }

  /**
   * For a non-empty rendering, chunk `k` occupies the `k`-th copy of the
   * template, and that copy differs from the template only at the
   * placeholder, which holds the chunk as Normal character data.
   */
  lemma PasteCopies(tt: seq<Token>, text: string, index: nat, evaluate: string -> Option<string>, k: nat, j: nat)
    requires PasteOf(tt, text, index, evaluate).Success?
    requires evaluate(text).Some? && evaluate(text).value != []
    requires k < |SplitStringByEmptyLine(evaluate(text).value)| && j < |tt|
    ensures var chunks := SplitStringByEmptyLine(evaluate(text).value);
      var r := PasteOf(tt, text, index, evaluate).value;
      && |r| == |chunks| * |tt|
      && k * |tt| + j < |r|
      && r[k * |tt| + j] == if j == index then TextToken(chunks[k]) else tt[j]
  {
    var chunks := SplitStringByEmptyLine(evaluate(text).value);
    var f := PasteChunk(tt, index);
    MapConcatLength(chunks, f, |tt|);
    MapConcatBlock(chunks, f, |tt|, k);
    var r := MapConcat(chunks, f);
    assert |tt| * |chunks| == |chunks| * |tt|;
    assert r[k * |tt|..k * |tt| + |tt|][j] == r[k * |tt| + j];
  }

  // ---------------------------------------------------------------------
  // Pixels to EMU

  const U32_MODULUS: nat := 0x1_0000_0000

  /** EMU per inch (914400) over pixels per inch (72). */
  const EMU_PER_PIXEL: nat := 12700

  /**
   * `pixels_to_word_emu` as written: `pixels * 914_400 / 72 + 2540` in
   * `u32`, so the product wraps (release build) once it passes 2^32.
   */
  function PixelsToWordEmuAsWritten(pixels: nat): (r: nat)
    requires pixels <= U32_MAX
    ensures r < U32_MODULUS
  {
    ((pixels * 914400) % U32_MODULUS) / 72 + 2540
  }

  lemma ScaleDivides(pixels: nat)
    ensures (pixels * 914400) / 72 == EMU_PER_PIXEL * pixels
  {
    assert pixels * 914400 == (EMU_PER_PIXEL * pixels) * 72;
  }

  /** The conversion computed without overflow: 12700 EMU per pixel plus the 2540 EMU border. */
  function PixelsToWordEmu(pixels: nat): (r: nat)
    ensures (r - 2540) * 72 == pixels * 914400
    ensures r == EMU_PER_PIXEL * pixels + 2540
  {
    ScaleDivides(pixels);
    pixels * 914400 / 72 + 2540
  }

  /** The written conversion agrees with the exact one exactly up to 4697 pixels. */
  lemma PixelsToWordEmuOverflow(pixels: nat)
    requires pixels <= U32_MAX
    ensures PixelsToWordEmuAsWritten(pixels) == PixelsToWordEmu(pixels) <==> pixels <= 4697
  {
    if pixels <= 4697 {
      assert pixels * 914400 <= 4697 * 914400;
      assert (pixels * 914400) % U32_MODULUS == pixels * 914400;
      ScaleDivides(pixels);
    } else {
      assert EMU_PER_PIXEL * pixels >= EMU_PER_PIXEL * 4698;
      assert ((pixels * 914400) % U32_MODULUS) / 72 <= (U32_MODULUS - 1) / 72;
    }
  }

  /** A 4698-pixel image: the exact extent is 59667140 EMU, the written one 14816. */
  lemma PixelsToWordEmuCounterexample()
    ensures PixelsToWordEmu(4698) == 59667140
    ensures PixelsToWordEmuAsWritten(4698) == 14816
  {
    assert 4698 * 914400 == U32_MODULUS + 883904;
  }

  // ---------------------------------------------------------------------
  // Image paragraphs (DrawingML pictures, ECMA-376 Part 1, section 20.4)

  function Wp(localName: string): Name { Name(Some("wp"), Some(NS_WPD_ML), localName) }

  function A(localName: string): Name { Name(Some("a"), Some(NS_DWML_MAIN), localName) }

  function Pic(localName: string): Name { Name(Some("pic"), Some(NS_DWML_PIC), localName) }

  /** The `a:blip` reference to the image part, an `r:embed` relationship id. */
  function EmbedAttr(relationshipId: string): Attribute
  {
    Attribute(Name(Some("r"), Some(NS_REL), "embed"), relationshipId)
  }

  function ExtentAttrs(widthEmu: string, heightEmu: string): seq<Attribute>
  {
    [PlainAttr("cx", widthEmu), PlainAttr("cy", heightEmu)]
  }

  function DocPrAttrs(serial: nat): seq<Attribute>
  {
    [PlainAttr("id", NatToString(10000 + serial)), PlainAttr("name", "Figure " + NatToString(serial))]
  }

  function PictureNonVisual(): seq<Token>
  {
    Elem(Pic("nvPicPr"), [],
      Elem(Pic("cNvPr"), [PlainAttr("id", "1"), PlainAttr("name", "Picture 1")], [])
      + Elem(Pic("cNvPicPr"), [],
          Elem(A("picLocks"), [PlainAttr("noChangeAspect", "1"), PlainAttr("noChangeArrowheads", "1")], [])))
  }

  function PictureBlipFill(relationshipId: string): seq<Token>
  {
    Elem(Pic("blipFill"), [],
      Elem(A("blip"), [EmbedAttr(relationshipId)], [])
      + Elem(A("srcRect"), [], [])
      + Elem(A("stretch"), [], Elem(A("fillRect"), [], [])))
  }

  function PictureShape(widthEmu: string, heightEmu: string): seq<Token>
  {
    Elem(Pic("spPr"), [PlainAttr("bwMode", "auto")],
      Elem(A("xfrm"), [],
        Elem(A("off"), [PlainAttr("x", "0"), PlainAttr("y", "0")], [])
        + Elem(A("ext"), ExtentAttrs(widthEmu, heightEmu), []))
      + Elem(A("prstGeom"), [PlainAttr("prst", "rect")], [])
      + Elem(A("noFill"), [], []))
  }

  function InlineDrawing(relationshipId: string, widthEmu: string, heightEmu: string, serial: nat): seq<Token>
  {
    Elem(Wp("inline"), [PlainAttr("distT", "0"), PlainAttr("distB", "0"), PlainAttr("distL", "0"), PlainAttr("distR", "0")],
      Elem(Wp("extent"), ExtentAttrs(widthEmu, heightEmu), [])
      + Elem(Wp("effectExtent"), [PlainAttr("l", "0"), PlainAttr("t", "0"), PlainAttr("r", "3810"), PlainAttr("b", "3810")], [])
      + Elem(Wp("docPr"), DocPrAttrs(serial), [])
      + Elem(A("graphic"), [],
          Elem(A("graphicData"), [PlainAttr("uri", NS_DWML_PIC)],
            Elem(Pic("pic"), [],
              PictureNonVisual() + PictureBlipFill(relationshipId) + PictureShape(widthEmu, heightEmu)))))
  }

  /**
   * `image_paragraph_tokens`: a paragraph holding one run whose drawing
   * shows the related image inline, sized from pixels to EMU.
   */
  function ImageParagraphTokens(relationshipId: string, width: nat, height: nat, serial: nat): seq<Token>
  {
    var widthEmu := NatToString(PixelsToWordEmu(width));
    var heightEmu := NatToString(PixelsToWordEmu(height));
    Elem(W("p"), [],
      Elem(W("r"), [],
        Elem(W("rPr"), [], Elem(W("noProof"), [], []))
        + Elem(W("drawing"), [], InlineDrawing(relationshipId, widthEmu, heightEmu, serial))))
  }

  lemma EmptyElemBalanced(n: Name, attrs: seq<Attribute>)
    ensures Balanced(Elem(n, attrs, [])) && |Elem(n, attrs, [])| == 2
  {
    BalancedEmpty();
    BalancedElem(n, attrs, []);
  }

  lemma PictureNonVisualBalanced()
    ensures Balanced(PictureNonVisual()) && |PictureNonVisual()| == 8
  {
    var c := Elem(Pic("cNvPr"), [PlainAttr("id", "1"), PlainAttr("name", "Picture 1")], []);
    var l := Elem(A("picLocks"), [PlainAttr("noChangeAspect", "1"), PlainAttr("noChangeArrowheads", "1")], []);
    EmptyElemBalanced(Pic("cNvPr"), [PlainAttr("id", "1"), PlainAttr("name", "Picture 1")]);
    EmptyElemBalanced(A("picLocks"), [PlainAttr("noChangeAspect", "1"), PlainAttr("noChangeArrowheads", "1")]);
    BalancedElem(Pic("cNvPicPr"), [], l);
    BalancedConcat(c, Elem(Pic("cNvPicPr"), [], l));
    BalancedElem(Pic("nvPicPr"), [], c + Elem(Pic("cNvPicPr"), [], l));
  }

  lemma PictureBlipFillBalanced(relationshipId: string)
    ensures Balanced(PictureBlipFill(relationshipId)) && |PictureBlipFill(relationshipId)| == 10
  {
    var b := Elem(A("blip"), [EmbedAttr(relationshipId)], []);
    var sr := Elem(A("srcRect"), [], []);
    var f := Elem(A("fillRect"), [], []);
    EmptyElemBalanced(A("blip"), [EmbedAttr(relationshipId)]);
    EmptyElemBalanced(A("srcRect"), []);
    EmptyElemBalanced(A("fillRect"), []);
    BalancedElem(A("stretch"), [], f);
    BalancedConcat(b, sr);
    BalancedConcat(b + sr, Elem(A("stretch"), [], f));
    BalancedElem(Pic("blipFill"), [], b + sr + Elem(A("stretch"), [], f));
  }

  lemma PictureShapeBalanced(widthEmu: string, heightEmu: string)
    ensures Balanced(PictureShape(widthEmu, heightEmu)) && |PictureShape(widthEmu, heightEmu)| == 12
  {
    var off := Elem(A("off"), [PlainAttr("x", "0"), PlainAttr("y", "0")], []);
    var ext := Elem(A("ext"), ExtentAttrs(widthEmu, heightEmu), []);
    var geom := Elem(A("prstGeom"), [PlainAttr("prst", "rect")], []);
    var noFill := Elem(A("noFill"), [], []);
    EmptyElemBalanced(A("off"), [PlainAttr("x", "0"), PlainAttr("y", "0")]);
    EmptyElemBalanced(A("ext"), ExtentAttrs(widthEmu, heightEmu));
    EmptyElemBalanced(A("prstGeom"), [PlainAttr("prst", "rect")]);
    EmptyElemBalanced(A("noFill"), []);
    BalancedConcat(off, ext);
    BalancedElem(A("xfrm"), [], off + ext);
    var xfrm := Elem(A("xfrm"), [], off + ext);
    BalancedConcat(xfrm, geom);
    BalancedConcat(xfrm + geom, noFill);
    BalancedElem(Pic("spPr"), [PlainAttr("bwMode", "auto")], xfrm + geom + noFill);
  }

  lemma InlineDrawingBalanced(relationshipId: string, widthEmu: string, heightEmu: string, serial: nat)
    ensures Balanced(InlineDrawing(relationshipId, widthEmu, heightEmu, serial))
    ensures |InlineDrawing(relationshipId, widthEmu, heightEmu, serial)| == 44
  {
    PictureNonVisualBalanced();
    PictureBlipFillBalanced(relationshipId);
    PictureShapeBalanced(widthEmu, heightEmu);
    var nv, bf, sp := PictureNonVisual(), PictureBlipFill(relationshipId), PictureShape(widthEmu, heightEmu);
    BalancedConcat(nv, bf);
    BalancedConcat(nv + bf, sp);
    BalancedElem(Pic("pic"), [], nv + bf + sp);
    var pic := Elem(Pic("pic"), [], nv + bf + sp);
    BalancedElem(A("graphicData"), [PlainAttr("uri", NS_DWML_PIC)], pic);
    BalancedElem(A("graphic"), [], Elem(A("graphicData"), [PlainAttr("uri", NS_DWML_PIC)], pic));
    var graphic := Elem(A("graphic"), [], Elem(A("graphicData"), [PlainAttr("uri", NS_DWML_PIC)], pic));
    var extent := Elem(Wp("extent"), ExtentAttrs(widthEmu, heightEmu), []);
    var effect := Elem(Wp("effectExtent"), [PlainAttr("l", "0"), PlainAttr("t", "0"), PlainAttr("r", "3810"), PlainAttr("b", "3810")], []);
    var docPr := Elem(Wp("docPr"), DocPrAttrs(serial), []);
    EmptyElemBalanced(Wp("extent"), ExtentAttrs(widthEmu, heightEmu));
    EmptyElemBalanced(Wp("effectExtent"), [PlainAttr("l", "0"), PlainAttr("t", "0"), PlainAttr("r", "3810"), PlainAttr("b", "3810")]);
    EmptyElemBalanced(Wp("docPr"), DocPrAttrs(serial));
    BalancedConcat(extent, effect);
    BalancedConcat(extent + effect, docPr);
    BalancedConcat(extent + effect + docPr, graphic);
    BalancedElem(Wp("inline"), [PlainAttr("distT", "0"), PlainAttr("distB", "0"), PlainAttr("distL", "0"), PlainAttr("distR", "0")],
      extent + effect + docPr + graphic);
  }

  /** Every token is a Normal token without text, as the builders make them. */
  predicate Plain(ts: seq<Token>)
  {
    forall k :: 0 <= k < |ts| ==> ts[k].tokenType == Normal && ts[k].tokenText.None?
  }

  lemma PlainConcat(a: seq<Token>, b: seq<Token>)
    requires Plain(a) && Plain(b)
    ensures Plain(a + b)
  {
    assert forall k :: |a| <= k < |a + b| ==> (a + b)[k] == b[k - |a|];
  }

  lemma PlainElem(n: Name, attrs: seq<Attribute>, inner: seq<Token>)
    requires Plain(inner)
    ensures Plain(Elem(n, attrs, inner))
  {
    PlainConcat([Open(n, attrs)], inner);
    PlainConcat([Open(n, attrs)] + inner, [Close(n)]);
  }

  lemma PictureNonVisualPlain()
    ensures Plain(PictureNonVisual())
  {
    var e: seq<Token> := [];
    var c := Elem(Pic("cNvPr"), [PlainAttr("id", "1"), PlainAttr("name", "Picture 1")], e);
    var l := Elem(A("picLocks"), [PlainAttr("noChangeAspect", "1"), PlainAttr("noChangeArrowheads", "1")], e);
    PlainElem(Pic("cNvPr"), [PlainAttr("id", "1"), PlainAttr("name", "Picture 1")], e);
    PlainElem(A("picLocks"), [PlainAttr("noChangeAspect", "1"), PlainAttr("noChangeArrowheads", "1")], e);
    PlainElem(Pic("cNvPicPr"), [], l);
    PlainConcat(c, Elem(Pic("cNvPicPr"), [], l));
    PlainElem(Pic("nvPicPr"), [], c + Elem(Pic("cNvPicPr"), [], l));
  }

  lemma PictureBlipFillPlain(relationshipId: string)
    ensures Plain(PictureBlipFill(relationshipId))
  {
    var e: seq<Token> := [];
    var b := Elem(A("blip"), [EmbedAttr(relationshipId)], e);
    var sr := Elem(A("srcRect"), [], e);
    var f := Elem(A("fillRect"), [], e);
    PlainElem(A("blip"), [EmbedAttr(relationshipId)], e);
    PlainElem(A("srcRect"), [], e);
    PlainElem(A("fillRect"), [], e);
    PlainElem(A("stretch"), [], f);
    PlainConcat(b, sr);
    PlainConcat(b + sr, Elem(A("stretch"), [], f));
    PlainElem(Pic("blipFill"), [], b + sr + Elem(A("stretch"), [], f));
  }

  lemma PictureShapePlain(widthEmu: string, heightEmu: string)
    ensures Plain(PictureShape(widthEmu, heightEmu))
  {
    var e: seq<Token> := [];
    var off := Elem(A("off"), [PlainAttr("x", "0"), PlainAttr("y", "0")], e);
    var ext := Elem(A("ext"), ExtentAttrs(widthEmu, heightEmu), e);
    var geom := Elem(A("prstGeom"), [PlainAttr("prst", "rect")], e);
    var noFill := Elem(A("noFill"), [], e);
    PlainElem(A("off"), [PlainAttr("x", "0"), PlainAttr("y", "0")], e);
    PlainElem(A("ext"), ExtentAttrs(widthEmu, heightEmu), e);
    PlainElem(A("prstGeom"), [PlainAttr("prst", "rect")], e);
    PlainElem(A("noFill"), [], e);
    PlainConcat(off, ext);
    PlainElem(A("xfrm"), [], off + ext);
    var xfrm := Elem(A("xfrm"), [], off + ext);
    PlainConcat(xfrm, geom);
    PlainConcat(xfrm + geom, noFill);
    PlainElem(Pic("spPr"), [PlainAttr("bwMode", "auto")], xfrm + geom + noFill);
  }

  lemma InlineDrawingPlain(relationshipId: string, widthEmu: string, heightEmu: string, serial: nat)
    ensures Plain(InlineDrawing(relationshipId, widthEmu, heightEmu, serial))
  {
    var e: seq<Token> := [];
    var nv, bf, sp := PictureNonVisual(), PictureBlipFill(relationshipId), PictureShape(widthEmu, heightEmu);
    PictureNonVisualPlain();
    PictureBlipFillPlain(relationshipId);
    PictureShapePlain(widthEmu, heightEmu);
    PlainConcat(nv, bf);
    PlainConcat(nv + bf, sp);
    PlainElem(Pic("pic"), [], nv + bf + sp);
    var pic := Elem(Pic("pic"), [], nv + bf + sp);
    PlainElem(A("graphicData"), [PlainAttr("uri", NS_DWML_PIC)], pic);
    PlainElem(A("graphic"), [], Elem(A("graphicData"), [PlainAttr("uri", NS_DWML_PIC)], pic));
    var graphic := Elem(A("graphic"), [], Elem(A("graphicData"), [PlainAttr("uri", NS_DWML_PIC)], pic));
    var extent := Elem(Wp("extent"), ExtentAttrs(widthEmu, heightEmu), e);
    var effect := Elem(Wp("effectExtent"), [PlainAttr("l", "0"), PlainAttr("t", "0"), PlainAttr("r", "3810"), PlainAttr("b", "3810")], e);
    var docPr := Elem(Wp("docPr"), DocPrAttrs(serial), e);
    PlainElem(Wp("extent"), ExtentAttrs(widthEmu, heightEmu), e);
    PlainElem(Wp("effectExtent"), [PlainAttr("l", "0"), PlainAttr("t", "0"), PlainAttr("r", "3810"), PlainAttr("b", "3810")], e);
    PlainElem(Wp("docPr"), DocPrAttrs(serial), e);
    PlainConcat(extent, effect);
    PlainConcat(extent + effect, docPr);
    PlainConcat(extent + effect + docPr, graphic);
    PlainElem(Wp("inline"), [PlainAttr("distT", "0"), PlainAttr("distB", "0"), PlainAttr("distL", "0"), PlainAttr("distR", "0")],
      extent + effect + docPr + graphic);
  }

  /** The inline drawing carries the sizes, the drawing properties and the image reference. */
  lemma InlineDrawingCarries(relationshipId: string, widthEmu: string, heightEmu: string, serial: nat)
    ensures var inl := InlineDrawing(relationshipId, widthEmu, heightEmu, serial);
      && Open(Wp("extent"), ExtentAttrs(widthEmu, heightEmu)) in inl
      && Open(A("ext"), ExtentAttrs(widthEmu, heightEmu)) in inl
      && Open(Wp("docPr"), DocPrAttrs(serial)) in inl
      && Open(A("blip"), [EmbedAttr(relationshipId)]) in inl
  {
    var bf := PictureBlipFill(relationshipId);
    assert Open(A("blip"), [EmbedAttr(relationshipId)]) in bf by {
      assert bf[1] == Open(A("blip"), [EmbedAttr(relationshipId)]);
    }
    var sp := PictureShape(widthEmu, heightEmu);
    assert Open(A("ext"), ExtentAttrs(widthEmu, heightEmu)) in sp by {
      var xfrmInner := Elem(A("off"), [PlainAttr("x", "0"), PlainAttr("y", "0")], []) + Elem(A("ext"), ExtentAttrs(widthEmu, heightEmu), []);
      assert xfrmInner[2] == Open(A("ext"), ExtentAttrs(widthEmu, heightEmu));
      assert Open(A("ext"), ExtentAttrs(widthEmu, heightEmu)) in Elem(A("xfrm"), [], xfrmInner);
    }
  }

  /**
   * An image paragraph is 54 balanced Normal tokens; its extent and its
   * shape both carry the converted width and height, its drawing
   * properties the offset serial id and the figure name, and its blip the
   * relationship id.
   */
  lemma ImageParagraphShape(relationshipId: string, width: nat, height: nat, serial: nat)
    ensures var r := ImageParagraphTokens(relationshipId, width, height, serial);
      var attrs := ExtentAttrs(NatToString(PixelsToWordEmu(width)), NatToString(PixelsToWordEmu(height)));
      && |r| == 54 && Balanced(r) && Plain(r)
      && IsStartOf(r[0], W("p")) && IsEndOf(r[53], W("p"))
      && Open(Wp("extent"), attrs) in r
      && Open(A("ext"), attrs) in r
      && Open(Wp("docPr"), DocPrAttrs(serial)) in r
      && Open(A("blip"), [EmbedAttr(relationshipId)]) in r
  {
    var widthEmu := NatToString(PixelsToWordEmu(width));
    var heightEmu := NatToString(PixelsToWordEmu(height));
    var inl := InlineDrawing(relationshipId, widthEmu, heightEmu, serial);
    InlineDrawingBalanced(relationshipId, widthEmu, heightEmu, serial);
    InlineDrawingCarries(relationshipId, widthEmu, heightEmu, serial);
    ImageParagraphBalanced(relationshipId, width, height, serial);
    ImageParagraphPlain(relationshipId, width, height, serial);
    assert ImageParagraphTokens(relationshipId, width, height, serial) == PictureParagraph(inl);
    PictureParagraphFrame(inl);
  }

  /** The wrapper adds ten tokens, opens and closes the paragraph, and keeps every drawing token. */
  lemma PictureParagraphFrame(inl: seq<Token>)
    ensures var r := PictureParagraph(inl);
      && |r| == |inl| + 10
      && IsStartOf(r[0], W("p")) && IsEndOf(r[|inl| + 9], W("p"))
      && forall t :: t in inl ==> t in r
  {
    var r := PictureParagraph(inl);
    assert r[7..7 + |inl|] == inl;
  }

  /** The paragraph and run that wrap a drawing. */
  function PictureParagraph(inl: seq<Token>): seq<Token>
  {
    Elem(W("p"), [],
      Elem(W("r"), [],
        Elem(W("rPr"), [], Elem(W("noProof"), [], []))
        + Elem(W("drawing"), [], inl)))
  }

  lemma ImageParagraphBalanced(relationshipId: string, width: nat, height: nat, serial: nat)
    ensures Balanced(ImageParagraphTokens(relationshipId, width, height, serial))
  {
    var widthEmu := NatToString(PixelsToWordEmu(width));
    var heightEmu := NatToString(PixelsToWordEmu(height));
    var inl := InlineDrawing(relationshipId, widthEmu, heightEmu, serial);
    InlineDrawingBalanced(relationshipId, widthEmu, heightEmu, serial);
    PictureParagraphBalanced(inl);
    assert ImageParagraphTokens(relationshipId, width, height, serial) == PictureParagraph(inl);
  }

  lemma PictureParagraphBalanced(inl: seq<Token>)
    requires Balanced(inl)
    ensures Balanced(PictureParagraph(inl))
  {
    var noProof := Elem(W("noProof"), [], []);
    EmptyElemBalanced(W("noProof"), []);
    BalancedElem(W("rPr"), [], noProof);
    BalancedElem(W("drawing"), [], inl);
    var rPr := Elem(W("rPr"), [], noProof);
    var drawing := Elem(W("drawing"), [], inl);
    BalancedConcat(rPr, drawing);
    BalancedElem(W("r"), [], rPr + drawing);
    BalancedElem(W("p"), [], Elem(W("r"), [], rPr + drawing));
  }

  lemma ImageParagraphPlain(relationshipId: string, width: nat, height: nat, serial: nat)
    ensures Plain(ImageParagraphTokens(relationshipId, width, height, serial))
  {
    var widthEmu := NatToString(PixelsToWordEmu(width));
    var heightEmu := NatToString(PixelsToWordEmu(height));
    var inl := InlineDrawing(relationshipId, widthEmu, heightEmu, serial);
    InlineDrawingPlain(relationshipId, widthEmu, heightEmu, serial);
    PictureParagraphPlain(inl);
    assert ImageParagraphTokens(relationshipId, width, height, serial) == PictureParagraph(inl);
  }

  lemma PictureParagraphPlain(inl: seq<Token>)
    requires Plain(inl)
    ensures Plain(PictureParagraph(inl))
  {
    var noProof := Elem(W("noProof"), [], []);
    var rPr := Elem(W("rPr"), [], noProof);
    var drawing := Elem(W("drawing"), [], inl);
    PlainElem(W("noProof"), [], []);
    PlainElem(W("rPr"), [], noProof);
    PlainElem(W("drawing"), [], inl);
    PlainConcat(rPr, drawing);
    PlainElem(W("r"), [], rPr + drawing);
    PlainElem(W("p"), [], Elem(W("r"), [], rPr + drawing));
  }

  // ---------------------------------------------------------------------
  // Relationship ids

  /** A picture to add to the package, as `ImageFileContents` (lib.rs). */
  datatype FileContents = FileContents(filename: string, payload: Bytes)

  datatype ImageFileContents = ImageFileContents(fileContents: FileContents, height: nat, width: nat)

  /** The number in a relationship id: the text after its first three characters (`rId`), a `usize`. */
  function IdNumber(value: string): (r: Result<nat, Error>)
    ensures r.Success? <==> |value| >= 3 && ParseUnsigned(value[3..], USIZE_MAX).Some?
    ensures r.Success? ==> r.value <= USIZE_MAX
  {
    if |value| < 3 then Failure(Panic("byte index 3 is out of range"))
    else
      match ParseUnsigned(value[3..], USIZE_MAX)
      case None => Failure(Panic("called `Result::unwrap()` on an `Err` value"))
      case Some(n) => Success(n)
  }

  function Max(a: nat, b: nat): nat { if a < b then b else a }

  /** The running maximum over the `Id` attributes of one start element. */
  function AttrsMaxFrom(attrs: seq<Attribute>, latest: nat): Result<nat, Error>
    decreases |attrs|
  {
    if attrs == [] then Success(latest)
    else if attrs[0].name.localName == "Id" then
      var n :- IdNumber(attrs[0].value);
      AttrsMaxFrom(attrs[1..], Max(latest, n))
    else AttrsMaxFrom(attrs[1..], latest)
  }

  /** The running maximum over the `Id` attributes of all start elements. */
  function TokensMaxFrom(ts: seq<Token>, latest: nat): Result<nat, Error>
    decreases |ts|
  {
    if ts == [] then Success(latest)
    else
      var next :- if ts[0].event.StartElement? then AttrsMaxFrom(ts[0].event.attributes, latest) else Success(latest);
      TokensMaxFrom(ts[1..], next)
  }

  /** What `get_last_id_number_for_document_xml_rels` returns: 0 when there is no id, a panic on the first id that does not parse. */
  function LastIdNumber(ts: seq<Token>): Result<nat, Error>
  {
    TokensMaxFrom(ts, 0)
  }

  /** `get_last_id_number_for_document_xml_rels` */
  method GetLastIdNumber(ts: seq<Token>) returns (r: Result<nat, Error>)
    ensures r == LastIdNumber(ts)
  {
    var latest: nat := 0;
    for i := 0 to |ts|
      invariant LastIdNumber(ts) == TokensMaxFrom(ts[i..], latest)
    {
      assert ts[i..][0] == ts[i] && ts[i..][1..] == ts[i + 1..];
      if ts[i].event.StartElement? {
        var attrs := ts[i].event.attributes;
        ghost var start := latest;
        for j := 0 to |attrs|
          invariant AttrsMaxFrom(attrs, start) == AttrsMaxFrom(attrs[j..], latest)
        {
          assert attrs[j..][0] == attrs[j] && attrs[j..][1..] == attrs[j + 1..];
          if attrs[j].name.localName == "Id" {
            var n := IdNumber(attrs[j].value);
            if n.Failure? {
              return n.PropagateFailure();
            }
            latest := Max(latest, n.value);
          }
        }
      }
    }
    return Success(latest);
  }

  /** An `Id` attribute of a start element: token `i`, attribute `k`. */
  predicate IsIdAttr(ts: seq<Token>, i: int, k: int)
  {
    0 <= i < |ts| && ts[i].event.StartElement? && 0 <= k < |ts[i].event.attributes|
    && ts[i].event.attributes[k].name.localName == "Id"
  }

  function IdAt(ts: seq<Token>, i: int, k: int): string
    requires IsIdAttr(ts, i, k)
  {
    ts[i].event.attributes[k].value
  }

  lemma {:induction false} AttrsMaxFromFacts(attrs: seq<Attribute>, latest: nat)
    ensures AttrsMaxFrom(attrs, latest).Failure? <==>
      exists k :: 0 <= k < |attrs| && attrs[k].name.localName == "Id" && IdNumber(attrs[k].value).Failure?
    ensures AttrsMaxFrom(attrs, latest).Success? ==>
      var m := AttrsMaxFrom(attrs, latest).value;
      && latest <= m
      && (forall k :: 0 <= k < |attrs| && attrs[k].name.localName == "Id" ==> IdNumber(attrs[k].value).value <= m)
      && (m == latest || exists k :: 0 <= k < |attrs| && attrs[k].name.localName == "Id" && IdNumber(attrs[k].value).value == m)
    decreases |attrs|
  {
    if attrs != [] {
      var tail := attrs[1..];
      assert forall k :: 1 <= k < |attrs| ==> attrs[k] == tail[k - 1];
      if attrs[0].name.localName == "Id" {
        var n := IdNumber(attrs[0].value);
        if n.Success? {
          AttrsMaxFromFacts(tail, Max(latest, n.value));
          if AttrsMaxFrom(tail, Max(latest, n.value)).Failure? {
            var k :| 0 <= k < |tail| && tail[k].name.localName == "Id" && IdNumber(tail[k].value).Failure?;
            assert attrs[k + 1] == tail[k];
          } else {
            var m := AttrsMaxFrom(tail, Max(latest, n.value)).value;
            if m != Max(latest, n.value) {
              var k :| 0 <= k < |tail| && tail[k].name.localName == "Id" && IdNumber(tail[k].value).value == m;
              assert attrs[k + 1] == tail[k];
            }
          }
        }
      } else {
        AttrsMaxFromFacts(tail, latest);
        if AttrsMaxFrom(tail, latest).Failure? {
          var k :| 0 <= k < |tail| && tail[k].name.localName == "Id" && IdNumber(tail[k].value).Failure?;
          assert attrs[k + 1] == tail[k];
        } else {
          var m := AttrsMaxFrom(tail, latest).value;
          if m != latest {
            var k :| 0 <= k < |tail| && tail[k].name.localName == "Id" && IdNumber(tail[k].value).value == m;
            assert attrs[k + 1] == tail[k];
          }
        }
      }
    }
  }

  /** The `Id` attributes of the tokens after the first are those of the whole sequence, shifted by one. */
  lemma IdAttrsOfTail(ts: seq<Token>)
    requires ts != []
    ensures forall i, k :: IsIdAttr(ts[1..], i, k) ==> IsIdAttr(ts, i + 1, k) && IdAt(ts, i + 1, k) == IdAt(ts[1..], i, k)
    ensures forall i, k :: IsIdAttr(ts, i, k) ==> i == 0 || (IsIdAttr(ts[1..], i - 1, k) && IdAt(ts[1..], i - 1, k) == IdAt(ts, i, k))
  {
  }

  /** The first token's contribution to the running maximum. */
  function HeadMax(t: Token, latest: nat): Result<nat, Error>
  {
    if t.event.StartElement? then AttrsMaxFrom(t.event.attributes, latest) else Success(latest)
  }

  lemma {:induction false} TokensMaxFromFails(ts: seq<Token>, latest: nat)
    ensures TokensMaxFrom(ts, latest).Failure? <==> exists i, k :: IsIdAttr(ts, i, k) && IdNumber(IdAt(ts, i, k)).Failure?
    decreases |ts|
  {
    if ts != [] {
      var tail := ts[1..];
      IdAttrsOfTail(ts);
      var head := HeadMax(ts[0], latest);
      if ts[0].event.StartElement? {
        AttrsMaxFromFacts(ts[0].event.attributes, latest);
      }
      if head.Failure? {
        var k :| 0 <= k < |ts[0].event.attributes| && ts[0].event.attributes[k].name.localName == "Id"
          && IdNumber(ts[0].event.attributes[k].value).Failure?;
        assert IsIdAttr(ts, 0, k);
      } else {
        TokensMaxFromFails(tail, head.value);
        if TokensMaxFrom(tail, head.value).Failure? {
          var i, k :| IsIdAttr(tail, i, k) && IdNumber(IdAt(tail, i, k)).Failure?;
          assert IsIdAttr(ts, i + 1, k);
        }
      }
    }
  }

  lemma {:induction false} TokensMaxFromBound(ts: seq<Token>, latest: nat)
    requires TokensMaxFrom(ts, latest).Success?
    ensures var m := TokensMaxFrom(ts, latest).value;
      && latest <= m
      && (forall i, k :: IsIdAttr(ts, i, k) ==> IdNumber(IdAt(ts, i, k)).Success? && IdNumber(IdAt(ts, i, k)).value <= m)
      && (m == latest || exists i, k :: IsIdAttr(ts, i, k) && IdNumber(IdAt(ts, i, k)).Success? && IdNumber(IdAt(ts, i, k)).value == m)
    decreases |ts|
  {
    if ts != [] {
      var tail := ts[1..];
      IdAttrsOfTail(ts);
      var head := HeadMax(ts[0], latest);
      if ts[0].event.StartElement? {
        AttrsMaxFromFacts(ts[0].event.attributes, latest);
      }
      TokensMaxFromBound(tail, head.value);
      var m := TokensMaxFrom(tail, head.value).value;
      if m != head.value {
        var i, k :| IsIdAttr(tail, i, k) && IdNumber(IdAt(tail, i, k)).Success? && IdNumber(IdAt(tail, i, k)).value == m;
        assert IsIdAttr(ts, i + 1, k);
      } else if m != latest {
        var k :| 0 <= k < |ts[0].event.attributes| && ts[0].event.attributes[k].name.localName == "Id"
          && IdNumber(ts[0].event.attributes[k].value).value == m;
        assert IsIdAttr(ts, 0, k);
      }
    }
  }

  /**
   * The last id number is the largest number among the `Id` attributes of
   * the start elements (0 when there is none), and the scan panics exactly
   * when one of them is not `rId` followed by a `usize`.
   */
  lemma LastIdNumberIsMax(ts: seq<Token>)
    ensures LastIdNumber(ts).Failure? <==> exists i, k :: IsIdAttr(ts, i, k) && IdNumber(IdAt(ts, i, k)).Failure?
    ensures LastIdNumber(ts).Success? ==>
      var m := LastIdNumber(ts).value;
      && (forall i, k :: IsIdAttr(ts, i, k) ==> IdNumber(IdAt(ts, i, k)).value <= m)
      && (m == 0 || exists i, k :: IsIdAttr(ts, i, k) && IdNumber(IdAt(ts, i, k)).value == m)
  {
    TokensMaxFromFails(ts, 0);
    if LastIdNumber(ts).Success? {
      TokensMaxFromBound(ts, 0);
    }
  }

  // ---------------------------------------------------------------------
  // The relationships part and the content-types part (ECMA-376 Part 2)

  const IMAGE_RELATIONSHIP_TYPE: string := "http://schemas.openxmlformats.org/officeDocument/2006/relationships/image"

  function Relationship(): Name { Name(None, None, "Relationship") }

  function RelationshipAttrs(relId: string, image: ImageFileContents): seq<Attribute>
  {
    [PlainAttr("Id", relId), PlainAttr("Type", IMAGE_RELATIONSHIP_TYPE), PlainAttr("Target", "media/" + image.fileContents.filename)]
  }

  /** One `Relationship` element for a map entry: its key is the id, its file sits under `media/`. */
  function RelationshipTokens(entry: (string, ImageFileContents)): seq<Token>
  {
    Elem(Relationship(), RelationshipAttrs(entry.0, entry.1), [])
  }

  /**
   * What `insert_images_in_document_xml_rels` returns: the part without its
   * last two tokens, one relationship per image in key order, then the last
   * two tokens. Fewer than two tokens is a panic, and so is an `Id` in the
   * retained part that does not parse, since the (unused) maximum id is
   * computed with `unwrap`.
   */
  function RelsWithImages(ts: seq<Token>, images: SortedMap.Pairs<ImageFileContents>): Result<seq<Token>, Error>
  {
    if |ts| < 2 then Failure(Panic("attempt to subtract with overflow"))
    else
      var prequel := ts[..|ts| - 2];
      match LastIdNumber(prequel)
      case Failure(e) => Failure(e)
      case Success(_) => Success(prequel + MapConcat(images, RelationshipTokens) + ts[|ts| - 2..])
  }

  /** `insert_images_in_document_xml_rels` */
  method InsertImagesInDocumentXmlRels(ts: seq<Token>, images: SortedMap.Pairs<ImageFileContents>)
    returns (r: Result<seq<Token>, Error>)
    ensures r == RelsWithImages(ts, images)
  {
    if |ts| < 2 {
      return Failure(Panic("attempt to subtract with overflow"));
    }
    var prequel := ts[..|ts| - 2];
    var sequel := ts[|ts| - 2..];
    var latest := GetLastIdNumber(prequel);
    if latest.Failure? {
      return Failure(latest.error);
    }
    var result := prequel;
    for i := 0 to |images|
      invariant result == prequel + MapConcat(images[..i], RelationshipTokens)
    {
      assert images[..i + 1][..i] == images[..i];
      var (relId, image) := images[i];
      result := result + [Open(Relationship(), RelationshipAttrs(relId, image))];
      result := result + [Close(Relationship())];
    }
    assert images[..|images|] == images;
    result := result + sequel;
    return Success(result);
  }

  /**
   * The patched part keeps all tokens of the original, adds two per image,
   * places the `k`-th image's relationship (in key order) right after the
   * retained prefix, and stays balanced when the original is.
   */
  lemma RelationshipTokensShape(images: SortedMap.Pairs<ImageFileContents>)
    ensures forall i :: 0 <= i < |images| ==> |RelationshipTokens(images[i])| == 2 && Balanced(RelationshipTokens(images[i]))
  {
    forall i | 0 <= i < |images|
      ensures |RelationshipTokens(images[i])| == 2 && Balanced(RelationshipTokens(images[i]))
    {
      EmptyElemBalanced(Relationship(), RelationshipAttrs(images[i].0, images[i].1));
    }
  }

  lemma RelsWithImagesShape(ts: seq<Token>, images: SortedMap.Pairs<ImageFileContents>)
    ensures RelsWithImages(ts, images).Success? <==> |ts| >= 2 && LastIdNumber(ts[..|ts| - 2]).Success?
    ensures RelsWithImages(ts, images).Success? ==>
      var r := RelsWithImages(ts, images).value;
      var n := |ts| - 2;
      && |r| == |ts| + 2 * |images|
      && r[..n] == ts[..n]
      && r[|r| - 2..] == ts[n..]
      && (forall k :: 0 <= k < |images| ==>
            r[n + 2 * k] == Open(Relationship(), RelationshipAttrs(images[k].0, images[k].1))
            && r[n + 2 * k + 1] == Close(Relationship()))
      && (Balanced(ts) ==> Balanced(r))
  {
    if RelsWithImages(ts, images).Success? {
      var n := |ts| - 2;
      var rels := MapConcat(images, RelationshipTokens);
      var r := ts[..n] + rels + ts[n..];
      assert RelsWithImages(ts, images).value == r;
      assert |rels| == 2 * |images| by {
        RelationshipTokensShape(images);
        MapConcatLength(images, RelationshipTokens, 2);
      }
      forall k | 0 <= k < |images|
        ensures r[n + 2 * k] == Open(Relationship(), RelationshipAttrs(images[k].0, images[k].1))
        ensures r[n + 2 * k + 1] == Close(Relationship())
      {
        assert rels[k * 2..k * 2 + 2] == RelationshipTokens(images[k]) by {
          RelationshipTokensShape(images);
          MapConcatBlock(images, RelationshipTokens, 2, k);
        }
        assert r[n + 2 * k] == rels[2 * k] && r[n + 2 * k + 1] == rels[2 * k + 1];
      }
      assert r[..n] == ts[..n];
      assert r[|r| - 2..] == ts[n..];
      if Balanced(ts) {
        assert Balanced(rels) by {
          RelationshipTokensShape(images);
          BalancedMapConcat(images, RelationshipTokens);
        }
        assert ts == ts[..n] + ts[n..];
        BalancedInsert(ts[..n], rels, ts[n..]);
      }
    }
  }

  function DefaultName(): Name { Name(None, None, "Default") }

  /** The content-type default for PNG images. */
  function DefaultPng(): seq<Token>
  {
    Elem(DefaultName(), [PlainAttr("Extension", "png"), PlainAttr("ContentType", "image/png")], [])
  }

  /**
   * `insert_png_content_type`: a `Default` element for PNG right after the
   * first two tokens; fewer than two tokens is a slice panic.
   */
  function InsertPngContentType(ts: seq<Token>): (r: Result<seq<Token>, Error>)
    ensures r.Success? <==> |ts| >= 2
    ensures r.Success? ==> |r.value| == |ts| + 2 && r.value[..2] == ts[..2] && r.value[2..4] == DefaultPng() && r.value[4..] == ts[2..]
  {
    if |ts| < 2 then Failure(Panic("range end index 2 out of range"))
    else Success(ts[..2] + DefaultPng() + ts[2..])
  }

  /**
   * The insertion keeps the part balanced and adds exactly one `Default`
   * element, whether or not one for PNG is already there.
   */
  lemma InsertPngContentTypeAddsOne(ts: seq<Token>)
    requires |ts| >= 2
    ensures CountStarts(InsertPngContentType(ts).value, DefaultName()) == CountStarts(ts, DefaultName()) + 1
    ensures Balanced(ts) ==> Balanced(InsertPngContentType(ts).value)
  {
    var a, b, d, n := ts[..2], ts[2..], DefaultPng(), DefaultName();
    assert ts == a + b;
    assert InsertPngContentType(ts).value == a + d + b;
    assert CountStarts(d, n) == 1 by {
      CountStartsElem(n, [PlainAttr("Extension", "png"), PlainAttr("ContentType", "image/png")], [], n);
    }
    assert CountStarts(a + d + b, n) == CountStarts(a, n) + CountStarts(d, n) + CountStarts(b, n) by {
      CountStartsAppend(a + d, b, n);
      CountStartsAppend(a, d, n);
    }
    assert CountStarts(ts, n) == CountStarts(a, n) + CountStarts(b, n) by {
      CountStartsAppend(a, b, n);
    }
    if Balanced(ts) {
      assert Balanced(d) by {
        EmptyElemBalanced(n, [PlainAttr("Extension", "png"), PlainAttr("ContentType", "image/png")]);
      }
      BalancedInsert(a, d, b);
    }
  }
}

# textkit: a verified model of the DOCX templating engine

textkit fills Word documents (DOCX packages, i.e. zip archives of
WordprocessingML parts) with data. A template's `word/document.xml` is read as
a stream of XML events. Character data that the reader delivers in fragments is
stitched back together by a small state machine (the template accumulator), and
each stitched text is classified as a simple Handlebars placeholder
(`{{name}}`), a helper placeholder (`{{table t}}`, `{{jupyter nb}}`,
`{{markdown md}}`) or ordinary text. Every placeholder token is then widened to
its enclosing paragraph (`w:p`), its *template area*.

Rendering walks the template areas in order. It copies the tokens between
areas unchanged and renders each paragraph once:

- a simple placeholder is evaluated by Handlebars and pasted as one copy of the
  paragraph per blank-line-separated chunk of the result;
- a helper placeholder is cut out of the text and replaced by generated
  WordprocessingML: a table, the cells of a Jupyter notebook, or Markdown.

Jupyter figures become inline pictures. They are registered under fresh
relationship ids in `word/_rels/document.xml.rels`, written to `word/media/`,
and declared as PNG in `[Content_Types].xml`. The package is then rebuilt with
the new document last.

The model has one module per source file:

- `Accumulator`: `parse/accumulator.rs`.
- `Parse`: `parse/mod.rs`. It covers the tokenizer, template-area resolution and page geometry.
- `Render`: `render/mod.rs`. It covers the zip patching, the paragraph, heading, picture, relationship and content-type generators, and placeholder pasting.
- `Template`: `template/mod.rs`.
- `DatakitTable`, `Markdown` and `JupyterNb`: the three generators of the same names.
- `LegacyDocx`: the older single-file generator, `textkit-docx/src/lib.rs`.
- `PrototypeWord`: the prototype, `textkit-word/src/lib.rs`.

Several modules are shared:

- `Engine` holds the area pass and the placeholder loop. The current and the older `render` share them. The prototype's pass is proved equal to it wherever areas start at distinct positions.
- `Xml` models events, tokens and element nesting.
- `Text`, `Seqs` and `SortedMap` are helpers. `SortedMap` stands in for `BTreeMap`.
- `Wrappers`, `Errors` and `Patterns` hold the result type, the error type and the placeholder regexes.

Rust panics (`unwrap` on `Err`/`None`, slices out of range or out of order,
indexing past the end) are results `Failure(Panic(reason))`. Everything the
engine hands to a library enters as a parameter:

- the XML reader's event stream and the XML writer;
- the Handlebars evaluator;
- the regexes;
- the JSON data;
- the Markdown parser;
- base64 decoding;
- PNG header probing.

The older `lib.rs` copies `parse_template_placeholders` (lines 251-276),
`parse_page_dimensions` (327-428) and `find_template_areas` (430-500) of the
current modules; the copies are identical apart from two commented-out debug
lines in the current `find_template_areas`. Its model therefore uses
`Engine.PlaceholdersOf`, `Parse.PageDimensionsOf` and `Parse.FindTemplateAreas`.
The prototype uses the same area search, with only `Template` tokens as
anchors.

The repository's written description says a placeholder that evaluates to the
empty string leaves its paragraph unchanged. That holds for the older
generator. The current `render_and_paste_tokens` (`render/mod.rs:1478-1503`)
instead emits nothing for `Ok("")`, which deletes the paragraph. The model
follows the code: `LegacyDocx.LegacyPasteAgainstCurrent` proves the two agree
except on that input.

## Model

| member | source | states |
|---|---|---|
| Accumulator.WrappingSub | textkit-docx/src/parse/accumulator.rs:68 | `usize` subtraction in release builds: the difference when it is non-negative, otherwise 2^64 minus the shortfall |
| Accumulator.ClosedIffCountsEqual | textkit-docx/src/parse/accumulator.rs:145-149 | the closing check holds exactly when the text has as many non-overlapping `{{` as `}}` |
| Accumulator.Transition | textkit-docx/src/parse/accumulator.rs:34-137 | one `accumulate` step never returns to Idle; Done absorbs every further fragment; from Idle the buffer is the fragment; otherwise the buffer is the old buffer followed by the fragment; a multi-line block that stays open keeps a positive depth |
| Accumulator.IdleStep | textkit-docx/src/parse/accumulator.rs:35-59 | from Idle the fragment is kept whole; it accumulates iff it opens a block, or matches no placeholder pattern and holds `{`; depth-0 multi-line iff a block opens; text with no `{` that opens no block is Done at once |
| Accumulator.MultilineStep | textkit-docx/src/parse/accumulator.rs:60-84 | multi-line: Done iff the `{{#` and `{{/` counts of the buffer are equal; more opens keep accumulating with depth opens minus closes; more closes wrap the depth around 2^64 |
| Accumulator.SimpleStep | textkit-docx/src/parse/accumulator.rs:85-102 | simple: Done iff the buffer holds `}}` and equally many `{{` and `}}`; otherwise still accumulating the concatenation |
| Accumulator.UncertainStep | textkit-docx/src/parse/accumulator.rs:103-135 | uncertain mode never survives a fragment: multi-line (depth 0) only for a buffer holding `{{#`, and always then unless it is a complete block; simple only when it holds `{{`, no `{{#`, and is not yet a simple placeholder; no `{{` means Done |
| Accumulator.FeedConcatenates | textkit-docx/src/parse/accumulator.rs:34-137 | fed fragment by fragment from Idle, and not Done before the last, the buffer is exactly the concatenation of all fragments |
| Accumulator.FeedDoneAbsorbs | textkit-docx/src/parse/accumulator.rs:136 | once Done, further fragments change nothing |
| Accumulator.TemplateAccumulator.constructor | textkit-docx/src/parse/mod.rs:24 | a new accumulator is Idle |
| Accumulator.TemplateAccumulator.Accumulate | textkit-docx/src/parse/accumulator.rs:22-138 | the object's new state is the transition of its old state on the fragment |
| Accumulator.TemplateAccumulator.Reset | textkit-docx/src/parse/accumulator.rs:140-142 | the state becomes Idle |
| Parse.Classify | textkit-docx/src/parse/mod.rs:33-39 | a finished text is Template iff it matches the simple pattern, ComplexTemplate iff it matches the helper pattern and not the simple one, Normal otherwise |
| Parse.XmlToTokenVec | textkit-docx/src/parse/mod.rs:16-67 | the tokenizer loop returns the tokens of the event fold `Tokenize` |
| Parse.TokenizeFailsIffReadError | textkit-docx/src/parse/mod.rs:58 | tokenizing fails iff the reader reports an error somewhere in the stream |
| Parse.ScanFailurePersists | textkit-docx/src/parse/mod.rs:58 | after a reader error no later event changes the outcome |
| Parse.StepPreserves | textkit-docx/src/parse/mod.rs:27-60 | one event keeps the accumulator short of Done, emits at most one well-formed token, and emitted text plus pending text grows by exactly the event's text |
| Parse.ScanInvariant | textkit-docx/src/parse/mod.rs:26-61 | throughout the loop, the texts of the emitted tokens followed by the pending buffer are all character data read, in order, with at most one token per event |
| Parse.TokenizeCompleteFragments | textkit-docx/src/parse/mod.rs:26-61 | when every character event completes on its own, the output has one token per event, each the event's classified token |
| Parse.NearestStart | textkit-docx/src/parse/mod.rs:196-215 | the nearest `w:p` start at or before the anchor, or None iff there is none |
| Parse.NearestEnd | textkit-docx/src/parse/mod.rs:217-236 | the nearest `w:p` end at or after the anchor, or None iff there is none |
| Parse.ScanBackward | textkit-docx/src/parse/mod.rs:196-215 | the backward loop finds the nearest start |
| Parse.ScanForward | textkit-docx/src/parse/mod.rs:217-236 | the forward loop, with the bound corrected, finds the nearest end |
| Parse.ForwardScanAsWrittenFailsIffNoEnd | textkit-docx/src/parse/mod.rs:217-236 | the forward loop as written finds the nearest end when there is one and indexes past the vector when there is none |
| Parse.ForwardScanAsWrittenCounterexample | textkit-docx/src/parse/mod.rs:219-234 | a lone placeholder token with no closing paragraph drives the loop out of bounds |
| Parse.AreasBelowStep | textkit-docx/src/parse/mod.rs:180-243 | appending the area of the next placeholder token keeps "one area per placeholder token below n, in order" |
| Parse.TemplateAreasFromResolves | textkit-docx/src/parse/mod.rs:180-243 | from any prefix of resolved areas, the rest of the scan resolves every later placeholder token |
| Parse.TemplateAreasOfResolves | textkit-docx/src/parse/mod.rs:173-246 | the area list has exactly one area per Template or ComplexTemplate token, in token order, each with the nearest enclosing start and end |
| Parse.FindTemplateAreas | textkit-docx/src/parse/mod.rs:173-246 | the method returns that area list |
| Parse.AreaEncloses | textkit-docx/src/parse/mod.rs:196-236 | a resolved area satisfies start ≤ token ≤ end < number of tokens |
| Parse.AttrValue | textkit-docx/src/parse/mod.rs:87-94 | no value iff no attribute has that local name in the WordprocessingML namespace; the first such attribute decides, and a value that parses is an `i32` |
| Parse.FetchAttrValue | textkit-docx/src/parse/mod.rs:87-94 | the attribute search loop computes `AttrValue`, with `unwrap` on a non-number as a panic |
| Parse.ParsePageDimensions | textkit-docx/src/parse/mod.rs:70-171 | the parse loop computes the event fold `PageDimensionsOf` |
| Parse.ReadPageElement | textkit-docx/src/parse/mod.rs:87-119 | one event: `w:pgSz` replaces width and height, `w:pgMar` the seven margins, an attribute whose value is not an `i32` is the `unwrap` panic, and every other event leaves the fields alone |
| Parse.CheckPageFields | textkit-docx/src/parse/mod.rs:122-170 | the first missing field, in the order height, width, top, bottom, right, left, header, footer, gutter, is reported by name; with none missing, all nine values |
| Parse.PageScanFailurePersists | textkit-docx/src/parse/mod.rs:90 | once an attribute fails to parse, later events do not matter |
| Parse.FirstMissing | textkit-docx/src/parse/mod.rs:122-157 | the index of the first absent field: all before it present, it absent |
| Parse.FinishReportsFirstMissing | textkit-docx/src/parse/mod.rs:122-170 | the dimensions are returned iff all nine fields were found; otherwise the error names the first missing field in the source's order |
| Parse.PageSizeUntouched | textkit-docx/src/parse/mod.rs:101-105 | events that are not `w:pgSz` starts leave width and height unchanged |
| Parse.MarginsUntouched | textkit-docx/src/parse/mod.rs:107-116 | events that are not `w:pgMar` starts leave the seven margin fields unchanged |
| Parse.LastPageSizeWins | textkit-docx/src/parse/mod.rs:101-105 | width and height come from the last `w:pgSz` element |
| Parse.LastMarginsWin | textkit-docx/src/parse/mod.rs:107-116 | the margins come from the last `w:pgMar` element |
| Parse.MarginStep | textkit-docx/src/parse/mod.rs:107-116 | a `w:pgMar` start sets each margin field to that element's attribute value |
| Xml.StartTagEvent | textkit-docx/src/render/mod.rs:101-126 | a start event with the given name, the attributes in order and the one namespace binding |
| Xml.EndTagEvent | textkit-docx/src/render/mod.rs:128-136 | an end event with the given name |
| Render.ReplaceFileInZip | textkit-docx/src/render/mod.rs:24-64 | the new package keeps every entry not at the path, in order, then appends the new entry |
| Render.NewZipBytesWithDocumentXml | textkit-docx/src/render/mod.rs:16-22 | the document replaced the same way |
| Render.EntriesNamedKept | textkit-docx/src/render/mod.rs:40-59 | copying without the path drops exactly the entries at the path and keeps every other name's entries |
| Render.ReplacedPackage | textkit-docx/src/render/mod.rs:24-64 | after a replacement the path has exactly one entry, the new one, and every other name keeps its entries |
| Render.SplitStringByEmptyLine | textkit-docx/src/render/mod.rs:69-75 | splitting always yields at least one chunk |
| Render.SplitStringByEmptyLineJoins | textkit-docx/src/render/mod.rs:69-75 | the chunks joined by the separator (`\r\n\r\n` when the text holds one, `\n\n` otherwise) give back the text, and no chunk holds the separator |
| Render.CharTextTokens | textkit-docx/src/render/mod.rs:544-592 | a balanced `w:t` element around one text token, with `xml:space="preserve"` iff asked |
| Render.HeadingPrequelTokens | textkit-docx/src/render/mod.rs:455-521 | opens `w:p` and adds balanced properties with a `w:pStyle` whose `w:val` is the style |
| Render.HeadingBalanced | textkit-docx/src/render/mod.rs:455-542 | heading prequel, balanced contents and sequel form a balanced sequence |
| Render.ParagraphBlockShape | textkit-docx/src/render/mod.rs:138-157 | one chunk is `w:p`/`w:r`/`w:t` (space preserved) around its text token: seven balanced Normal tokens |
| Render.ParagraphTokens | textkit-docx/src/render/mod.rs:138-157 | the loop computes one paragraph block per chunk |
| Render.ParagraphTokensShape | textkit-docx/src/render/mod.rs:138-157 | block k is the paragraph of chunk k; the result is balanced and has one `w:p` per chunk |
| Render.ParagraphTokensStarts | textkit-docx/src/render/mod.rs:138-157 | the only elements opened are `w:p`, `w:r` and `w:t` |
| Render.MonospaceRunPropertiesShape | textkit-docx/src/render/mod.rs:159-435 | the run properties are eight balanced tokens that open no paragraph |
| Render.MonospaceBlockShape | textkit-docx/src/render/mod.rs:159-435 | one chunk is a 25-token balanced paragraph with monospace run properties |
| Render.MonospaceParagraphTokens | textkit-docx/src/render/mod.rs:159-435 | the loop computes one monospace block per chunk |
| Render.MonospaceParagraphTokensShape | textkit-docx/src/render/mod.rs:159-435 | block k is chunk k's monospace paragraph; balanced; one `w:p` per chunk |
| Render.RenderAndPasteTokens | textkit-docx/src/render/mod.rs:1469-1514 | the paste loop computes `PasteOf`: nothing for an empty result, the area unchanged on a failed evaluation, otherwise one copy per chunk |
| Render.PasteCopies | textkit-docx/src/render/mod.rs:1478-1503 | for a non-empty result, token j of copy k is chunk k's text at the placeholder's index and the area's own token j elsewhere |
| Render.PixelsToWordEmuAsWritten | textkit-docx/src/render/mod.rs:1543-1545 | the conversion with the product wrapped to `u32` stays below 2^32 |
| Render.PixelsToWordEmu | textkit-docx/src/render/mod.rs:1543-1545 | the corrected conversion: (EMU − 2540) × 72 equals pixels × 914400, i.e. 12700 EMU per pixel plus 2540 |
| Render.PixelsToWordEmuOverflow | textkit-docx/src/render/mod.rs:1543-1545 | the conversion as written agrees with the exact one iff pixels ≤ 4697 |
| Render.PixelsToWordEmuCounterexample | textkit-docx/src/render/mod.rs:1543-1545 | 4698 pixels: 59667140 EMU exactly, 14816 as written |
| Render.InlineDrawingBalanced | textkit-docx/src/render/mod.rs:700-1340 | the `w:drawing` element is 44 balanced tokens |
| Render.InlineDrawingCarries | textkit-docx/src/render/mod.rs:734-1030 | the drawing carries the EMU extent in `wp:extent` and `a:ext`, the serial in `wp:docPr` and the relationship id in `a:blip`'s `r:embed` |
| Render.ImageParagraphShape | textkit-docx/src/render/mod.rs:641-1345 | a picture paragraph is 54 balanced tokens from `w:p` to `/w:p`, without text tokens, with the extent, serial and relationship id in place |
| Render.IdNumber | textkit-docx/src/render/mod.rs:1357-1359 | an id parses iff what follows its first three characters is a `usize` number |
| Render.GetLastIdNumber | textkit-docx/src/render/mod.rs:1348-1371 | the loop computes `LastIdNumber` |
| Render.AttrsMaxFromFacts | textkit-docx/src/render/mod.rs:1355-1365 | over one element's attributes: fails iff an `Id` does not parse; otherwise the result is the running maximum |
| Render.TokensMaxFromFails | textkit-docx/src/render/mod.rs:1348-1371 | the scan fails iff some `Id` attribute anywhere does not parse |
| Render.TokensMaxFromBound | textkit-docx/src/render/mod.rs:1348-1371 | the result bounds every `Id` number and is either the start value or one of them |
| Render.LastIdNumberIsMax | textkit-docx/src/render/mod.rs:1348-1371 | the last id number is the maximum of all `Id` attributes, 0 when there are none, and a failure iff one does not parse |
| Render.InsertImagesInDocumentXmlRels | textkit-docx/src/render/mod.rs:1373-1428 | the method computes `RelsWithImages` |
| Render.RelationshipTokensShape | textkit-docx/src/render/mod.rs:1404-1424 | each image's `Relationship` is two balanced tokens |
| Render.RelsWithImagesShape | textkit-docx/src/render/mod.rs:1373-1428 | succeeds iff there are at least two tokens and the ids before them parse; keeps the head, appends one `Relationship` per image in map order before the last two tokens, and keeps balance |
| Render.InsertPngContentType | textkit-docx/src/render/mod.rs:1430-1467 | succeeds iff there are at least two tokens; the PNG `Default` goes right after the first two tokens and nothing else changes |
| Render.InsertPngContentTypeAddsOne | textkit-docx/src/render/mod.rs:1430-1467 | exactly one more `Default` element, and balance is kept |
| Engine.Slice | textkit-docx/src/template/mod.rs:133-137 | a Rust slice: succeeds iff lo ≤ hi ≤ length, with the elements between |
| Engine.TextSlice | textkit-docx/src/template/mod.rs:165-166 | a string slice: succeeds iff lo ≤ hi ≤ length |
| Engine.ParseTemplatePlaceholders | textkit-docx/src/template/mod.rs:284-309 | the loop computes the corrected placeholder list, with each placeholder's position taken from its own match |
| Engine.PlaceholdersFromFacts | textkit-docx/src/template/mod.rs:288-306 | the list succeeds iff every match has both groups (a match missing either is a panic); then one placeholder per match, in order, with start and end at the match and the helper always `Some` of the first group |
| Engine.PlaceholdersInOrder | textkit-docx/src/template/mod.rs:284-309 | for matches in text order, the placeholders' spans lie in the text, in order, without overlap |
| Engine.AsWrittenNoLater | textkit-docx/src/template/mod.rs:289 | with `text.find` every start is at or before the match's own start |
| Engine.RepeatedPlaceholderCounterexample | textkit-docx/src/template/mod.rs:159-177 | a text holding the same helper placeholder twice: as written both get the first start and the loop panics; corrected, it succeeds |
| Engine.ComplexFromSucceeds | textkit-docx/src/template/mod.rs:162-225 | for ordered spans, and with paste and helpers that succeed, the loop never slices out of order |
| Engine.ComplexSucceeds | textkit-docx/src/template/mod.rs:159-226 | the same for the whole ComplexTemplate arm |
| Engine.SkippedArea | textkit-docx/src/template/mod.rs:114-128 | an area with no start or end, or whose start has been seen, changes nothing |
| Engine.PassRendersEachStartOnce | textkit-docx/src/template/mod.rs:114-231 | the seen set grows by exactly the starts of the remaining complete areas, and one render happens per new start |
| Engine.RenderedOncePerStart | textkit-docx/src/template/mod.rs:96-231 | the paragraphs rendered are exactly the distinct starts of complete areas, each once |
| Engine.PassKeeps | textkit-docx/src/template/mod.rs:114-235 | when areas do not overlap and every area renders to itself, the output so far is the input up to the bookmark |
| Engine.RenderKeepsTokens | textkit-docx/src/template/mod.rs:114-235 | in that case the render returns the token sequence unchanged |
| Template.RenderHelper | textkit-docx/src/template/mod.rs:179-213 | `table`, `jupyter` and `markdown` helpers produce their generator's tokens for a present key, nothing for a missing key or another helper, and an error for data of the wrong kind |
| Template.RenderComplex | textkit-docx/src/template/mod.rs:159-226 | the placeholder loop computes the ComplexTemplate arm |
| Template.RenderArea | textkit-docx/src/template/mod.rs:132-229 | one area: Template is pasted, ComplexTemplate goes through its placeholders, other kinds produce nothing |
| Template.RebuildPackage | textkit-docx/src/template/mod.rs:241-280 | the package rebuilt with the relationships, media, content types and document, in that order |
| Template.Render | textkit-docx/src/template/mod.rs:82-281 | the render loop computes `RenderOf` |
| Template.RenderAreaStep | textkit-docx/src/template/mod.rs:115-230 | one area: without both ends or with an already-rendered start nothing changes; otherwise the prequel from the bookmark and the rendered area are appended, the start is marked as seen and the bookmark moves past the end |
| Template.HelperGrows | textkit-docx/src/template/mod.rs:190-202 | a helper only adds images under the ids the counter passes and never lowers it |
| Template.AreaGrows | textkit-docx/src/template/mod.rs:146-229 | the same for one area |
| Template.PassGrows | textkit-docx/src/template/mod.rs:114-231 | the same for the whole pass |
| Template.RenderRelationshipIds | textkit-docx/src/template/mod.rs:107-108 | the new images are keyed exactly `rId{latest+1}` to `rId{last}`, above the largest existing id, one per id |
| Template.MediaPathIsNoPart | textkit-docx/src/template/mod.rs:259 | a media path is never the relationships part, the content types or the document |
| Template.WithImagesNamed | textkit-docx/src/template/mod.rs:258-267 | writing images leaves one entry per media path and every other name as it was |
| Template.PackageOrder | textkit-docx/src/template/mod.rs:269-280 | the document is the last entry and the content types the one before |
| Template.PackageEntries | textkit-docx/src/template/mod.rs:241-280 | every written part appears once; every other name keeps the source package's entries |
| DatakitTable.ColumnWidth | textkit-docx/src/render/datakit_table.rs:211 | (width − left − right) / 2 + 15, with the division truncating toward zero |
| DatakitTable.BuildCell | textkit-docx/src/render/datakit_table.rs:257-384 | a `w:tc` with width properties and the value's paragraphs: text, integer, real, Yes/No, date-time; nothing for other kinds |
| DatakitTable.DatakitTableToTokens | textkit-docx/src/render/datakit_table.rs:6-422 | the method computes `TableTokensOf` with `noVBand="0"` and the current paragraphs |
| DatakitTable.BuildTableHead | textkit-docx/src/render/datakit_table.rs:10-255 | the table start, its properties and exactly one `w:gridCol` of the column width per column, then the grid end |
| DatakitTable.BuildCells | textkit-docx/src/render/datakit_table.rs:273-394 | the cells of one row, column by column after what is already there, failing when a column has no value for the row |
| DatakitTable.ParagraphTokensGood | textkit-docx/src/render/mod.rs:138-157 | the current paragraph builder yields balanced output that opens no table elements |
| DatakitTable.TableTokensLayout | textkit-docx/src/render/datakit_table.rs:6-422 | the table panics exactly when some column is shorter than the table; otherwise it is the head and grid, then one `w:tr` per row, row i holding one `w:tc` per column j in column order with the content of `columns[j][i]`, then the table end |
| DatakitTable.RowsLayout | textkit-docx/src/render/datakit_table.rs:257-407 | the row loop appends exactly the row blocks, each a `w:tr` around its cells, or panics on a column too short |
| DatakitTable.CellsLayout | textkit-docx/src/render/datakit_table.rs:273-394 | the cell loop appends exactly one cell per column, in column order, or panics on a column that has no value for the row |
| DatakitTable.TableShape | textkit-docx/src/render/datakit_table.rs:6-422 | succeeds iff every column has at least as many values as the table has rows; then one balanced `w:tbl` with one `w:gridCol` per column, one `w:tr` per row and rows × columns `w:tc`, each width the column width |
| DatakitTable.DatakitTableShape | textkit-docx/src/render/datakit_table.rs:6-422 | the same for the generator's own output, which is also laid out cell by cell (`TableLayout`) with the current paragraphs |
| Markdown.MarkdownToTokens | textkit-docx/src/render/markdown.rs:11-44 | the event loop computes `MarkdownTokensOf` |
| Markdown.HeadingStart | textkit-docx/src/render/markdown.rs:48-51 | a heading of level n opens a paragraph styled `Heading{n+1}` |
| Markdown.TextAfterEmphasis | textkit-docx/src/render/markdown.rs:25-33 | text inside emphasis is padded with spaces and not wrapped in its own run; outside it is a run around preserved text |
| Markdown.FlagUnchanged | textkit-docx/src/render/markdown.rs:46-136 | only emphasis starts and ends change the inline flag |
| Markdown.StartNests | textkit-docx/src/render/markdown.rs:46-124 | a tag start pushes the elements the tag stands for |
| Markdown.EndNests | textkit-docx/src/render/markdown.rs:126-136 | a tag end pops them again |
| Markdown.RenderNests | textkit-docx/src/render/markdown.rs:11-44 | the output leaves open exactly the elements of the still-open tags |
| Markdown.MarkdownBalanced | textkit-docx/src/render/markdown.rs:11-44 | a properly nested event stream gives balanced WordprocessingML |
| JupyterNb.JupyterNbToTokens | textkit-docx/src/render/jupyter_nb.rs:48-125 | the loop computes `JupyterNbOf`: tokens, final counter and image map |
| JupyterNb.OutputToTokens | textkit-docx/src/render/jupyter_nb.rs:68-114 | one output: its `text/plain` lines, then its `image/png` figure |
| JupyterNb.TextLinesToTokens | textkit-docx/src/render/jupyter_nb.rs:69-76 | one monospace paragraph per `text/plain` line, in order; an output without that key adds nothing |
| JupyterNb.FigureToTokens | textkit-docx/src/render/jupyter_nb.rs:78-114 | an `image/png` output that decodes is registered and emitted; one that does not decode changes nothing |
| JupyterNb.AddFigure | textkit-docx/src/render/jupyter_nb.rs:87-109 | the image is stored under the next `rId` as `figure-{counter}.png` with its size, its picture paragraph is appended, and both counters move on by one |
| JupyterNb.FigureTracks | textkit-docx/src/render/jupyter_nb.rs:87-109 | a registered figure advances the id counter by exactly one and keeps the image map keyed by exactly the passed ids |
| JupyterNb.MonospaceLines | textkit-docx/src/render/jupyter_nb.rs:73-75 | one monospace paragraph block per output line |
| JupyterNb.RelIdInjective | textkit-docx/src/render/jupyter_nb.rs:88 | distinct counters give distinct `rId` strings |
| JupyterNb.RelIdsCount | textkit-docx/src/render/jupyter_nb.rs:87-88 | the ids between two counter values are as many as their difference |
| JupyterNb.ImagePartTracks | textkit-docx/src/render/jupyter_nb.rs:78-114 | an image output advances the counter by at most one and keeps the image map in step |
| JupyterNb.ImageInserted | textkit-docx/src/render/jupyter_nb.rs:87-109 | inserting under the next id keeps the map keyed by exactly the passed ids, each with figure file `figure-{k}.png` |
| JupyterNb.CellsFromTracks | textkit-docx/src/render/jupyter_nb.rs:59-122 | the cell loop never lowers the counter and keeps the map in step |
| JupyterNb.NotebookIds | textkit-docx/src/render/jupyter_nb.rs:48-125 | the map gains exactly the ids `rId{start+1}` to `rId{end}`, stays sorted, and id k holds `figure-{k−start}.png` |
| JupyterNb.FailedDecodeChangesNothing | textkit-docx/src/render/jupyter_nb.rs:86-113 | an image that does not decode adds no tokens and leaves the counters and the map alone |
| SortedMap.InsertKeys | textkit-docx/src/render/jupyter_nb.rs:91-98 | inserting into the ordered map adds exactly the key |
| SortedMap.InsertGet | textkit-docx/src/render/jupyter_nb.rs:91-98 | after an insert the key maps to the new value and every other key keeps its value |
| LegacyDocx.LegacyXmlToTokenVec | textkit-docx/src/lib.rs:280-324 | the older tokenizer returns one token per event and fails on a reader error |
| LegacyDocx.LegacyTokenizeFacts | textkit-docx/src/lib.rs:280-324 | succeeds iff no reader error; then one token per event, character data classified |
| LegacyDocx.LegacyAgreesWithModular | textkit-docx/src/lib.rs:280-324 | when every character event completes on its own, the older tokenizer and the current one agree |
| LegacyDocx.MakeOwnedAttributes | textkit-docx/src/lib.rs:598-609 | each pair becomes a `w` attribute, in order |
| LegacyDocx.MakeStartTagEvent | textkit-docx/src/lib.rs:611-629 | a `w:` start event with those attributes and the one namespace binding |
| LegacyDocx.MakeParagraphTokens | textkit-docx/src/lib.rs:637-693 | the loop computes one legacy block per chunk |
| LegacyDocx.MakeParagraphBlock | textkit-docx/src/lib.rs:642-690 | the seven tokens for one chunk: paragraph, run and text starts, the chunk, and the three ends |
| LegacyDocx.LegacyBlockAgainstCurrent | textkit-docx/src/lib.rs:637-693 | the older block equals the current one except that `w:t` has no `xml:space` |
| LegacyDocx.MakeParagraphTokensShape | textkit-docx/src/lib.rs:637-693 | block k is chunk k's paragraph; balanced; one `w:p` per chunk |
| LegacyDocx.LegacyRenderAndPasteTokens | textkit-docx/src/lib.rs:695-737 | the loop computes `LegacyPasteOf`: the area unchanged on an empty or failed evaluation |
| LegacyDocx.LegacyPasteAgainstCurrent | textkit-docx/src/lib.rs:704-734 | the older paste equals the current one except on an empty result, where it keeps the area and the current one drops it |
| LegacyDocx.LegacyBuildCell | textkit-docx/src/lib.rs:903-929 | a cell built with the older paragraphs |
| LegacyDocx.LegacyBuildCells | textkit-docx/src/lib.rs:863-937 | the cells of one row of the older table, column by column, failing when a column has no value for the row |
| LegacyDocx.LegacyDatakitTableToTokens | textkit-docx/src/lib.rs:739-955 | the older table: the shared layout with `noVBand="1"` and the older paragraphs |
| LegacyDocx.LegacyTableShape | textkit-docx/src/lib.rs:739-955 | same success condition and shape as the current table, and laid out cell by cell (`TableLayout`) with the older paragraphs |
| LegacyDocx.LegacyRenderComplex | textkit-docx/src/lib.rs:182-230 | the older ComplexTemplate arm, with `table` as its only helper |
| LegacyDocx.LegacyRenderHelper | textkit-docx/src/lib.rs:206-216 | `{{table key}}` with a table under `key` yields the older table; another helper name or a missing key yields nothing; data that is not a table is an error |
| LegacyDocx.LegacyRenderArea | textkit-docx/src/lib.rs:138-233 | one area of the older render |
| LegacyDocx.LegacyRender | textkit-docx/src/lib.rs:117-248 | the older render loop computes `LegacyRenderOf` |
| LegacyDocx.LegacyKeepsEmptyParagraph | textkit-docx/src/lib.rs:704-734 | a simple placeholder that evaluates to "" keeps its paragraph |
| LegacyDocx.LegacyRenderPackage | textkit-docx/src/lib.rs:538-580 | the result has exactly one document entry, last, and every other name keeps its entries |
| PrototypeWord.ProtoXmlToTokenVec | textkit-word/src/lib.rs:52-85 | the prototype tokenizer computes `ProtoTokens` |
| PrototypeWord.ProtoTokensFacts | textkit-word/src/lib.rs:52-85 | one token per delivered event, reader errors skipped; character data is Template iff it matches the simple pattern |
| PrototypeWord.ProtoTokensAgainstLegacy | textkit-word/src/lib.rs:52-85 | without reader errors or helper placeholders, the prototype tokenizer and the older one agree |
| PrototypeWord.ProtoPasteAgainstLegacy | textkit-word/src/lib.rs:294-315 | the prototype's paste equals the older one when the result has no `\r\n` |
| PrototypeWord.ProtoRenderArea | textkit-word/src/lib.rs:293-316 | one area pasted |
| PrototypeWord.ProtoRenderTokens | textkit-word/src/lib.rs:266-322 | the area loop computes `ProtoDocumentOf` |
| PrototypeWord.ProtoRender | textkit-word/src/lib.rs:259-331 | the prototype's render computes `ProtoRenderOf` |
| PrototypeWord.ProtoDocumentAsDedup | textkit-word/src/lib.rs:270-318 | when areas start at distinct positions, the prototype's pass is the de-duplicating pass |
| PrototypeWord.ProtoTwoPlaceholdersCounterexample | textkit-word/src/lib.rs:270-291 | two placeholders in one paragraph make the prototype panic, while the de-duplicating pass succeeds |
| PrototypeWord.ProtoRenderPackage | textkit-word/src/lib.rs:108-146 | exactly one document entry, last; every other name keeps its entries |

## Left out

- Zip reading, writing and compression are left out. A package is the sequence of its entries. `Entry.utf8Name` records the UTF-8 file name flag; compression options and timestamps are not modelled. An entry's name is its sanitized name: the separator normalisation of `sanitized_name()`, which the code compares as `Path`s, is not modelled, and names are compared as strings.
- The XML reader and writer are left out. The reader is the event stream it delivers, reader errors included. The writer is the parameter `serialize`, and its failure is `SerializationFailure`. Escaping and the exact bytes written are not modelled.
- Handlebars, the placeholder regexes, pulldown-cmark, serde and base64 enter as parameters: the function `evaluate`, the `Patterns` predicates and captures, the `MdEvent` stream, the `DataItem` and `Json` values, and `decodeBase64`. PNG header reading is `pngDimensions`.
- Reals and date-times are formatted by `Display` (`{:.3}`, chrono). Their text enters as the value's display string.
- The `?` on `serde_json::to_value(data)` is left out (`template/mod.rs:112`). The data enters already as a JSON object.
- Integer overflow panics of debug builds are left out. `usize` subtraction is modelled with release wrap-around (`Accumulator.WrappingSub`). The `u32` wrap-around of `pixels_to_word_emu` is modelled only by `Render.PixelsToWordEmuAsWritten`; the picture paragraphs use the exact conversion, as the lines below say.
- The composed render is the corrected program of the Findings: the corrected forward scan, placeholder starts at their own match, and the exact picture extent. The code as written panics on the Findings' inputs, and writes the `u32`-wrapped extent for pictures of 4698 pixels or more. Each member affected is listed below.
- Parse.FindTemplateAreas: computes the corrected forward scan (`Parse.ScanForward`). A placeholder with no `</w:p>` after it gets an area without an end; the code as written panics there (`parse/mod.rs:230-233`).
- Parse.TemplateAreasFromResolves: states the resolution of the corrected forward scan for the rest of the placeholders. Where no `</w:p>` follows a placeholder, the code as written panics (`parse/mod.rs:230-233`) instead of leaving the area without an end.
- Parse.TemplateAreasOfResolves: states the resolution of the corrected scan. Where no `</w:p>` follows a placeholder, the code as written panics instead of leaving the area without an end.
- Render.InlineDrawingCarries: carries the exact extent `Render.PixelsToWordEmu`. From 4698 pixels on, the code as written carries the `u32`-wrapped value (`render/mod.rs:649-650`).
- Render.ImageParagraphShape: states the exact extent `Render.PixelsToWordEmu`, not the `u32`-wrapped one the code as written uses from 4698 pixels on.
- Engine.ParseTemplatePlaceholders: computes the corrected placeholder list, each start at its own match. The code as written takes the first occurrence of the placeholder text (`template/mod.rs:289`), so a repeated placeholder gets the earlier start.
- Engine.PlaceholdersFromFacts: states the facts of the corrected list. With the code as written, a repeated placeholder starts at its first occurrence, not at its match.
- Template.RenderComplex: renders with the corrected placeholder list. `{{table t}}{{table t}}` therefore succeeds, where the code as written panics at the prequel slice (`template/mod.rs:165-166`).
- Template.RenderArea: inherits the corrected placeholder list and the exact picture extent.
- Template.RenderHelper: its `jupyter` arm yields picture paragraphs with the exact extent; from 4698 pixels on, the code as written writes the `u32`-wrapped one.
- Template.RenderAreaStep: renders the area with the corrected placeholder list and the exact picture extent, as `Template.RenderArea` does.
- Template.Render: computes the corrected program: the corrected forward scan, the corrected placeholder starts and the exact picture extent.
- JupyterNb.JupyterNbToTokens: figures of 4698 pixels or more get the exact extent, not the `u32`-wrapped one the code as written writes.
- JupyterNb.OutputToTokens: the figure paragraph of an `image/png` output carries the exact extent; from 4698 pixels on, the code as written (`jupyter_nb.rs:100-104`) writes the `u32`-wrapped one.
- JupyterNb.FigureToTokens: emits the picture paragraph with the exact extent, not the `u32`-wrapped one of `pixels_to_word_emu` as written.
- JupyterNb.AddFigure: the appended picture paragraph carries the exact extent, not the `u32`-wrapped one of `pixels_to_word_emu` as written.
- LegacyDocx.LegacyRenderComplex: uses the corrected placeholder list. The older code as written takes the first occurrence of the text (`lib.rs:256`) and panics on a repeated placeholder.
- LegacyDocx.LegacyRenderArea: inherits the corrected placeholder list.
- LegacyDocx.LegacyRender: composes the corrected forward scan and placeholder starts. The code as written panics on the Findings' inputs.
- PrototypeWord.ProtoRender: takes its areas from the corrected forward scan. With no `</w:p>` after a placeholder, the prototype as written panics (`textkit-word/src/lib.rs:205-209`).
- DatakitTable.ColumnWidth: computes on unbounded integers. The `i32` overflow of `width - m_left - m_right` on absurd page geometries is not modelled.
- Render.IdNumber: takes the id's fourth character onward by characters. The source slices bytes, which differ only for non-ASCII ids.
- `compressor.rs` (unused by the core), the error enum of `errors/mod.rs` (replaced by `Errors.Error`), the CLI in `textkit/src/main.rs`, `proto/src/main.rs` and the wasm test crate are not part of this model.
- `from_bytes`/`from_file` are not modelled as operations. Their results are the fields of `DocxTemplate`, `LegacyTemplate` and `ProtoTemplate`.
- `write_token_vector_to_string` and `unzip_text_file` are the writer and reader above.
- Strings are sequences of characters. Byte offsets of Rust `&str` are modelled as character offsets, which agree on ASCII placeholder text.

## Findings

| source | as written | input that shows it | evidently intended | confidence | as-written member | corrected member |
|---|---|---|---|---|---|---|
| textkit-docx/src/parse/mod.rs:219-234 | the forward scan advances while `anchor < token_vec.len()` and indexes `token_vec[anchor]` at the top of the next round | a placeholder token with no `</w:p>` after it, e.g. the single token `{{x}}`: the index equals the length and panics | stop at the end of the vector and leave the area without an end | high, not executed | Parse.ForwardScanAsWrittenCounterexample | Parse.ScanForward |
| textkit-docx/src/template/mod.rs:289 | each placeholder's start is `text.find(&capture[0])`, the first occurrence of its text | `{{table t}}{{table t}}`: both placeholders start at 0, so the second prequel slice `[11..0]` panics | use the match's own start | high, not executed | Engine.RepeatedPlaceholderCounterexample | Engine.PlaceholdersInOrder |
| textkit-docx/src/render/mod.rs:1543-1545 | `pixels * 914_400 / 72 + 2540` in `u32` | 4698 pixels: the product overflows, giving 14816 instead of 59667140 (which fits in `u32`) | divide before multiplying (12700 EMU per pixel) or compute in `u64` | high, not executed | Render.PixelsToWordEmuCounterexample | Render.PixelsToWordEmuOverflow |
| textkit-word/src/lib.rs:270-291 | the prototype renders every template area, even several in the same paragraph | two `{{a}}` tokens in one `w:p`: the second prequel slice runs from past the paragraph back to its start and panics | render each paragraph once, as the later generators do with their seen-starts set | medium, not executed | PrototypeWord.ProtoTwoPlaceholdersCounterexample | Engine.RenderedOncePerStart |

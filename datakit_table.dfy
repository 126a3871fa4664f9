/**
 * `datakit_table_to_tokens`: a WordprocessingML table (ECMA-376 Part 1,
 * section 17.4) built from a table of value columns, with equal column
 * widths derived from the page geometry.
 *
 * The token sequence is specified once, for both generations of the
 * generator: they differ only in the paragraph builder used for the cells
 * and in the `w:noVBand` flag of the table look.
 */
module DatakitTable {
  import opened Wrappers
  import opened Text
  import opened Errors
  import opened Xml
  import opened Parse
  import opened Render
  import opened Seqs

  /** A cell value. Reals and date-times carry the text their external `Display` produces. */
  datatype Value =
    | TextValue(text: string)
    | Integer(i: int)
    | Real(display: string)
    | Boolean(b: bool)
    | DateTime(display: string)
    | OtherValue

  /** A table as columns of values; `rowCount` is the table's own length. */
  datatype Table = Table(columns: seq<seq<Value>>, rowCount: nat)

  /** `(width - m_left - m_right) / 2 + 15`, with Rust's truncating division. */
  function ColumnWidth(dims: PageDimensions): (r: int)
    ensures dims.width - dims.mLeft - dims.mRight >= 0 ==> r == (dims.width - dims.mLeft - dims.mRight) / 2 + 15
    ensures dims.width - dims.mLeft - dims.mRight < 0 ==> r == -((dims.mLeft + dims.mRight - dims.width) / 2) + 15
  {
    TruncDiv(dims.width - dims.mLeft - dims.mRight, 2) + 15
  }

  /** The text a cell shows: None for the kinds the generator does not render. */
  function CellText(v: Value): Option<string>
  {
    match v
    case TextValue(t) => Some(t)
    case Integer(i) => Some(IntToString(i))
    case Real(d) => Some(d)
    case Boolean(b) => Some(if b then "Yes" else "No")
    case DateTime(d) => Some(d)
    case OtherValue => None
  }

  function TableProperties(noVBand: string): seq<Token>
  {
    Elem(W("tblPr"), [],
      Elem(W("tblStyle"), [WAttr("val", "TableGrid")], [])
      + Elem(W("tblW"), [WAttr("w", "0"), WAttr("type", "auto")], [])
      + Elem(W("tblLook"), [WAttr("val", "04A0"), WAttr("firstRow", "1"), WAttr("lastRow", "0"),
          WAttr("firstColumn", "1"), WAttr("lastColumn", "0"), WAttr("noHBand", "0"), WAttr("noVBand", noVBand)], []))
  }

  function GridCol(width: string): seq<Token>
  {
    Elem(W("gridCol"), [WAttr("w", width)], [])
  }

  /** `n` copies of a block. */
  function Repeat(block: seq<Token>, n: nat): seq<Token>
  {
    if n == 0 then [] else Repeat(block, n - 1) + block
  }

  function CellProperties(width: string): seq<Token>
  {
    Elem(W("tcPr"), [], Elem(W("tcW"), [WAttr("w", width), WAttr("type", "dxa")], []))
  }

  /** One `w:tc`: its properties, then the paragraphs of its text if it has one. */
  function CellTokens(v: Value, width: string, paragraphs: string -> seq<Token>): seq<Token>
  {
    [Open(W("tc"), [])] + CellProperties(width)
    + (match CellText(v) case Some(t) => paragraphs(t) case None => [])
    + [Close(W("tc"))]
  }

  /**
   * Appends the cells of row `row` from column `col` on to `acc`; reading
   * past the end of a column is a panic.
   */
  function CellsFrom(columns: seq<seq<Value>>, row: nat, col: nat, width: string, paragraphs: string -> seq<Token>, acc: seq<Token>): Result<seq<Token>, Error>
    decreases |columns| - col
  {
    if col >= |columns| then Success(acc)
    else if row >= |columns[col]| then Failure(Panic("index out of bounds"))
    else CellsFrom(columns, row, col + 1, width, paragraphs, acc + CellTokens(columns[col][row], width, paragraphs))
  }

  /** Appends the rows from `row` on, each a `w:tr` around all its cells, to `acc`. */
  function RowsFrom(table: Table, row: nat, width: string, paragraphs: string -> seq<Token>, acc: seq<Token>): Result<seq<Token>, Error>
    decreases table.rowCount - row
  {
    if row >= table.rowCount then Success(acc)
    else
      var withCells :- CellsFrom(table.columns, row, 0, width, paragraphs, acc + [Open(W("tr"), [])]);
      RowsFrom(table, row + 1, width, paragraphs, withCells + [Close(W("tr"))])
  }

  function TableHead(noVBand: string, width: string, cols: nat): seq<Token>
  {
    [Open(W("tbl"), [])] + TableProperties(noVBand) + Elem(W("tblGrid"), [], Repeat(GridCol(width), cols))
  }

  /** The whole table. */
  function TableTokensOf(table: Table, dims: PageDimensions, noVBand: string, paragraphs: string -> seq<Token>): Result<seq<Token>, Error>
  {
    var width := IntToString(ColumnWidth(dims));
    var rows :- RowsFrom(table, 0, width, paragraphs, TableHead(noVBand, width, |table.columns|));
    Success(rows + [Close(W("tbl"))])
  }

  /** One `w:tc`: its width properties, then a paragraph per text chunk of the value. */
  method BuildCell(value: Value, width: string) returns (cell: seq<Token>)
    ensures cell == CellTokens(value, width, ParagraphTokensOf)
  {
    cell := [Open(W("tc"), [])] + CellProperties(width);
    match CellText(value) {
      case Some(text) =>
        var paragraphs := ParagraphTokens(text);
        cell := cell + paragraphs;
      case None =>
    }
    cell := cell + [Close(W("tc"))];
  }

  /** The grid loop: the table start, its properties and one `w:gridCol` per column. */
  method BuildTableHead(noVBand: string, width: string, cols: nat) returns (result: seq<Token>)
    ensures result == TableHead(noVBand, width, cols)
  {
    result := [Open(W("tbl"), [])] + TableProperties(noVBand) + [Open(W("tblGrid"), [])];
    ghost var head := result;
    for i := 0 to cols
      invariant result == head + Repeat(GridCol(width), i)
    {
      GridStep(head, width, i);
      result := result + [Open(W("gridCol"), [WAttr("w", width)])];
      result := result + [Close(W("gridCol"))];
    }
    result := result + [Close(W("tblGrid"))];
    TableHeadFlat(noVBand, width, cols);
  }

  lemma GridStep(head: seq<Token>, width: string, i: nat)
    ensures head + Repeat(GridCol(width), i) + [Open(W("gridCol"), [WAttr("w", width)])] + [Close(W("gridCol"))]
      == head + Repeat(GridCol(width), i + 1)
  {
    var g := Repeat(GridCol(width), i);
    assert GridCol(width) == [Open(W("gridCol"), [WAttr("w", width)])] + [Close(W("gridCol"))];
    assert head + g + [Open(W("gridCol"), [WAttr("w", width)])] + [Close(W("gridCol"))] == head + (g + GridCol(width));
  }

  lemma TableHeadFlat(noVBand: string, width: string, cols: nat)
    ensures TableHead(noVBand, width, cols)
      == [Open(W("tbl"), [])] + TableProperties(noVBand) + [Open(W("tblGrid"), [])] + Repeat(GridCol(width), cols) + [Close(W("tblGrid"))]
  {
  }

  /** The cell loop of one row, appending to `acc`. */
  method BuildCells(columns: seq<seq<Value>>, row: nat, width: string, acc: seq<Token>) returns (r: Result<seq<Token>, Error>)
    ensures r == CellsFrom(columns, row, 0, width, ParagraphTokensOf, acc)
  {
    var result := acc;
    for col := 0 to |columns|
      invariant CellsFrom(columns, row, 0, width, ParagraphTokensOf, acc) == CellsFrom(columns, row, col, width, ParagraphTokensOf, result)
    {
      if row >= |columns[col]| {
        return Failure(Panic("index out of bounds"));
      }
      var cell := BuildCell(columns[col][row], width);
      result := result + cell;
    }
    return Success(result);
  }

  /** `datakit_table_to_tokens` */
  method DatakitTableToTokens(table: Table, dims: PageDimensions) returns (r: Result<seq<Token>, Error>)
    ensures r == TableTokensOf(table, dims, "0", ParagraphTokensOf)
  {
    var width := IntToString(ColumnWidth(dims));
    var result := BuildTableHead("0", width, |table.columns|);
    ghost var rows := RowsFrom(table, 0, width, ParagraphTokensOf, result);
    for row := 0 to table.rowCount
      invariant rows == RowsFrom(table, row, width, ParagraphTokensOf, result)
    {
      var cells := BuildCells(table.columns, row, width, result + [Open(W("tr"), [])]);
      if cells.Failure? {
        return Failure(cells.error);
      }
      result := cells.value + [Close(W("tr"))];
    }
    return Success(result + [Close(W("tbl"))]);
  }

  // ---------------------------------------------------------------------
  // Properties

  /** The paragraph builders used for cells: balanced, and built from `w:p`, `w:r` and `w:t` only. */
  ghost predicate GoodParagraphs(paragraphs: string -> seq<Token>)
  {
    forall s :: Balanced(paragraphs(s)) && StartsWithin(paragraphs(s), ParagraphNames())
  }

  lemma ParagraphTokensGood()
    ensures GoodParagraphs(ParagraphTokensOf)
  {
    forall s ensures Balanced(ParagraphTokensOf(s)) && StartsWithin(ParagraphTokensOf(s), ParagraphNames()) {
      ParagraphTokensShape(s);
      ParagraphTokensStarts(s);
    }
  }

  /** Every `w:gridCol` and `w:tcW` start carries the width as its first attribute, `w:w`. */
  predicate WidthsAre(ts: seq<Token>, width: string)
  {
    forall k :: 0 <= k < |ts| && (IsStartOf(ts[k], W("gridCol")) || IsStartOf(ts[k], W("tcW"))) ==>
      |ts[k].event.attributes| > 0 && ts[k].event.attributes[0] == WAttr("w", width)
  }

  lemma WidthsAreConcat(a: seq<Token>, b: seq<Token>, width: string)
    requires WidthsAre(a, width) && WidthsAre(b, width)
    ensures WidthsAre(a + b, width)
  {
    assert forall k :: |a| <= k < |a + b| ==> (a + b)[k] == b[k - |a|];
  }

  /** Counts and widths of a token block, gathered for the proofs below. */
  predicate BlockFacts(ts: seq<Token>, width: string, gridCols: nat, rows: nat, cells: nat)
  {
    && Balanced(ts) && WidthsAre(ts, width)
    && CountStarts(ts, W("gridCol")) == gridCols
    && CountStarts(ts, W("tr")) == rows
    && CountStarts(ts, W("tc")) == cells
  }

  lemma BlockFactsConcat(a: seq<Token>, b: seq<Token>, width: string, g1: nat, r1: nat, c1: nat, g2: nat, r2: nat, c2: nat)
    requires BlockFacts(a, width, g1, r1, c1) && BlockFacts(b, width, g2, r2, c2)
    ensures BlockFacts(a + b, width, g1 + g2, r1 + r2, c1 + c2)
  {
    BalancedConcat(a, b);
    WidthsAreConcat(a, b, width);
    CountStartsAppend(a, b, W("gridCol"));
    CountStartsAppend(a, b, W("tr"));
    CountStartsAppend(a, b, W("tc"));
  }

  lemma BlockFactsElem(n: Name, attrs: seq<Attribute>, inner: seq<Token>, width: string, g: nat, r: nat, c: nat)
    requires BlockFacts(inner, width, g, r, c) && n != W("gridCol") && n != W("tcW")
    ensures BlockFacts(Elem(n, attrs, inner), width, g, r + (if n == W("tr") then 1 else 0), c + (if n == W("tc") then 1 else 0))
  {
    BalancedElem(n, attrs, inner);
    WidthsAreConcat([Open(n, attrs)], inner, width);
    WidthsAreConcat([Open(n, attrs)] + inner, [Close(n)], width);
    CountStartsElem(n, attrs, inner, W("gridCol"));
    CountStartsElem(n, attrs, inner, W("tr"));
    CountStartsElem(n, attrs, inner, W("tc"));
  }

  /** An empty element that is neither a grid column, a cell width, a row nor a cell. */
  lemma LeafFacts(n: Name, attrs: seq<Attribute>, width: string)
    requires n != W("gridCol") && n != W("tcW") && n != W("tr") && n != W("tc")
    ensures BlockFacts(Elem(n, attrs, []), width, 0, 0, 0)
  {
    BalancedEmpty();
    BlockFactsElem(n, attrs, [], width, 0, 0, 0);
  }

  /** An empty element whose first attribute is the width. */
  lemma WidthLeafFacts(n: Name, attrs: seq<Attribute>, width: string)
    requires (n == W("gridCol") || n == W("tcW")) && |attrs| > 0 && attrs[0] == WAttr("w", width)
    ensures BlockFacts(Elem(n, attrs, []), width, if n == W("gridCol") then 1 else 0, 0, 0)
  {
    EmptyElemBalanced(n, attrs);
    CountStartsElem(n, attrs, [], W("gridCol"));
    CountStartsElem(n, attrs, [], W("tr"));
    CountStartsElem(n, attrs, [], W("tc"));
    var e := Elem(n, attrs, []);
    assert e[0] == Open(n, attrs) && e[1] == Close(n);
  }

  lemma ParagraphFacts(ts: seq<Token>, width: string)
    requires Balanced(ts) && StartsWithin(ts, ParagraphNames())
    ensures BlockFacts(ts, width, 0, 0, 0)
  {
    CountStartsOutside(ts, ParagraphNames(), W("gridCol"));
    CountStartsOutside(ts, ParagraphNames(), W("tr"));
    CountStartsOutside(ts, ParagraphNames(), W("tc"));
  }

  lemma CellFacts(v: Value, width: string, paragraphs: string -> seq<Token>)
    requires GoodParagraphs(paragraphs)
    ensures BlockFacts(CellTokens(v, width, paragraphs), width, 0, 0, 1)
  {
    var content := match CellText(v) case Some(t) => paragraphs(t) case None => [];
    CellContentFacts(v, width, paragraphs);
    CellBlockFacts(CellTokens(v, width, paragraphs), content, width);
  }

  lemma CellContentFacts(v: Value, width: string, paragraphs: string -> seq<Token>)
    requires GoodParagraphs(paragraphs)
    ensures BlockFacts(match CellText(v) case Some(t) => paragraphs(t) case None => [], width, 0, 0, 0)
  {
    if CellText(v).Some? {
      ParagraphFacts(paragraphs(CellText(v).value), width);
    } else {
      BalancedEmpty();
    }
  }

  lemma CellBlockFacts(ts: seq<Token>, content: seq<Token>, width: string)
    requires BlockFacts(content, width, 0, 0, 0) && ts == Elem(W("tc"), [], CellProperties(width) + content)
    ensures BlockFacts(ts, width, 0, 0, 1)
  {
    var tcW := Elem(W("tcW"), [WAttr("w", width), WAttr("type", "dxa")], []);
    WidthLeafFacts(W("tcW"), [WAttr("w", width), WAttr("type", "dxa")], width);
    BlockFactsElem(W("tcPr"), [], tcW, width, 0, 0, 0);
    BlockFactsConcat(CellProperties(width), content, width, 0, 0, 0, 0, 0, 0);
    BlockFactsElem(W("tc"), [], CellProperties(width) + content, width, 0, 0, 0);
  }

  /** What the cells append does not depend on what they are appended to. */
  lemma {:induction false} CellsShift(columns: seq<seq<Value>>, row: nat, col: nat, width: string, paragraphs: string -> seq<Token>, acc: seq<Token>)
    ensures CellsFrom(columns, row, col, width, paragraphs, acc).Success? == CellsFrom(columns, row, col, width, paragraphs, []).Success?
    ensures CellsFrom(columns, row, col, width, paragraphs, acc).Success? ==>
      CellsFrom(columns, row, col, width, paragraphs, acc).value == acc + CellsFrom(columns, row, col, width, paragraphs, []).value
    decreases |columns| - col
  {
    if col < |columns| && row < |columns[col]| {
      var c := CellTokens(columns[col][row], width, paragraphs);
      assert [] + c == c;
      CellsShift(columns, row, col + 1, width, paragraphs, acc + c);
      CellsShift(columns, row, col + 1, width, paragraphs, c);
    }
  }

  lemma {:induction false} CellsFacts(columns: seq<seq<Value>>, row: nat, col: nat, width: string, paragraphs: string -> seq<Token>)
    requires col <= |columns| && GoodParagraphs(paragraphs)
    ensures CellsFrom(columns, row, col, width, paragraphs, []).Success? <==> forall j :: col <= j < |columns| ==> row < |columns[j]|
    ensures CellsFrom(columns, row, col, width, paragraphs, []).Success? ==>
      BlockFacts(CellsFrom(columns, row, col, width, paragraphs, []).value, width, 0, 0, |columns| - col)
    decreases |columns| - col
  {
    if col == |columns| {
      BalancedEmpty();
    } else if row < |columns[col]| {
      var c := CellTokens(columns[col][row], width, paragraphs);
      assert [] + c == c;
      CellsFacts(columns, row, col + 1, width, paragraphs);
      CellsShift(columns, row, col + 1, width, paragraphs, c);
      if CellsFrom(columns, row, col + 1, width, paragraphs, []).Success? {
        CellFactsStep(columns, row, col, width, paragraphs);
      }
    }
  }

  /** One more cell in front of cells whose facts are known. */
  lemma CellFactsStep(columns: seq<seq<Value>>, row: nat, col: nat, width: string, paragraphs: string -> seq<Token>)
    requires col < |columns| && row < |columns[col]| && GoodParagraphs(paragraphs)
    requires CellsFrom(columns, row, col + 1, width, paragraphs, []).Success?
    requires BlockFacts(CellsFrom(columns, row, col + 1, width, paragraphs, []).value, width, 0, 0, |columns| - (col + 1))
    ensures BlockFacts(CellTokens(columns[col][row], width, paragraphs) + CellsFrom(columns, row, col + 1, width, paragraphs, []).value, width, 0, 0, |columns| - col)
  {
    var c := CellTokens(columns[col][row], width, paragraphs);
    var rest := CellsFrom(columns, row, col + 1, width, paragraphs, []).value;
    CellFacts(columns[col][row], width, paragraphs);
    BlockFactsConcat(c, rest, width, 0, 0, 1, 0, 0, |columns| - col - 1);
  }

  /** What the rows append does not depend on what they are appended to. */
  lemma {:induction false} RowsShift(table: Table, row: nat, width: string, paragraphs: string -> seq<Token>, acc: seq<Token>)
    ensures RowsFrom(table, row, width, paragraphs, acc).Success? == RowsFrom(table, row, width, paragraphs, []).Success?
    ensures RowsFrom(table, row, width, paragraphs, acc).Success? ==>
      RowsFrom(table, row, width, paragraphs, acc).value == acc + RowsFrom(table, row, width, paragraphs, []).value
    decreases table.rowCount - row
  {
    if row < table.rowCount {
      var tr := [Open(W("tr"), [])];
      assert [] + tr == tr;
      CellsShift(table.columns, row, 0, width, paragraphs, acc + tr);
      CellsShift(table.columns, row, 0, width, paragraphs, tr);
      var cells := CellsFrom(table.columns, row, 0, width, paragraphs, []);
      if cells.Success? {
        RowsShift(table, row + 1, width, paragraphs, acc + tr + cells.value + [Close(W("tr"))]);
        RowsShift(table, row + 1, width, paragraphs, tr + cells.value + [Close(W("tr"))]);
      }
    }
  }

  /** The rows to come, one `w:tr` element around the cells of each. */
  lemma RowStep(table: Table, row: nat, width: string, paragraphs: string -> seq<Token>)
    requires row < table.rowCount && CellsFrom(table.columns, row, 0, width, paragraphs, []).Success?
    ensures var cells := CellsFrom(table.columns, row, 0, width, paragraphs, []).value;
      RowsFrom(table, row, width, paragraphs, []).Success? == RowsFrom(table, row + 1, width, paragraphs, []).Success?
      && (RowsFrom(table, row, width, paragraphs, []).Success? ==>
        RowsFrom(table, row, width, paragraphs, []).value == Elem(W("tr"), [], cells) + RowsFrom(table, row + 1, width, paragraphs, []).value)
  {
    var tr := [Open(W("tr"), [])];
    assert [] + tr == tr;
    CellsShift(table.columns, row, 0, width, paragraphs, tr);
    var cells := CellsFrom(table.columns, row, 0, width, paragraphs, []).value;
    RowsShift(table, row + 1, width, paragraphs, tr + cells + [Close(W("tr"))]);
  }

  lemma {:induction false} RowsSucceed(table: Table, row: nat, width: string, paragraphs: string -> seq<Token>)
    requires row <= table.rowCount && GoodParagraphs(paragraphs)
    ensures RowsFrom(table, row, width, paragraphs, []).Success? <==>
      forall j :: 0 <= j < |table.columns| ==> row == table.rowCount || table.rowCount <= |table.columns[j]|
    decreases table.rowCount - row
  {
    if row < table.rowCount {
      var tr := [Open(W("tr"), [])];
      assert [] + tr == tr;
      CellsFacts(table.columns, row, 0, width, paragraphs);
      CellsShift(table.columns, row, 0, width, paragraphs, tr);
      if CellsFrom(table.columns, row, 0, width, paragraphs, []).Success? {
        RowStep(table, row, width, paragraphs);
        RowsSucceed(table, row + 1, width, paragraphs);
      }
    }
  }

  /** The cells of `rows` rows of `n` cells, counted without a product. */
  function RowCells(rows: nat, n: nat): nat
  {
    if rows == 0 then 0 else RowCells(rows - 1, n) + n
  }

  lemma {:induction false} RowCellsProduct(rows: nat, n: nat)
    ensures RowCells(rows, n) == rows * n
  {
    if rows > 0 {
      RowCellsProduct(rows - 1, n);
      assert (rows - 1) * n + n == rows * n;
    }
  }

  lemma RowCellsSucceed(table: Table, row: nat, width: string, paragraphs: string -> seq<Token>)
    requires row < table.rowCount && RowsFrom(table, row, width, paragraphs, []).Success?
    ensures CellsFrom(table.columns, row, 0, width, paragraphs, []).Success?
  {
    var tr := [Open(W("tr"), [])];
    assert [] + tr == tr;
    CellsShift(table.columns, row, 0, width, paragraphs, tr);
  }

  lemma {:induction false} RowsFacts(table: Table, row: nat, width: string, paragraphs: string -> seq<Token>)
    requires row <= table.rowCount && GoodParagraphs(paragraphs) && RowsFrom(table, row, width, paragraphs, []).Success?
    ensures BlockFacts(RowsFrom(table, row, width, paragraphs, []).value, width, 0, table.rowCount - row, RowCells(table.rowCount - row, |table.columns|))
    decreases table.rowCount - row
  {
    if row == table.rowCount {
      BalancedEmpty();
    } else {
      RowCellsSucceed(table, row, width, paragraphs);
      RowStep(table, row, width, paragraphs);
      RowsFacts(table, row + 1, width, paragraphs);
      RowFactsStep(table, row, width, paragraphs);
    }
  }

  /** One more row in front of rows whose facts are known. */
  lemma RowFactsStep(table: Table, row: nat, width: string, paragraphs: string -> seq<Token>)
    requires row < table.rowCount && GoodParagraphs(paragraphs)
    requires RowsFrom(table, row, width, paragraphs, []).Success? && RowsFrom(table, row + 1, width, paragraphs, []).Success?
    requires CellsFrom(table.columns, row, 0, width, paragraphs, []).Success?
    requires RowsFrom(table, row, width, paragraphs, []).value
      == Elem(W("tr"), [], CellsFrom(table.columns, row, 0, width, paragraphs, []).value) + RowsFrom(table, row + 1, width, paragraphs, []).value
    requires BlockFacts(RowsFrom(table, row + 1, width, paragraphs, []).value, width, 0, table.rowCount - (row + 1), RowCells(table.rowCount - (row + 1), |table.columns|))
    ensures BlockFacts(RowsFrom(table, row, width, paragraphs, []).value, width, 0, table.rowCount - row, RowCells(table.rowCount - row, |table.columns|))
  {
    var n := |table.columns|;
    var cells := CellsFrom(table.columns, row, 0, width, paragraphs, []).value;
    var rows, rest := RowsFrom(table, row, width, paragraphs, []).value, RowsFrom(table, row + 1, width, paragraphs, []).value;
    var k := table.rowCount - (row + 1);
    CellsFacts(table.columns, row, 0, width, paragraphs);
    RowBlockFacts(rows, cells, rest, width, n, k);
    assert k + 1 == table.rowCount - row;
  }

  lemma RowBlockFacts(ts: seq<Token>, cells: seq<Token>, rest: seq<Token>, width: string, n: nat, rows: nat)
    requires BlockFacts(cells, width, 0, 0, n) && BlockFacts(rest, width, 0, rows, RowCells(rows, n))
    requires ts == Elem(W("tr"), [], cells) + rest
    ensures BlockFacts(ts, width, 0, rows + 1, RowCells(rows + 1, n))
  {
    BlockFactsElem(W("tr"), [], cells, width, 0, 0, n);
    BlockFactsConcat(Elem(W("tr"), [], cells), rest, width, 0, 1, n, 0, rows, RowCells(rows, n));
  }

  lemma {:induction false} GridFacts(width: string, n: nat)
    ensures BlockFacts(Repeat(GridCol(width), n), width, n, 0, 0)
  {
    if n == 0 {
      BalancedEmpty();
    } else {
      GridFacts(width, n - 1);
      WidthLeafFacts(W("gridCol"), [WAttr("w", width)], width);
      BlockFactsConcat(Repeat(GridCol(width), n - 1), GridCol(width), width, n - 1, 0, 0, 1, 0, 0);
    }
  }

  lemma PropertiesFacts(noVBand: string, width: string)
    ensures BlockFacts(TableProperties(noVBand), width, 0, 0, 0)
  {
    var look := [WAttr("val", "04A0"), WAttr("firstRow", "1"), WAttr("lastRow", "0"),
      WAttr("firstColumn", "1"), WAttr("lastColumn", "0"), WAttr("noHBand", "0"), WAttr("noVBand", noVBand)];
    var style := Elem(W("tblStyle"), [WAttr("val", "TableGrid")], []);
    var tblW := Elem(W("tblW"), [WAttr("w", "0"), WAttr("type", "auto")], []);
    var tblLook := Elem(W("tblLook"), look, []);
    LeafFacts(W("tblStyle"), [WAttr("val", "TableGrid")], width);
    LeafFacts(W("tblW"), [WAttr("w", "0"), WAttr("type", "auto")], width);
    LeafFacts(W("tblLook"), look, width);
    BlockFactsConcat(style, tblW, width, 0, 0, 0, 0, 0, 0);
    BlockFactsConcat(style + tblW, tblLook, width, 0, 0, 0, 0, 0, 0);
    BlockFactsElem(W("tblPr"), [], style + tblW + tblLook, width, 0, 0, 0);
  }

  /**
   * The table succeeds exactly when every column has at least `rowCount`
   * entries. Then it is one balanced `w:tbl` with one `w:gridCol` per
   * column, one `w:tr` per row and rows × columns `w:tc` cells, and every
   * grid column and cell width carries the same width, whatever the
   * number of columns.
   */
  lemma TableShape(table: Table, dims: PageDimensions, noVBand: string, paragraphs: string -> seq<Token>)
    requires GoodParagraphs(paragraphs)
    ensures TableTokensOf(table, dims, noVBand, paragraphs).Success? <==>
      forall j :: 0 <= j < |table.columns| ==> table.rowCount <= |table.columns[j]|
    ensures TableTokensOf(table, dims, noVBand, paragraphs).Success? ==>
      var r := TableTokensOf(table, dims, noVBand, paragraphs).value;
      && IsStartOf(r[0], W("tbl")) && IsEndOf(r[|r| - 1], W("tbl"))
      && BlockFacts(r, IntToString(ColumnWidth(dims)), |table.columns|, table.rowCount, table.rowCount * |table.columns|)
  {
    var width := IntToString(ColumnWidth(dims));
    RowsSucceed(table, 0, width, paragraphs);
    RowsShift(table, 0, width, paragraphs, TableHead(noVBand, width, |table.columns|));
    if TableTokensOf(table, dims, noVBand, paragraphs).Success? {
      TableBody(table, width, noVBand, paragraphs);
    }
  }

  lemma TableAsElem(noVBand: string, width: string, n: nat, rows: seq<Token>)
    ensures TableHead(noVBand, width, n) + rows + [Close(W("tbl"))]
      == Elem(W("tbl"), [], TableProperties(noVBand) + Elem(W("tblGrid"), [], Repeat(GridCol(width), n)) + rows)
  {
  }

  lemma TableBody(table: Table, width: string, noVBand: string, paragraphs: string -> seq<Token>)
    requires GoodParagraphs(paragraphs) && RowsFrom(table, 0, width, paragraphs, []).Success?
    ensures var r := TableHead(noVBand, width, |table.columns|) + RowsFrom(table, 0, width, paragraphs, []).value + [Close(W("tbl"))];
      && IsStartOf(r[0], W("tbl")) && IsEndOf(r[|r| - 1], W("tbl"))
      && BlockFacts(r, width, |table.columns|, table.rowCount, table.rowCount * |table.columns|)
  {
    var n := |table.columns|;
    var rows := RowsFrom(table, 0, width, paragraphs, []).value;
    var props := TableProperties(noVBand);
    var grid := Elem(W("tblGrid"), [], Repeat(GridCol(width), n));
    var inner := props + grid + rows;
    assert BlockFacts(inner, width, n, table.rowCount, table.rowCount * n) by {
      RowsFacts(table, 0, width, paragraphs);
      RowCellsProduct(table.rowCount, n);
      PropertiesFacts(noVBand, width);
      GridFacts(width, n);
      BlockFactsElem(W("tblGrid"), [], Repeat(GridCol(width), n), width, n, 0, 0);
      BlockFactsConcat(props, grid, width, 0, 0, 0, n, 0, 0);
      BlockFactsConcat(props + grid, rows, width, n, 0, 0, 0, table.rowCount, table.rowCount * n);
    }
    BlockFactsElem(W("tbl"), [], inner, width, n, table.rowCount, table.rowCount * n);
    TableAsElem(noVBand, width, n, rows);
  }

  // ---------------------------------------------------------------------
  // The table cell by cell

  /** Every column has a value for each row of the table. */
  predicate ColumnsCoverRows(table: Table)
  {
    forall j :: 0 <= j < |table.columns| ==> table.rowCount <= |table.columns[j]|
  }

  /** Every column from `col` on has a value for row `row`. */
  predicate ColumnsReach(columns: seq<seq<Value>>, row: nat, col: nat)
  {
    forall j :: col <= j < |columns| ==> row < |columns[j]|
  }

  /** Row `row`'s cells from column `col` on: block `k` is the cell of column `col + k`. */
  function CellBlocks(columns: seq<seq<Value>>, row: nat, col: nat, width: string, paragraphs: string -> seq<Token>): seq<seq<Token>>
    requires col <= |columns| && ColumnsReach(columns, row, col)
  {
    seq(|columns| - col, k requires 0 <= k < |columns| - col => CellTokens(columns[col + k][row], width, paragraphs))
  }

  /** The rows from `row` on: block `k` is a `w:tr` around all the cells of row `row + k`, in column order. */
  function RowBlocks(table: Table, row: nat, width: string, paragraphs: string -> seq<Token>): seq<seq<Token>>
    requires row <= table.rowCount && (row == table.rowCount || ColumnsCoverRows(table))
  {
    seq(table.rowCount - row, k requires 0 <= k < table.rowCount - row =>
      assert ColumnsReach(table.columns, row + k, 0);
      Elem(W("tr"), [], Flatten(CellBlocks(table.columns, row + k, 0, width, paragraphs))))
  }

  /**
   * The table written out: the head with its grid, one `w:tr` per row, and in
   * row `i` one `w:tc` per column `j`, in column order, holding `columns[j][i]`.
   */
  function TableLayout(table: Table, width: string, noVBand: string, paragraphs: string -> seq<Token>): seq<Token>
    requires ColumnsCoverRows(table)
  {
    TableHead(noVBand, width, |table.columns|) + Flatten(RowBlocks(table, 0, width, paragraphs)) + [Close(W("tbl"))]
  }

  lemma FlattenCons<T>(x: seq<T>, rest: seq<seq<T>>)
    ensures Flatten([x] + rest) == x + Flatten(rest)
  {
    FlattenAppend([x], rest);
    FlattenSingle(x);
  }

  /** The cell loop appends exactly the cells of the row, or panics on a column too short. */
  lemma {:induction false} CellsLayout(columns: seq<seq<Value>>, row: nat, col: nat, width: string, paragraphs: string -> seq<Token>, acc: seq<Token>)
    requires col <= |columns|
    ensures CellsFrom(columns, row, col, width, paragraphs, acc) ==
      if ColumnsReach(columns, row, col)
      then Success(acc + Flatten(CellBlocks(columns, row, col, width, paragraphs)))
      else Failure(Panic("index out of bounds"))
    decreases |columns| - col
  {
    if col == |columns| {
      assert CellBlocks(columns, row, col, width, paragraphs) == [];
      assert acc + Flatten<Token>([]) == acc;
    } else if row < |columns[col]| {
      var c := CellTokens(columns[col][row], width, paragraphs);
      CellsLayout(columns, row, col + 1, width, paragraphs, acc + c);
      assert ColumnsReach(columns, row, col) <==> ColumnsReach(columns, row, col + 1);
      if ColumnsReach(columns, row, col) {
        CellsCons(columns, row, col, width, paragraphs, acc);
      }
    } else {
      assert !ColumnsReach(columns, row, col);
    }
  }

  /** One cell in front of the cells after it. */
  lemma CellsCons(columns: seq<seq<Value>>, row: nat, col: nat, width: string, paragraphs: string -> seq<Token>, acc: seq<Token>)
    requires col < |columns| && ColumnsReach(columns, row, col)
    ensures ColumnsReach(columns, row, col + 1)
    ensures acc + CellTokens(columns[col][row], width, paragraphs) + Flatten(CellBlocks(columns, row, col + 1, width, paragraphs))
      == acc + Flatten(CellBlocks(columns, row, col, width, paragraphs))
  {
    var c := CellTokens(columns[col][row], width, paragraphs);
    var rest := CellBlocks(columns, row, col + 1, width, paragraphs);
    assert CellBlocks(columns, row, col, width, paragraphs) == [c] + rest;
    FlattenCons(c, rest);
    assert acc + c + Flatten(rest) == acc + (c + Flatten(rest));
  }

  /** The row loop appends exactly the row blocks, or panics on a column too short. */
  lemma {:induction false} RowsLayout(table: Table, row: nat, width: string, paragraphs: string -> seq<Token>, acc: seq<Token>)
    requires row <= table.rowCount
    ensures RowsFrom(table, row, width, paragraphs, acc) ==
      if row == table.rowCount || ColumnsCoverRows(table)
      then Success(acc + Flatten(RowBlocks(table, row, width, paragraphs)))
      else Failure(Panic("index out of bounds"))
    decreases table.rowCount - row
  {
    if row == table.rowCount {
      assert RowBlocks(table, row, width, paragraphs) == [];
      assert acc + Flatten<Token>([]) == acc;
    } else {
      var tr := acc + [Open(W("tr"), [])];
      CellsLayout(table.columns, row, 0, width, paragraphs, tr);
      if ColumnsReach(table.columns, row, 0) {
        var cells := Flatten(CellBlocks(table.columns, row, 0, width, paragraphs));
        RowsLayout(table, row + 1, width, paragraphs, tr + cells + [Close(W("tr"))]);
        RowsStepLayout(table, row, width, paragraphs, acc);
      } else {
        assert !ColumnsCoverRows(table);
      }
    }
  }

  /** One row in front of the rows after it, when the columns reach that row. */
  lemma RowsStepLayout(table: Table, row: nat, width: string, paragraphs: string -> seq<Token>, acc: seq<Token>)
    requires row < table.rowCount
    requires ColumnsReach(table.columns, row, 0)
    ensures (row + 1 == table.rowCount || ColumnsCoverRows(table)) <==> ColumnsCoverRows(table)
    ensures ColumnsCoverRows(table) ==>
      var cells := Flatten(CellBlocks(table.columns, row, 0, width, paragraphs));
      acc + [Open(W("tr"), [])] + cells + [Close(W("tr"))] + Flatten(RowBlocks(table, row + 1, width, paragraphs))
        == acc + Flatten(RowBlocks(table, row, width, paragraphs))
  {
    if ColumnsCoverRows(table) {
      var cells := Flatten(CellBlocks(table.columns, row, 0, width, paragraphs));
      var rest := RowBlocks(table, row + 1, width, paragraphs);
      assert RowBlocks(table, row, width, paragraphs) == [Elem(W("tr"), [], cells)] + rest;
      FlattenCons(Elem(W("tr"), [], cells), rest);
    }
  }

  /**
   * The whole table, cell by cell: it panics exactly when some column is
   * shorter than the table; otherwise it is the head followed by one `w:tr`
   * per row, row `i` holding one cell per column `j`, in column order, whose
   * content is `columns[j][i]`.
   */
  lemma TableTokensLayout(table: Table, dims: PageDimensions, noVBand: string, paragraphs: string -> seq<Token>)
    ensures TableTokensOf(table, dims, noVBand, paragraphs) ==
      if ColumnsCoverRows(table)
      then Success(TableLayout(table, IntToString(ColumnWidth(dims)), noVBand, paragraphs))
      else Failure(Panic("index out of bounds"))
  {
    var width := IntToString(ColumnWidth(dims));
    RowsLayout(table, 0, width, paragraphs, TableHead(noVBand, width, |table.columns|));
    if table.rowCount == 0 {
      assert ColumnsCoverRows(table);
    }
  }

  /** The generator's output has this shape, and is laid out cell by cell with the current paragraphs. */
  lemma DatakitTableShape(table: Table, dims: PageDimensions)
    ensures TableTokensOf(table, dims, "0", ParagraphTokensOf).Success? <==>
      forall j :: 0 <= j < |table.columns| ==> table.rowCount <= |table.columns[j]|
    ensures TableTokensOf(table, dims, "0", ParagraphTokensOf).Success? ==>
      BlockFacts(TableTokensOf(table, dims, "0", ParagraphTokensOf).value, IntToString(ColumnWidth(dims)),
        |table.columns|, table.rowCount, table.rowCount * |table.columns|)
    ensures TableTokensOf(table, dims, "0", ParagraphTokensOf).Success? ==>
      TableTokensOf(table, dims, "0", ParagraphTokensOf).value == TableLayout(table, IntToString(ColumnWidth(dims)), "0", ParagraphTokensOf)
  {
    ParagraphTokensGood();
    TableShape(table, dims, "0", ParagraphTokensOf);
    TableTokensLayout(table, dims, "0", ParagraphTokensOf);
  }
}

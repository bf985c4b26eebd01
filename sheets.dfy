/** Worksheets as openpyxl holds them: a grid of cells keyed by (row, column),
    each cell a value with its style, plus the column widths and the declared
    table regions; and the in-place writes the report makes to them. */
module Sheets {
  import opened Wrappers

  /** A cell value. `Size` stands for the formatted file size "12.3 KB". */
  datatype Value =
    | Empty
    | Text(s: string)
    | Int(i: int)
    | Num(x: real)
    | Size(amount: real, unit: string)

  /** The fonts the report sets: the header's bold white and the warning's
      italic orange. Styles are otherwise opaque. */
  datatype Font = DefaultFont | HeaderFont | WarningFont
  datatype Fill = NoFill | WarningFill
  datatype Style = Style(font: Font, fill: Fill)

  const DefaultStyle: Style := Style(DefaultFont, NoFill)

  /** A cell: its value and its style travel together. */
  datatype Cell = Cell(value: Value, style: Style)

  const Blank: Cell := Cell(Empty, DefaultStyle)

  /** 1-based (row, column), as openpyxl numbers them. */
  datatype Pos = Pos(row: int, col: int)

  /** A declared table region, `ref` written as numbers. */
  datatype Region = Region(name: string, firstRow: int, firstCol: int, lastRow: int, lastCol: int)

  /** A DataFrame: column names and rows of values. */
  datatype Table = Table(columns: seq<string>, rows: seq<seq<Value>>)

  ghost predicate Rectangular(t: Table) {
    forall i :: 0 <= i < |t.rows| ==> |t.rows[i]| == |t.columns|
  }

  /** The cell at `p`; a cell never created reads as blank. */
  function Get(cells: map<Pos, Cell>, p: Pos): Cell {
    if p in cells then cells[p] else Blank
  }

  function Max(a: int, b: int): int {
    if a < b then b else a
  }

  function WithValue(c: Cell, v: Value): Cell {
    c.(value := v)
  }

  function WithStyle(c: Cell, s: Style): Cell {
    c.(style := s)
  }

  function WithFont(c: Cell, f: Font): Cell {
    c.(style := c.style.(font := f))
  }

  function WithFill(c: Cell, f: Fill): Cell {
    c.(style := c.style.(fill := f))
  }

  /** What `ws.cell(..., value=v)` leaves: the value set, unless it is None. */
  function DataCell(c: Cell, v: Value): (r: Cell)
    ensures r.style == c.style
    ensures v == Empty ==> r == c
    ensures v != Empty ==> r.value == v
  {
    if v == Empty then c else WithValue(c, v)
  }

  class Worksheet {
    const title: string
    var cells: map<Pos, Cell>
    var widths: map<int, nat>
    var tables: seq<Region>
    /** `max_row` and `max_column`: 1 on a new sheet, then raised to the row
        and column of every cell written, so they bound the cells' coordinates. */
    var maxRow: int
    var maxCol: int

    ghost predicate Valid()
      reads this
    {
      && 1 <= maxRow && 1 <= maxCol
      && forall p :: p in cells ==> 1 <= p.row <= maxRow && 1 <= p.col <= maxCol
    }

    /** `create_sheet(title)`: an empty sheet. */
    constructor (title: string)
      ensures Valid() && this.title == title
      ensures cells == map[] && widths == map[] && tables == [] && maxRow == 1 && maxCol == 1
    {
      this.title := title;
      cells, widths, tables := map[], map[], [];
      maxRow, maxCol := 1, 1;
    }

    /** Replaces the cell at `p`, creating it if absent. */
    method Put(p: Pos, c: Cell)
      requires Valid() && p.row >= 1 && p.col >= 1
      modifies this
      ensures Valid()
      ensures cells == old(cells)[p := c]
      ensures maxRow == Max(old(maxRow), p.row) && maxCol == Max(old(maxCol), p.col)
      ensures widths == old(widths) && tables == old(tables)
    {
      cells := cells[p := c];
      maxRow, maxCol := Max(maxRow, p.row), Max(maxCol, p.col);
    }

    /** `ws.cell(row, column, value=v)`: creates the cell if absent and sets
        its value unless `v` is None. */
    method CellWithValue(p: Pos, v: Value)
      requires Valid() && p.row >= 1 && p.col >= 1
      modifies this
      ensures Valid()
      ensures cells == old(cells)[p := DataCell(Get(old(cells), p), v)]
      ensures maxRow == Max(old(maxRow), p.row) && maxCol == Max(old(maxCol), p.col)
      ensures widths == old(widths) && tables == old(tables)
    {
      Put(p, DataCell(Get(cells, p), v));
    }

    /** `cell.value = v`. */
    method SetValue(p: Pos, v: Value)
      requires Valid() && p.row >= 1 && p.col >= 1
      modifies this
      ensures Valid()
      ensures cells == old(cells)[p := WithValue(Get(old(cells), p), v)]
      ensures maxRow == Max(old(maxRow), p.row) && maxCol == Max(old(maxCol), p.col)
      ensures widths == old(widths) && tables == old(tables)
    {
      Put(p, WithValue(Get(cells, p), v));
    }

    /** `cell.font = f`: the fill and the value are kept. */
    method SetFont(p: Pos, f: Font)
      requires Valid() && p.row >= 1 && p.col >= 1
      modifies this
      ensures Valid()
      ensures cells == old(cells)[p := WithFont(Get(old(cells), p), f)]
      ensures maxRow == Max(old(maxRow), p.row) && maxCol == Max(old(maxCol), p.col)
      ensures widths == old(widths) && tables == old(tables)
    {
      Put(p, WithFont(Get(cells, p), f));
    }

    /** `cell.fill = f`: the font and the value are kept. */
    method SetFill(p: Pos, f: Fill)
      requires Valid() && p.row >= 1 && p.col >= 1
      modifies this
      ensures Valid()
      ensures cells == old(cells)[p := WithFill(Get(old(cells), p), f)]
      ensures maxRow == Max(old(maxRow), p.row) && maxCol == Max(old(maxCol), p.col)
      ensures widths == old(widths) && tables == old(tables)
    {
      Put(p, WithFill(Get(cells, p), f));
    }

    /** `cell._style = s`: the whole style at once. */
    method SetStyle(p: Pos, s: Style)
      requires Valid() && p.row >= 1 && p.col >= 1
      modifies this
      ensures Valid()
      ensures cells == old(cells)[p := WithStyle(Get(old(cells), p), s)]
      ensures maxRow == Max(old(maxRow), p.row) && maxCol == Max(old(maxCol), p.col)
      ensures widths == old(widths) && tables == old(tables)
    {
      Put(p, WithStyle(Get(cells, p), s));
    }

    /** `ws.add_table(table)`. */
    method AddTable(r: Region)
      modifies this
      ensures tables == old(tables) + [r]
      ensures cells == old(cells) && widths == old(widths) && maxRow == old(maxRow) && maxCol == old(maxCol)
    {
      tables := tables + [r];
    }

    /** `ws.column_dimensions[letter].width = w`. */
    method SetWidth(col: int, w: nat)
      modifies this
      ensures widths == old(widths)[col := w]
      ensures cells == old(cells) && tables == old(tables) && maxRow == old(maxRow) && maxCol == old(maxCol)
    {
      widths := widths[col := w];
    }
  }

  /** The characters openpyxl refuses in a sheet title. */
  const ForbiddenInTitle: set<char> := {'\\', '*', '?', ':', '/', '[', ']'}

  /** A title openpyxl accepts: none of the forbidden characters. */
  predicate ValidTitle(title: string) {
    forall i :: 0 <= i < |title| ==> title[i] !in ForbiddenInTitle
  }

  class Workbook {
    var sheets: seq<Worksheet>

    /** `Workbook()` followed by the removal of its default sheet. */
    constructor ()
      ensures sheets == []
    {
      sheets := [];
    }

    /** `wb.create_sheet(title)`: a new empty sheet appended last. openpyxl
        raises ValueError on a title with a forbidden character, so its
        callers check the title first. */
    method CreateSheet(title: string) returns (ws: Worksheet)
      requires ValidTitle(title)
      modifies this
      ensures fresh(ws) && sheets == old(sheets) + [ws]
      ensures ws.Valid() && ws.title == title
      ensures ws.cells == map[] && ws.widths == map[] && ws.tables == [] && ws.maxRow == 1 && ws.maxCol == 1
    {
      ws := new Worksheet(title);
      sheets := sheets + [ws];
    }
  }

  // ---------------------------------------------------------------------------
  // write_df
  // ---------------------------------------------------------------------------

  /** `p` is a header cell of `t` written at (startRow, startCol). */
  predicate IsHeader(t: Table, startRow: int, startCol: int, p: Pos) {
    p.row == startRow + 1 && startCol + 1 <= p.col <= startCol + |t.columns|
  }

  /** `p` is a data cell of `t` written at (startRow, startCol). */
  predicate IsData(t: Table, startRow: int, startCol: int, p: Pos) {
    startRow + 2 <= p.row < startRow + 2 + |t.rows| && startCol + 1 <= p.col <= startCol + |t.columns|
  }

  /** A header cell over `c`: the column name, in the header font. */
  function HeaderCell(c: Cell, name: string): (r: Cell)
    ensures r.value == Text(name) && r.style.font == HeaderFont && r.style.fill == c.style.fill
  {
    WithFont(WithValue(c, Text(name)), HeaderFont)
  }

  /** The cell at `p` once `write_df` has written `t` over `c`. */
  function Written(c: Cell, t: Table, startRow: int, startCol: int, p: Pos): (r: Cell)
    requires Rectangular(t)
    ensures r.style.fill == c.style.fill
    ensures !IsHeader(t, startRow, startCol, p) && !IsData(t, startRow, startCol, p) ==> r == c
  {
    if IsHeader(t, startRow, startCol, p) then HeaderCell(c, t.columns[p.col - startCol - 1])
    else if IsData(t, startRow, startCol, p) then DataCell(c, t.rows[p.row - startRow - 2][p.col - startCol - 1])
    else c
  }

  /** One header cell: `ws.cell(..., value=col)` then its font. */
  method WriteHeaderCell(ws: Worksheet, p: Pos, name: string)
    requires ws.Valid() && p.row >= 1 && p.col >= 1
    modifies ws
    ensures ws.Valid()
    ensures ws.cells == old(ws.cells)[p := HeaderCell(Get(old(ws.cells), p), name)]
    ensures ws.maxRow == Max(old(ws.maxRow), p.row) && ws.maxCol == Max(old(ws.maxCol), p.col)
    ensures ws.widths == old(ws.widths) && ws.tables == old(ws.tables)
  {
    ws.CellWithValue(p, Text(name));
    ws.SetFont(p, HeaderFont);
  }

  /** The header loop of `write_df`. */
  method WriteHeader(ws: Worksheet, t: Table, startRow: int, startCol: int)
    requires ws.Valid() && startRow >= 0 && startCol >= 0
    modifies ws
    ensures ws.Valid()
    ensures forall p :: (Get(ws.cells, p) ==
      if p.row == startRow + 1 && startCol + 1 <= p.col <= startCol + |t.columns|
      then HeaderCell(Get(old(ws.cells), p), t.columns[p.col - startCol - 1]) else Get(old(ws.cells), p))
    ensures ws.maxRow == (if t.columns == [] then old(ws.maxRow) else Max(old(ws.maxRow), startRow + 1))
    ensures ws.maxCol == (if t.columns == [] then old(ws.maxCol) else Max(old(ws.maxCol), startCol + |t.columns|))
    ensures ws.widths == old(ws.widths) && ws.tables == old(ws.tables)
  {
    for c := 0 to |t.columns|
      invariant ws.Valid() && ws.widths == old(ws.widths) && ws.tables == old(ws.tables)
      invariant forall p :: (Get(ws.cells, p) ==
        if p.row == startRow + 1 && startCol + 1 <= p.col <= startCol + c
        then HeaderCell(Get(old(ws.cells), p), t.columns[p.col - startCol - 1]) else Get(old(ws.cells), p))
      invariant ws.maxRow == (if c == 0 then old(ws.maxRow) else Max(old(ws.maxRow), startRow + 1))
      invariant ws.maxCol == (if c == 0 then old(ws.maxCol) else Max(old(ws.maxCol), startCol + c))
    {
      var p := Pos(startRow + 1, startCol + c + 1);
      WriteHeaderCell(ws, p, t.columns[c]);
    }
  }

  /** One data row of `write_df`: row `r` of `t` at Excel row startRow + 2 + r. */
  method WriteRow(ws: Worksheet, t: Table, startRow: int, startCol: int, r: nat)
    requires ws.Valid() && Rectangular(t) && r < |t.rows| && startRow >= 0 && startCol >= 0
    modifies ws
    ensures ws.Valid()
    ensures forall p :: (Get(ws.cells, p) ==
      if p.row == startRow + 2 + r && startCol + 1 <= p.col <= startCol + |t.columns|
      then DataCell(Get(old(ws.cells), p), t.rows[r][p.col - startCol - 1]) else Get(old(ws.cells), p))
    ensures ws.maxRow == (if t.columns == [] then old(ws.maxRow) else Max(old(ws.maxRow), startRow + 2 + r))
    ensures ws.maxCol == (if t.columns == [] then old(ws.maxCol) else Max(old(ws.maxCol), startCol + |t.columns|))
    ensures ws.widths == old(ws.widths) && ws.tables == old(ws.tables)
  {
    for c := 0 to |t.columns|
      invariant ws.Valid() && ws.widths == old(ws.widths) && ws.tables == old(ws.tables)
      invariant forall p :: (Get(ws.cells, p) ==
        if p.row == startRow + 2 + r && startCol + 1 <= p.col <= startCol + c
        then DataCell(Get(old(ws.cells), p), t.rows[r][p.col - startCol - 1]) else Get(old(ws.cells), p))
      invariant ws.maxRow == (if c == 0 then old(ws.maxRow) else Max(old(ws.maxRow), startRow + 2 + r))
      invariant ws.maxCol == (if c == 0 then old(ws.maxCol) else Max(old(ws.maxCol), startCol + c))
    {
      ws.CellWithValue(Pos(startRow + 2 + r, startCol + c + 1), t.rows[r][c]);
    }
  }

  /** `write_df(ws, df, start_row, start_col)`: the header at row
      startRow + 1, the data below it, both from column startCol + 1. */
  method WriteDf(ws: Worksheet, t: Table, startRow: int, startCol: int)
    requires ws.Valid() && Rectangular(t) && startRow >= 0 && startCol >= 0
    modifies ws
    ensures ws.Valid()
    ensures forall p :: Get(ws.cells, p) == Written(Get(old(ws.cells), p), t, startRow, startCol, p)
    ensures ws.maxRow == (if t.columns == [] then old(ws.maxRow) else Max(old(ws.maxRow), startRow + 1 + |t.rows|))
    ensures ws.maxCol == (if t.columns == [] then old(ws.maxCol) else Max(old(ws.maxCol), startCol + |t.columns|))
    ensures ws.widths == old(ws.widths) && ws.tables == old(ws.tables)
  {
    WriteHeader(ws, t, startRow, startCol);
    ghost var afterHeader := ws.cells;
    ghost var rowAfterHeader := ws.maxRow;
    for r := 0 to |t.rows|
      invariant ws.Valid() && ws.widths == old(ws.widths) && ws.tables == old(ws.tables)
      invariant forall p :: (Get(ws.cells, p) ==
        if startRow + 2 <= p.row < startRow + 2 + r && startCol + 1 <= p.col <= startCol + |t.columns|
        then DataCell(Get(afterHeader, p), t.rows[p.row - startRow - 2][p.col - startCol - 1]) else Get(afterHeader, p))
      invariant ws.maxRow == (if t.columns == [] then rowAfterHeader else Max(rowAfterHeader, startRow + 1 + r))
      invariant ws.maxCol == (if t.columns == [] then old(ws.maxCol) else Max(old(ws.maxCol), startCol + |t.columns|))
    {
      WriteRow(ws, t, startRow, startCol, r);
    }
  }

  /** On an empty sheet the header row sits at startRow + 1 in the header
      font, and row i of the table at startRow + 2 + i, value for value. */
  lemma WrittenOnBlankShowsTable(t: Table, startRow: int, startCol: int)
    requires Rectangular(t)
    ensures forall j :: 0 <= j < |t.columns| ==>
      Written(Blank, t, startRow, startCol, Pos(startRow + 1, startCol + 1 + j)) == Cell(Text(t.columns[j]), Style(HeaderFont, NoFill))
    ensures forall i, j :: 0 <= i < |t.rows| && 0 <= j < |t.columns| ==>
      Written(Blank, t, startRow, startCol, Pos(startRow + 2 + i, startCol + 1 + j)) == Cell(t.rows[i][j], DefaultStyle)
    ensures forall p :: !IsHeader(t, startRow, startCol, p) && !IsData(t, startRow, startCol, p) ==>
      Written(Blank, t, startRow, startCol, p) == Blank
  {
  }

  // ---------------------------------------------------------------------------
  // add_table_and_resize
  // ---------------------------------------------------------------------------

  /** Python's `max` over a non-empty list of lengths. */
  function Widest(lengths: seq<nat>): (w: nat)
    requires lengths != []
    ensures forall i :: 0 <= i < |lengths| ==> lengths[i] <= w
  {
    if |lengths| == 1 then lengths[0]
    else
      var rest := Widest(lengths[1..]);
      if lengths[0] < rest then rest else lengths[0]
  }

  /** The maximum is one of the lengths. */
  lemma {:induction false} WidestIsAttained(lengths: seq<nat>)
    requires lengths != []
    ensures exists i :: 0 <= i < |lengths| && lengths[i] == Widest(lengths)
  {
    if |lengths| == 1 || Widest(lengths) == lengths[0] {
      assert lengths[0] == Widest(lengths);
    } else {
      WidestIsAttained(lengths[1..]);
      var k :| 0 <= k < |lengths[1..]| && lengths[1..][k] == Widest(lengths[1..]);
      assert lengths[k + 1] == Widest(lengths);
    }
  }

  /** The lengths `max` runs over for column `j`: its name's, then each
      value's as text. */
  function Lengths(t: Table, j: nat, shown: Value -> string): (ls: seq<nat>)
    requires Rectangular(t) && j < |t.columns|
    ensures |ls| == |t.rows| + 1 && ls[0] == |t.columns[j]|
    ensures forall i {:trigger ls[i]} :: 1 <= i < |ls| ==> ls[i] == |shown(t.rows[i - 1][j])|
  {
    [|t.columns[j]|] + seq(|t.rows|, i requires 0 <= i < |t.rows| => |shown(t.rows[i][j])|)
  }

  /** The width of column `j`: the longest of its name and its values as
      text, plus 2. */
  function ColumnWidth(t: Table, j: nat, shown: Value -> string): nat
    requires Rectangular(t) && j < |t.columns|
  {
    Widest(Lengths(t, j, shown)) + 2
  }

  /** Each column is 2 wider than its widest entry, name or value, so every
      entry fits and one of them fills it. */
  lemma ColumnWidthFits(t: Table, j: nat, shown: Value -> string)
    requires Rectangular(t) && j < |t.columns|
    ensures ColumnWidth(t, j, shown) >= |t.columns[j]| + 2
    ensures forall i :: 0 <= i < |t.rows| ==> ColumnWidth(t, j, shown) >= |shown(t.rows[i][j])| + 2
    ensures ColumnWidth(t, j, shown) == |t.columns[j]| + 2 ||
      exists i :: 0 <= i < |t.rows| && ColumnWidth(t, j, shown) == |shown(t.rows[i][j])| + 2
  {
    var ls := Lengths(t, j, shown);
    var w := Widest(ls);
    forall i | 0 <= i < |t.rows| ensures w >= |shown(t.rows[i][j])| {
      assert ls[i + 1] <= w && ls[i + 1] == |shown(t.rows[i][j])|;
    }
    WidestIsAttained(ls);
    var k :| 0 <= k < |ls| && ls[k] == w;
    if k > 0 {
      assert w == |shown(t.rows[k - 1][j])|;
    }
  }

  /** The width `add_table_and_resize` gives to sheet column `col` of a
      table written from column startCol + 1. */
  function WidthAt(t: Table, startCol: int, col: int, shown: Value -> string): nat
    requires Rectangular(t) && startCol + 1 <= col <= startCol + |t.columns|
  {
    ColumnWidth(t, col - startCol - 1, shown)
  }

  /** The region `write_df` filled: header row and data rows. */
  function TableRegion(t: Table, name: string, startRow: int, startCol: int): (r: Region)
    ensures r.name == name
    ensures |t.columns| > 0 ==> forall p: Pos ::
      (r.firstRow <= p.row <= r.lastRow && r.firstCol <= p.col <= r.lastCol) <==>
      (IsHeader(t, startRow, startCol, p) || IsData(t, startRow, startCol, p))
  {
    Region(name, startRow + 1, startCol + 1, startRow + 1 + |t.rows|, startCol + |t.columns|)
  }

  /** The widths after the first `n` columns of the table have been set:
      those columns get their `WidthAt`, every other column keeps its old
      width or stays unset. */
  function Resized(w0: map<int, nat>, t: Table, startCol: int, n: nat, shown: Value -> string): (w: map<int, nat>)
    requires Rectangular(t) && n <= |t.columns|
    ensures forall col :: startCol + 1 <= col <= startCol + n ==>
      col in w && w[col] == WidthAt(t, startCol, col, shown)
    ensures forall col :: !(startCol + 1 <= col <= startCol + n) ==>
      (col in w <==> col in w0) && (col in w ==> w[col] == w0[col])
  {
    if n == 0 then w0
    else Resized(w0, t, startCol, n - 1, shown)[startCol + n := ColumnWidth(t, n - 1, shown)]
  }

  /** `add_table_and_resize(ws, df, name, start_row, start_col)`: declares
      the region and sets the width of each of its columns. `shown` is
      pandas' conversion of a value to text. */
  method AddTableAndResize(ws: Worksheet, t: Table, name: string, startRow: int, startCol: int, shown: Value -> string)
    requires Rectangular(t)
    modifies ws
    ensures ws.tables == old(ws.tables) + [TableRegion(t, name, startRow, startCol)]
    ensures ws.widths == Resized(old(ws.widths), t, startCol, |t.columns|, shown)
    ensures ws.cells == old(ws.cells) && ws.maxRow == old(ws.maxRow) && ws.maxCol == old(ws.maxCol)
  {
    var nRows, nCols := |t.rows|, |t.columns|;
    var firstRow := startRow + 1;
    var lastRow := firstRow + nRows;
    var firstCol := startCol + 1;
    var lastCol := firstCol + nCols - 1;
    ws.AddTable(Region(name, firstRow, firstCol, lastRow, lastCol));
    for idx := 0 to nCols
      invariant ws.tables == old(ws.tables) + [TableRegion(t, name, startRow, startCol)]
      invariant ws.cells == old(ws.cells) && ws.maxRow == old(ws.maxRow) && ws.maxCol == old(ws.maxCol)
      invariant ws.widths == Resized(old(ws.widths), t, startCol, idx, shown)
    {
      var w := ColumnWidth(t, idx, shown);
      ws.SetWidth(firstCol + idx, w);
    }
  }

  // ---------------------------------------------------------------------------
  // Highlighting of IfcBuildingElementProxy rows in the entities sheet
  // ---------------------------------------------------------------------------

  const KindColumn: string := "Entité IFC"
  const ProxyKind: string := "IfcBuildingElementProxy"
  const AttentionLabel: string := "Attention"
  /** Column B, where every table starts. */
  const FirstTableCol: int := 2
  /** Row 3, the first data row (row 2 holds the header). */
  const FirstDataRow: int := 3

  /** The position of the column named `name`, as `df[name]` finds it. */
  function ColumnIndex(columns: seq<string>, name: string): (r: Option<nat>)
    ensures r.Some? ==> r.value < |columns| && columns[r.value] == name
    ensures r.None? <==> name !in columns
  {
    if columns == [] then None
    else if columns[0] == name then Some(0)
    else
      match ColumnIndex(columns[1..], name)
      case None => None
      case Some(i) => Some(i + 1)
  }

  /** Data row `i` (0-based) has kind IfcBuildingElementProxy in column `k`. */
  predicate IsProxyRow(t: Table, k: nat, i: int)
    requires Rectangular(t) && k < |t.columns|
  {
    0 <= i < |t.rows| && t.rows[i][k] == Text(ProxyKind)
  }

  /** The cell in column `col` of a proxy row over `c`, for a table of `n`
      columns: the table's columns get the warning fill, the column just after
      the table gets "Attention" in the warning font, the others are kept. */
  function Marked(c: Cell, n: nat, col: int): (r: Cell)
    ensures col < FirstTableCol || col > FirstTableCol + n ==> r == c
    ensures r.value != c.value ==> col == FirstTableCol + n
    ensures FirstTableCol <= col < FirstTableCol + n ==> r.style.fill == WarningFill
  {
    if FirstTableCol <= col < FirstTableCol + n then WithFill(c, WarningFill)
    else if col == FirstTableCol + n then WithFont(WithValue(c, Text(AttentionLabel)), WarningFont)
    else c
  }

  /** The cell at `p` once the proxy rows are highlighted over `c`: marked in
      a proxy row, unchanged in any other. */
  function Highlighted(c: Cell, t: Table, k: nat, p: Pos): (r: Cell)
    requires Rectangular(t) && k < |t.columns|
    ensures p.row < FirstDataRow || p.row >= FirstDataRow + |t.rows| ==> r == c
  {
    if IsProxyRow(t, k, p.row - FirstDataRow) then Marked(c, |t.columns|, p.col) else c
  }

  /** The "Attention" cell: its value, then its font. */
  method WriteAttention(ws: Worksheet, p: Pos)
    requires ws.Valid() && p.row >= 1 && p.col >= 1
    modifies ws
    ensures ws.Valid()
    ensures ws.cells == old(ws.cells)[p := WithFont(WithValue(Get(old(ws.cells), p), Text(AttentionLabel)), WarningFont)]
    ensures ws.maxRow == Max(old(ws.maxRow), p.row) && ws.maxCol == Max(old(ws.maxCol), p.col)
    ensures ws.widths == old(ws.widths) && ws.tables == old(ws.tables)
  {
    ws.SetValue(p, Text(AttentionLabel));
    ws.SetFont(p, WarningFont);
  }

  /** The warning fill over the `n` table columns of Excel row `row`. */
  method FillRow(ws: Worksheet, n: nat, row: int)
    requires ws.Valid() && row >= 1
    modifies ws
    ensures ws.Valid()
    ensures forall p :: (Get(ws.cells, p) ==
      if p.row == row && FirstTableCol <= p.col < FirstTableCol + n
      then WithFill(Get(old(ws.cells), p), WarningFill) else Get(old(ws.cells), p))
    ensures ws.maxRow == (if n == 0 then old(ws.maxRow) else Max(old(ws.maxRow), row))
    ensures ws.maxCol == (if n == 0 then old(ws.maxCol) else Max(old(ws.maxCol), FirstTableCol + n - 1))
    ensures ws.widths == old(ws.widths) && ws.tables == old(ws.tables)
  {
    for off := 0 to n
      invariant ws.Valid() && ws.widths == old(ws.widths) && ws.tables == old(ws.tables)
      invariant forall p :: (Get(ws.cells, p) ==
        if p.row == row && FirstTableCol <= p.col < FirstTableCol + off
        then WithFill(Get(old(ws.cells), p), WarningFill) else Get(old(ws.cells), p))
      invariant ws.maxRow == (if off == 0 then old(ws.maxRow) else Max(old(ws.maxRow), row))
      invariant ws.maxCol == (if off == 0 then old(ws.maxCol) else Max(old(ws.maxCol), FirstTableCol + off - 1))
    {
      ws.SetFill(Pos(row, FirstTableCol + off), WarningFill);
    }
  }

  /** The highlighting of one row at Excel row `row`. */
  method MarkRow(ws: Worksheet, n: nat, row: int)
    requires ws.Valid() && row >= 1
    modifies ws
    ensures ws.Valid()
    ensures forall p :: (Get(ws.cells, p) ==
      if p.row == row then Marked(Get(old(ws.cells), p), n, p.col) else Get(old(ws.cells), p))
    ensures ws.maxRow == Max(old(ws.maxRow), row)
    ensures ws.maxCol == Max(old(ws.maxCol), FirstTableCol + n)
    ensures ws.widths == old(ws.widths) && ws.tables == old(ws.tables)
  {
    FillRow(ws, n, row);
    WriteAttention(ws, Pos(row, FirstTableCol + n));
  }

  /** The highlighting in `build_workbook`. It fails, changing nothing, when
      the table has no "Entité IFC" column (the KeyError of `df[...]`). */
  method HighlightProxies(ws: Worksheet, t: Table) returns (ok: bool)
    requires ws.Valid() && Rectangular(t)
    modifies ws
    ensures ws.Valid()
    ensures ok <==> KindColumn in t.columns
    ensures !ok ==> ws.cells == old(ws.cells) && ws.maxRow == old(ws.maxRow) && ws.maxCol == old(ws.maxCol)
    ensures ok ==> forall p :: (Get(ws.cells, p) ==
      Highlighted(Get(old(ws.cells), p), t, ColumnIndex(t.columns, KindColumn).value, p))
    ensures ws.maxRow >= old(ws.maxRow) && ws.maxCol >= old(ws.maxCol)
    ensures ws.widths == old(ws.widths) && ws.tables == old(ws.tables)
  {
    var col := ColumnIndex(t.columns, KindColumn);
    if col.None? {
      return false;
    }
    ok := true;
    var k := col.value;
    for i := 0 to |t.rows|
      invariant ws.Valid() && ws.widths == old(ws.widths) && ws.tables == old(ws.tables)
      invariant forall p :: (Get(ws.cells, p) ==
        if p.row < FirstDataRow + i then Highlighted(Get(old(ws.cells), p), t, k, p) else Get(old(ws.cells), p))
      invariant ws.maxRow >= old(ws.maxRow) && ws.maxCol >= old(ws.maxCol)
    {
      if t.rows[i][k] == Text(ProxyKind) {
        MarkRow(ws, |t.columns|, FirstDataRow + i);
      }
    }
  }

  /** Exactly the proxy rows change, each at Excel row 3 + its index: the
      table's cells in it are filled, the cell after the table says
      "Attention", and every cell of any other row stays as it was. */
  lemma HighlightTouchesProxyRowsOnly(t: Table, k: nat, c: Cell, p: Pos)
    requires Rectangular(t) && k < |t.columns|
    ensures !IsProxyRow(t, k, p.row - FirstDataRow) ==> Highlighted(c, t, k, p) == c
    ensures IsProxyRow(t, k, p.row - FirstDataRow) ==>
      && Highlighted(c, t, k, Pos(p.row, FirstTableCol + |t.columns|)).value == Text(AttentionLabel)
      && (FirstTableCol <= p.col < FirstTableCol + |t.columns| ==>
            Highlighted(c, t, k, p) == Cell(c.value, Style(c.style.font, WarningFill)))
      && (p.col < FirstTableCol || p.col > FirstTableCol + |t.columns| ==> Highlighted(c, t, k, p) == c)
  {
  }
}

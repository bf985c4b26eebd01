/** `build_workbook`: the four tables of one IFC file (summary, levels,
    hierarchy, entities) and the workbook that shows them, one sheet each,
    with the proxy elements highlighted in the entities sheet. */
module Report {
  import opened Wrappers
  import opened IfcModel
  import opened Units
  import opened Spatial
  import opened Levels
  import Hierarchy
  import Entities
  import StableSort
  import opened Sheets

  /** A value pandas leaves as None is written as no value. */
  function RealValue(v: Option<real>): (r: Value)
    ensures r == Empty <==> v.None?
  {
    match v
    case None => Empty
    case Some(x) => Num(x)
  }

  function TextValue(v: Option<string>): (r: Value)
    ensures r == Empty <==> v.None?
  {
    match v
    case None => Empty
    case Some(s) => Text(s)
  }

  // ---------------------------------------------------------------------------
  // Résumé
  // ---------------------------------------------------------------------------

  const SummaryColumns: seq<string> := ["Propriété", "Valeur"]

  function Pair(key: string, v: Value): seq<Value> {
    [Text(key), v]
  }

  /** The items of `get_global_coords`' dictionary, in key order. */
  function OriginPairs(g: GlobalCoords): (items: seq<seq<Value>>)
    ensures g.NoCoords? <==> items == []
    ensures g.Coords? ==> |items| == 3
    ensures forall i :: 0 <= i < |items| ==> |items[i]| == 2
  {
    match g
    case NoCoords => []
    case Coords(x, y, z) => [Pair("X_global_m", RealValue(x)), Pair("Y_global_m", RealValue(y)), Pair("Z_global_m", RealValue(z))]
  }

  /** The items of `get_site_geolocation`'s dictionary, in key order. */
  function GeoPairs(g: GeoLocation): (items: seq<seq<Value>>)
    ensures g.NoSite? <==> items == []
    ensures g.GeoLocation? ==> |items| == 3
    ensures forall i :: 0 <= i < |items| ==> |items[i]| == 2
  {
    match g
    case NoSite => []
    case GeoLocation(lat, lon, elev) => [Pair("latitude", RealValue(lat)), Pair("longitude", RealValue(lon)), Pair("elevation_m", RealValue(elev))]
  }

  /** The shown file size: the amount in the unit `human_readable_size` picks. */
  function SizeValue(bytes: nat): Value {
    Size(InUnit(bytes, UnitIndex(bytes)), SizeUnits[UnitIndex(bytes)])
  }

  /** The summary: file name, size and schema, then the global origin's
      items, then the geolocation's. */
  function SummaryTable(fileName: string, bytes: nat, m: Model): (t: Table)
    ensures Rectangular(t) && t.columns == SummaryColumns && |t.rows| >= 3
    ensures t.rows[..3] == [Pair("fichier", Text(fileName)), Pair("taille", SizeValue(bytes)), Pair("schéma", Text(m.schema))]
    ensures t.rows[3..] == OriginPairs(GlobalOrigin(m)) + GeoPairs(SiteGeolocation(m))
  {
    var head := [Pair("fichier", Text(fileName)), Pair("taille", SizeValue(bytes)), Pair("schéma", Text(m.schema))];
    var tail := OriginPairs(GlobalOrigin(m)) + GeoPairs(SiteGeolocation(m));
    assert forall i :: 0 <= i < |tail| ==> |tail[i]| == 2;
    assert (head + tail)[..3] == head && (head + tail)[3..] == tail;
    Table(SummaryColumns, head + tail)
  }

  /** The summary has 3 rows, plus 3 when an origin is known, plus 3 when
      there is a site; with a map conversion, the origin rows hold its
      offsets in metres whatever the site says. */
  lemma SummaryLayout(fileName: string, bytes: nat, m: Model)
    ensures |SummaryTable(fileName, bytes, m).rows| ==
      3 + (if m.mapConversions == [] && (m.sites == [] || !m.sites[0].placement.LocalPlacement?) then 0 else 3)
        + (if m.sites == [] then 0 else 3)
    ensures m.mapConversions != [] ==>
      var mc, f := m.mapConversions[0], LengthFactor(m);
      SummaryTable(fileName, bytes, m).rows[3..6] ==
        [Pair("X_global_m", Num(InMetres(mc.eastings, f))),
         Pair("Y_global_m", Num(InMetres(mc.northings, f))),
         Pair("Z_global_m", RealValue(Scale(mc.orthogonalHeight, f)))]
  {
    var t := SummaryTable(fileName, bytes, m);
    assert |t.rows| == 3 + |t.rows[3..]|;
    if m.mapConversions != [] {
      assert t.rows[3..6] == t.rows[3..][..3];
    }
  }

  // ---------------------------------------------------------------------------
  // Niveaux
  // ---------------------------------------------------------------------------

  const LevelColumns: seq<string> := ["Nom", "Altimétrie locale (m)", "Altimétrie NGF (m)"]

  /** One row per storey, in elevation order: name, local and NGF altitude. */
  function LevelsTable(m: Model): (t: Table)
    ensures Rectangular(t) && t.columns == LevelColumns
    ensures |t.rows| == |LevelsOf(m)| == |m.storeys|
    ensures forall i :: 0 <= i < |t.rows| ==>
      t.rows[i] == [TextValue(LevelsOf(m)[i].name), RealValue(LevelsOf(m)[i].local), RealValue(LevelsOf(m)[i].ngf)]
  {
    var rows := LevelsOf(m);
    assert |rows| == |m.storeys| by {
      assert |multiset(GetLevels(m))| == |multiset(m.storeys)|;
    }
    Table(LevelColumns, seq(|rows|, i requires 0 <= i < |rows| =>
      [TextValue(rows[i].name), RealValue(rows[i].local), RealValue(rows[i].ngf)]))
  }

  // ---------------------------------------------------------------------------
  // Arborescence
  // ---------------------------------------------------------------------------

  const HierarchyColumns: seq<string> := ["Type", "Nom", "Profondeur", "Chemin"]

  /** A DataFrame built from the rows' dictionaries: no row gives no column. */
  function HierarchyTable(rows: seq<Hierarchy.Row>): (t: Table)
    ensures Rectangular(t) && |t.rows| == |rows|
    ensures t.columns == (if rows == [] then [] else HierarchyColumns)
    ensures forall i :: 0 <= i < |rows| ==>
      t.rows[i] == [Text(rows[i].kind), Text(rows[i].name), Int(rows[i].depth), Text(rows[i].path)]
  {
    if rows == [] then Table([], [])
    else Table(HierarchyColumns, seq(|rows|, i requires 0 <= i < |rows| =>
      [Text(rows[i].kind), Text(rows[i].name), Int(rows[i].depth), Text(rows[i].path)]))
  }

  // ---------------------------------------------------------------------------
  // Entités
  // ---------------------------------------------------------------------------

  const EntityColumns: seq<string> := [KindColumn, "Type", "Nombre"]

  /** A DataFrame built from the entity rows' dictionaries: no row gives no column. */
  function EntitiesTable(rows: seq<Entities.EntityRow>): (t: Table)
    ensures Rectangular(t) && |t.rows| == |rows|
    ensures t.columns == (if rows == [] then [] else EntityColumns)
    ensures forall i :: 0 <= i < |rows| ==>
      t.rows[i] == [Text(rows[i].kind), Text(rows[i].subtype), Int(rows[i].count)]
  {
    if rows == [] then Table([], [])
    else Table(EntityColumns, seq(|rows|, i requires 0 <= i < |rows| =>
      [Text(rows[i].kind), Text(rows[i].subtype), Int(rows[i].count)]))
  }

  /** The entities table starts with its "Entité IFC" column. */
  predicate EntitiesHaveKindColumn(ps: seq<Product>) {
    var t := EntitiesTable(Entities.EntityRows(ps));
    t.columns != [] && t.columns[0] == KindColumn
  }

  /** The entities table of a model has an "Entité IFC" column exactly when
      the model has a product; it is then the first column. */
  lemma EntitiesHaveKindColumnIffProducts(ps: seq<Product>)
    ensures KindColumn in EntitiesTable(Entities.EntityRows(ps)).columns <==> ps != []
    ensures ps != [] ==> EntitiesHaveKindColumn(ps)
    ensures ps != [] ==> ColumnIndex(EntitiesTable(Entities.EntityRows(ps)).columns, KindColumn) == Some(0)
  {
    Entities.EntityRowsEmptyIffNoProducts(ps);
  }

  // ---------------------------------------------------------------------------
  // The workbook
  // ---------------------------------------------------------------------------

  /** The sheet titles, in order. */
  const SummaryTitle: string := "Résumé"
  const LevelsTitle: string := "Niveaux"
  const HierarchyTitle: string := "Arborescence"
  const EntitiesTitle: string := "Entités"

  /** openpyxl accepts the four titles. */
  lemma TitlesValid()
    ensures ValidTitle(SummaryTitle) && ValidTitle(LevelsTitle)
    ensures ValidTitle(HierarchyTitle) && ValidTitle(EntitiesTitle)
  {
  }

  /** `ws` has title `title`, the one table region `{title}Tbl` over `t`
      written at (1, 1), and the widths of exactly that region's columns. */
  ghost predicate Laid(ws: Worksheet, title: string, t: Table, shown: Value -> string)
    requires Rectangular(t)
    reads ws
  {
    && ws.Valid()
    && ws.title == title
    && ws.tables == [TableRegion(t, title + "Tbl", 1, 1)]
    && ws.widths == Widths(t, shown)
  }

  /** The width of each column of `t` written from column 2. */
  function Widths(t: Table, shown: Value -> string): (w: map<int, nat>)
    requires Rectangular(t)
    ensures forall col :: col in w <==> 2 <= col <= 1 + |t.columns|
  {
    map col | 2 <= col <= 1 + |t.columns| :: WidthAt(t, 1, col, shown)
  }

  /** One pass of the loop over `sheets_data`: a new sheet, the table written
      at (1, 1), its region declared and its columns sized. */
  method AddSheet(wb: Workbook, title: string, t: Table, shown: Value -> string) returns (ws: Worksheet)
    requires Rectangular(t) && ValidTitle(title)
    modifies wb
    ensures fresh(ws) && wb.sheets == old(wb.sheets) + [ws]
    ensures Laid(ws, title, t, shown)
    ensures forall p :: Get(ws.cells, p) == Written(Blank, t, 1, 1, p)
  {
    ws := wb.CreateSheet(title);
    WriteDf(ws, t, 1, 1);
    AddTableAndResize(ws, t, title + "Tbl", 1, 1, shown);
    assert ws.widths == Widths(t, shown);
  }

  /** The four tables of `build_workbook`, computed as the source does:
      the size by its loop, the hierarchy by its walk, the counter by its
      loop followed by the sort. */
  method ComputeTables(m: Model, fileName: string, bytes: nat, ghost rank: map<string, nat>)
    returns (summary: Table, levels: Table, hierarchy: Table, entities: Table)
    requires Hierarchy.Ranked(Hierarchy.BuildIndex(m.aggregates), rank)
    ensures summary == SummaryTable(fileName, bytes, m)
    ensures levels == LevelsTable(m)
    ensures hierarchy == HierarchyTable(Hierarchy.Flattened(m, rank))
    ensures entities == EntitiesTable(Entities.EntityRows(m.products))
  {
    var amount, unit := HumanReadableSize(bytes);
    summary := Table(SummaryColumns,
      [Pair("fichier", Text(fileName)), Pair("taille", Size(amount, unit)), Pair("schéma", Text(m.schema))]
      + OriginPairs(GlobalOrigin(m)) + GeoPairs(SiteGeolocation(m)));
    levels := LevelsTable(m);
    var flat := Hierarchy.FlattenHierarchy(m, rank);
    hierarchy := HierarchyTable(flat);
    var counter := Entities.CountProducts(m.products);
    entities := EntitiesTable(Entities.TallyRows(StableSort.Sort(counter, Entities.ByCountThenKind)));
  }

  /** The workbook holds the four sheets, in order, each showing its table;
      in the entities sheet the proxy rows are highlighted. */
  ghost predicate Shows(wb: Workbook, summary: Table, levels: Table, hierarchy: Table, entities: Table, shown: Value -> string)
    requires Rectangular(summary) && Rectangular(levels) && Rectangular(hierarchy) && Rectangular(entities)
    requires entities.columns != [] && entities.columns[0] == KindColumn
    reads wb, wb.sheets
  {
    && |wb.sheets| == 4
    && Laid(wb.sheets[0], SummaryTitle, summary, shown)
    && Laid(wb.sheets[1], LevelsTitle, levels, shown)
    && Laid(wb.sheets[2], HierarchyTitle, hierarchy, shown)
    && Laid(wb.sheets[3], EntitiesTitle, entities, shown)
    && Holds(wb.sheets, summary, levels, hierarchy, entities)
  }

  /** The cells of the four sheets `sheets`: each table written at (1, 1) on
      a blank sheet, the proxy rows of the entities table highlighted. */
  ghost predicate Holds(sheets: seq<Worksheet>, summary: Table, levels: Table, hierarchy: Table, entities: Table)
    requires |sheets| == 4
    requires Rectangular(summary) && Rectangular(levels) && Rectangular(hierarchy) && Rectangular(entities)
    requires entities.columns != [] && entities.columns[0] == KindColumn
    reads sheets
  {
    && (forall p :: Get(sheets[0].cells, p) == Written(Blank, summary, 1, 1, p))
    && (forall p :: Get(sheets[1].cells, p) == Written(Blank, levels, 1, 1, p))
    && (forall p :: Get(sheets[2].cells, p) == Written(Blank, hierarchy, 1, 1, p))
    && (forall p :: Get(sheets[3].cells, p) == Highlighted(Written(Blank, entities, 1, 1, p), entities, 0, p))
  }

  /** Sheets holding the same cells as sheets that hold the report hold it too. */
  lemma HoldsOnCopies(copies: seq<Worksheet>, sheets: seq<Worksheet>, summary: Table, levels: Table, hierarchy: Table, entities: Table)
    requires |copies| == 4 && |sheets| == 4
    requires Rectangular(summary) && Rectangular(levels) && Rectangular(hierarchy) && Rectangular(entities)
    requires entities.columns != [] && entities.columns[0] == KindColumn
    requires forall i, p :: 0 <= i < 4 ==> Get(copies[i].cells, p) == Get(sheets[i].cells, p)
    requires Holds(sheets, summary, levels, hierarchy, entities)
    ensures Holds(copies, summary, levels, hierarchy, entities)
  {
  }

  /** The four sheets, in order, each with its title. */
  ghost predicate Titled(wb: Workbook)
    reads wb, wb.sheets
  {
    && |wb.sheets| == 4
    && wb.sheets[0].title == SummaryTitle && wb.sheets[1].title == LevelsTitle
    && wb.sheets[2].title == HierarchyTitle && wb.sheets[3].title == EntitiesTitle
    && forall i :: 0 <= i < 4 ==> wb.sheets[i].Valid()
  }

  /** The loop over `sheets_data`: the four sheets, each with its table. */
  method LaySheets(summary: Table, levels: Table, hierarchy: Table, entities: Table, shown: Value -> string)
    returns (wb: Workbook)
    requires Rectangular(summary) && Rectangular(levels) && Rectangular(hierarchy) && Rectangular(entities)
    ensures fresh(wb) && |wb.sheets| == 4 && forall i :: 0 <= i < 4 ==> fresh(wb.sheets[i])
    ensures wb.sheets[3] !in wb.sheets[..3]
    ensures Laid(wb.sheets[0], SummaryTitle, summary, shown)
    ensures Laid(wb.sheets[1], LevelsTitle, levels, shown)
    ensures Laid(wb.sheets[2], HierarchyTitle, hierarchy, shown)
    ensures Laid(wb.sheets[3], EntitiesTitle, entities, shown)
    ensures forall p :: Get(wb.sheets[0].cells, p) == Written(Blank, summary, 1, 1, p)
    ensures forall p :: Get(wb.sheets[1].cells, p) == Written(Blank, levels, 1, 1, p)
    ensures forall p :: Get(wb.sheets[2].cells, p) == Written(Blank, hierarchy, 1, 1, p)
    ensures forall p :: Get(wb.sheets[3].cells, p) == Written(Blank, entities, 1, 1, p)
  {
    wb := new Workbook();
    TitlesValid();
    var s0 := AddSheet(wb, SummaryTitle, summary, shown);
    var s1 := AddSheet(wb, LevelsTitle, levels, shown);
    var s2 := AddSheet(wb, HierarchyTitle, hierarchy, shown);
    var s3 := AddSheet(wb, EntitiesTitle, entities, shown);
    assert wb.sheets == [s0, s1, s2, s3];
  }

  /** The sheets, then the highlighting of the entities sheet. */
  method Assemble(summary: Table, levels: Table, hierarchy: Table, entities: Table, shown: Value -> string)
    returns (wb: Workbook, ok: bool)
    requires Rectangular(summary) && Rectangular(levels) && Rectangular(hierarchy) && Rectangular(entities)
    requires entities.columns != [] ==> entities.columns[0] == KindColumn
    ensures fresh(wb)
    ensures ok <==> entities.columns != []
    ensures ok ==> Shows(wb, summary, levels, hierarchy, entities, shown) && Titled(wb)
    ensures ok ==> forall i :: 0 <= i < 4 ==> fresh(wb.sheets[i])
  {
    wb := LaySheets(summary, levels, hierarchy, entities, shown);
    var s3 := wb.sheets[3];
    ok := HighlightProxies(s3, entities);
    if ok {
      assert ColumnIndex(entities.columns, KindColumn) == Some(0);
    }
  }

  /** `build_workbook` on a model whose aggregation graph is acyclic, for a
      file named `fileName` of `bytes` bytes; `shown` is pandas' conversion of
      a value to text. It fails (`ok` false) exactly when the model has no
      product: the entities table then has no "Entité IFC" column. */
  method BuildWorkbook(m: Model, fileName: string, bytes: nat, shown: Value -> string, ghost rank: map<string, nat>)
    returns (wb: Workbook, ok: bool)
    requires Hierarchy.Ranked(Hierarchy.BuildIndex(m.aggregates), rank)
    ensures fresh(wb)
    ensures ok <==> m.products != []
    ensures ok ==> EntitiesHaveKindColumn(m.products) && Titled(wb)
    ensures ok ==>
      Shows(wb, SummaryTable(fileName, bytes, m), LevelsTable(m), HierarchyTable(Hierarchy.Flattened(m, rank)),
            EntitiesTable(Entities.EntityRows(m.products)), shown)
    ensures ok ==> forall i :: 0 <= i < 4 ==> fresh(wb.sheets[i])
  {
    var summary, levels, hierarchy, entities := ComputeTables(m, fileName, bytes, rank);
    EntitiesHaveKindColumnIffProducts(m.products);
    wb, ok := Assemble(summary, levels, hierarchy, entities, shown);
  }
}

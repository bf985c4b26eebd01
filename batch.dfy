/** `process_single`: one IFC file either becomes its own workbook, saved
    next to it or in the output directory, or has its sheets copied into the
    accumulating merge workbook. */
module Batch {
  import opened Wrappers
  import opened IfcModel
  import opened Sheets
  import Hierarchy
  import Report
  import Entities

  /** A file path split as pathlib splits it: directory, stem and suffix. */
  datatype FilePath = FilePath(dir: string, stem: string, suffix: string)

  function Name(f: FilePath): string {
    f.stem + f.suffix
  }

  const WorkbookSuffix: string := ".xlsx"

  /** `(out_dir or ifc_path.parent) / ifc_path.with_suffix(".xlsx").name`. A
      Path is always truthy, so any given output directory wins. */
  function StandaloneTarget(ifc: FilePath, outDir: Option<string>): (t: FilePath)
    ensures t.stem == ifc.stem && t.suffix == WorkbookSuffix
    ensures outDir.None? ==> t.dir == ifc.dir
    ensures outDir.Some? ==> t.dir == outDir.value
  {
    FilePath(outDir.GetOr(ifc.dir), ifc.stem, WorkbookSuffix)
  }

  /** Two IFC files with the same stem in different folders get the same
      target once an output directory is given: the second overwrites the
      first. Without one, each target stays beside its own file. */
  lemma TargetsCollideOnStem(a: FilePath, b: FilePath, out: string)
    requires a.stem == b.stem
    ensures StandaloneTarget(a, Some(out)) == StandaloneTarget(b, Some(out))
    ensures a.dir != b.dir ==> StandaloneTarget(a, None) != StandaloneTarget(b, None)
  {
  }

  /** The title of a copied sheet: `f"{sheet}_{stem}"`. */
  function MergedTitle(sheet: string, stem: string): (title: string)
    ensures |title| == |sheet| + 1 + |stem|
  {
    sheet + "_" + stem
  }

  /** The separator is an accepted character, so the title of a copy of an
      accepted sheet title is accepted exactly when the file's stem is. */
  lemma MergedTitleValid(sheet: string, stem: string)
    requires ValidTitle(sheet)
    ensures ValidTitle(MergedTitle(sheet, stem)) <==> ValidTitle(stem)
  {
    var t := MergedTitle(sheet, stem);
    assert t[..|sheet|] == sheet && t[|sheet|] == '_' && t[|sheet| + 1..] == stem;
    if ValidTitle(stem) {
      forall i | 0 <= i < |t| ensures t[i] !in ForbiddenInTitle {
        if i < |sheet| {
          assert t[i] == t[..|sheet|][i];
        } else if i > |sheet| {
          assert t[i] == t[|sheet| + 1..][i - |sheet| - 1];
        }
      }
    } else {
      var k :| 0 <= k < |stem| && stem[k] in ForbiddenInTitle;
      assert t[|sheet| + 1 + k] == t[|sheet| + 1..][k];
    }
  }

  /** Position `p` lies in the box `ws.rows` walks: rows 1..maxRow, columns 1..maxCol. */
  predicate InBox(maxRow: int, maxCol: int, p: Pos) {
    1 <= p.row <= maxRow && 1 <= p.col <= maxCol
  }

  /** `dst[coordinate].value = cell.value` then `._style = cell._style`:
      the value, then the style taken as it stands in the source sheet. */
  method CopyCell(dst: Worksheet, p: Pos, cell: Cell)
    requires dst.Valid() && p.row >= 1 && p.col >= 1
    modifies dst
    ensures dst.Valid()
    ensures dst.cells == old(dst.cells)[p := cell]
    ensures dst.maxRow == Max(old(dst.maxRow), p.row) && dst.maxCol == Max(old(dst.maxCol), p.col)
    ensures dst.widths == old(dst.widths) && dst.tables == old(dst.tables)
  {
    dst.SetValue(p, cell.value);
    dst.SetStyle(p, cell.style);
  }

  /** Copies one row of `src` into `dst`, value and style of each cell. */
  method CopyRow(src: Worksheet, dst: Worksheet, r: int)
    requires src != dst && src.Valid() && dst.Valid() && 1 <= r <= src.maxRow
    modifies dst
    ensures dst.Valid()
    ensures forall p :: Get(dst.cells, p) == if p.row == r && 1 <= p.col <= src.maxCol then Get(src.cells, p) else Get(old(dst.cells), p)
    ensures dst.maxRow == Max(old(dst.maxRow), r) && dst.maxCol == Max(old(dst.maxCol), src.maxCol)
    ensures dst.widths == old(dst.widths) && dst.tables == old(dst.tables)
  {
    for c := 1 to src.maxCol + 1
      invariant dst.Valid() && dst.widths == old(dst.widths) && dst.tables == old(dst.tables)
      invariant forall p :: Get(dst.cells, p) == if p.row == r && 1 <= p.col < c then Get(src.cells, p) else Get(old(dst.cells), p)
      invariant dst.maxRow == (if c == 1 then old(dst.maxRow) else Max(old(dst.maxRow), r))
      invariant dst.maxCol == (if c == 1 then old(dst.maxCol) else Max(old(dst.maxCol), c - 1))
    {
      var p := Pos(r, c);
      CopyCell(dst, p, Get(src.cells, p));
    }
  }

  /** The copy loop of the merge branch, into a new empty sheet: every cell
      of `src` appears in `dst` at the same coordinate with its value and its
      style. A sheet without cells yields no rows and copies nothing. */
  method CopySheet(src: Worksheet, dst: Worksheet)
    requires src != dst && src.Valid() && dst.Valid()
    requires dst.cells == map[] && dst.maxRow == 1 && dst.maxCol == 1
    modifies dst
    ensures dst.Valid()
    ensures forall p :: Get(dst.cells, p) == Get(src.cells, p)
    ensures dst.maxRow == (if src.cells == map[] then 1 else src.maxRow)
    ensures dst.maxCol == (if src.cells == map[] then 1 else src.maxCol)
    ensures dst.widths == old(dst.widths) && dst.tables == old(dst.tables)
  {
    if src.cells == map[] {
      return;
    }
    for r := 1 to src.maxRow + 1
      invariant dst.Valid() && dst.widths == old(dst.widths) && dst.tables == old(dst.tables)
      invariant forall p :: Get(dst.cells, p) == if InBox(r - 1, src.maxCol, p) then Get(src.cells, p) else Blank
      invariant dst.maxRow == Max(1, r - 1) && dst.maxCol == (if r == 1 then 1 else src.maxCol)
    {
      CopyRow(src, dst, r);
    }
  }

  /** `d` is the copy of `src` the merge branch makes: titled
      `{sheet}_{stem}`, with the same cells and no widths or tables. */
  ghost predicate Copied(d: Worksheet, src: Worksheet, stem: string)
    reads d, src
  {
    && d.title == MergedTitle(src.title, stem)
    && (forall p :: Get(d.cells, p) == Get(src.cells, p))
    && d.widths == map[] && d.tables == []
  }

  /** One turn of the merge loop: `create_sheet` then the copy of `src`. */
  method AppendCopy(acc: Workbook, src: Worksheet, stem: string) returns (dst: Worksheet)
    requires src.Valid() && ValidTitle(MergedTitle(src.title, stem))
    modifies acc
    ensures acc.sheets == old(acc.sheets) + [dst]
    ensures fresh(dst) && Copied(dst, src, stem)
  {
    dst := acc.CreateSheet(MergedTitle(src.title, stem));
    CopySheet(src, dst);
  }

  /** The merge branch: one new sheet per sheet of `wb`, in order, named
      `{sheet}_{stem}` and holding the same cells; the sheets already in
      `acc` stay as they were. Column widths and table regions are not copied.
      The titles of `wb` are ones openpyxl accepted, so the copies' titles are
      accepted exactly when the stem is; when it is not, the first
      `create_sheet` raises (`ok` false) before anything is appended. */
  method MergeInto(acc: Workbook, wb: Workbook, stem: string) returns (ok: bool)
    requires acc != wb
    requires forall i :: 0 <= i < |wb.sheets| ==> wb.sheets[i].Valid() && ValidTitle(wb.sheets[i].title)
    modifies acc
    ensures ok <==> ValidTitle(stem) || wb.sheets == []
    ensures !ok ==> acc.sheets == old(acc.sheets)
    ensures ok ==> |acc.sheets| == |old(acc.sheets)| + |wb.sheets|
    ensures ok ==> acc.sheets[..|old(acc.sheets)|] == old(acc.sheets)
    ensures ok ==> forall i :: 0 <= i < |wb.sheets| ==>
      fresh(acc.sheets[|old(acc.sheets)| + i]) && Copied(acc.sheets[|old(acc.sheets)| + i], wb.sheets[i], stem)
  {
    ghost var made: seq<Worksheet> := [];
    for i := 0 to |wb.sheets|
      invariant acc.sheets == old(acc.sheets) + made && |made| == i
      invariant i > 0 ==> ValidTitle(stem)
      invariant forall j :: 0 <= j < i ==> fresh(made[j]) && Copied(made[j], wb.sheets[j], stem)
    {
      var src := wb.sheets[i];
      MergedTitleValid(src.title, stem);
      if !ValidTitle(MergedTitle(src.title, stem)) {
        return false;
      }
      var dst := AppendCopy(acc, src, stem);
      made := made + [dst];
    }
    ok := true;
  }

  /** The merge branch on the workbook `build_workbook` made, showing the
      four tables: the four sheets are appended to `acc` holding the same
      cells, unless openpyxl refuses the stem in a title, in which case the
      first `create_sheet` raises and nothing is appended. */
  method MergeReport(acc: Workbook, wb: Workbook, stem: string, ghost summary: Table, ghost levels: Table,
                     ghost hierarchy: Table, ghost entities: Table, ghost shown: Value -> string)
    returns (ok: bool)
    requires acc != wb
    requires Rectangular(summary) && Rectangular(levels) && Rectangular(hierarchy) && Rectangular(entities)
    requires entities.columns != [] && entities.columns[0] == KindColumn
    requires Report.Titled(wb) && Report.Shows(wb, summary, levels, hierarchy, entities, shown)
    modifies acc
    ensures ok <==> ValidTitle(stem)
    ensures !ok ==> acc.sheets == old(acc.sheets)
    ensures ok ==>
      && |acc.sheets| == |old(acc.sheets)| + 4
      && acc.sheets[..|old(acc.sheets)|] == old(acc.sheets)
      && acc.sheets[|old(acc.sheets)|].title == MergedTitle(Report.SummaryTitle, stem)
      && acc.sheets[|old(acc.sheets)| + 1].title == MergedTitle(Report.LevelsTitle, stem)
      && acc.sheets[|old(acc.sheets)| + 2].title == MergedTitle(Report.HierarchyTitle, stem)
      && acc.sheets[|old(acc.sheets)| + 3].title == MergedTitle(Report.EntitiesTitle, stem)
      && Report.Holds(acc.sheets[|old(acc.sheets)|..], summary, levels, hierarchy, entities)
  {
    Report.TitlesValid();
    ok := MergeInto(acc, wb, stem);
    if ok {
      var copies := acc.sheets[|old(acc.sheets)|..];
      assert forall i :: 0 <= i < 4 ==> copies[i] == acc.sheets[|old(acc.sheets)| + i];
      Report.HoldsOnCopies(copies, wb.sheets, summary, levels, hierarchy, entities);
    }
  }

  /** What `process_single` leaves behind when it returns. */
  datatype Outcome =
    /** It raised: `build_workbook` on a model without products, or
        `create_sheet` on a merged title openpyxl refuses. */
    | Failed
    /** The sheets went into the merge workbook; nothing is saved. */
    | Merged
    /** The workbook is to be saved at the target. */
    | Standalone(wb: Workbook, target: FilePath)

  /** `process_single` for the file `ifc` of `bytes` bytes holding model `m`. */
  method ProcessSingle(ifc: FilePath, m: Model, bytes: nat, outDir: Option<string>, merge: bool, mergeWb: Workbook?,
                       shown: Value -> string, ghost rank: map<string, nat>)
    returns (outcome: Outcome)
    requires Hierarchy.Ranked(Hierarchy.BuildIndex(m.aggregates), rank)
    modifies mergeWb
    ensures outcome.Failed? <==> m.products == [] || (merge && mergeWb != null && !ValidTitle(ifc.stem))
    ensures outcome.Merged? <==> m.products != [] && merge && mergeWb != null && ValidTitle(ifc.stem)
    ensures mergeWb != null && !outcome.Merged? ==> mergeWb.sheets == old(mergeWb.sheets)
    ensures outcome.Merged? ==>
      && |mergeWb.sheets| == |old(mergeWb.sheets)| + 4
      && mergeWb.sheets[..|old(mergeWb.sheets)|] == old(mergeWb.sheets)
      && mergeWb.sheets[|old(mergeWb.sheets)|].title == MergedTitle(Report.SummaryTitle, ifc.stem)
      && mergeWb.sheets[|old(mergeWb.sheets)| + 1].title == MergedTitle(Report.LevelsTitle, ifc.stem)
      && mergeWb.sheets[|old(mergeWb.sheets)| + 2].title == MergedTitle(Report.HierarchyTitle, ifc.stem)
      && mergeWb.sheets[|old(mergeWb.sheets)| + 3].title == MergedTitle(Report.EntitiesTitle, ifc.stem)
      && Report.Holds(mergeWb.sheets[|old(mergeWb.sheets)|..], Report.SummaryTable(Name(ifc), bytes, m), Report.LevelsTable(m),
                      Report.HierarchyTable(Hierarchy.Flattened(m, rank)), Report.EntitiesTable(Entities.EntityRows(m.products)))
    ensures outcome.Standalone? ==>
      && outcome.target == StandaloneTarget(ifc, outDir)
      && Report.EntitiesHaveKindColumn(m.products) && Report.Titled(outcome.wb)
      && Report.Shows(outcome.wb, Report.SummaryTable(Name(ifc), bytes, m), Report.LevelsTable(m),
                      Report.HierarchyTable(Hierarchy.Flattened(m, rank)), Report.EntitiesTable(Entities.EntityRows(m.products)), shown)
  {
    var wb, ok := Report.BuildWorkbook(m, Name(ifc), bytes, shown, rank);
    if !ok {
      return Failed;
    }
    if merge && mergeWb != null {
      var merged := MergeReport(mergeWb, wb, ifc.stem, Report.SummaryTable(Name(ifc), bytes, m), Report.LevelsTable(m),
                                Report.HierarchyTable(Hierarchy.Flattened(m, rank)), Report.EntitiesTable(Entities.EntityRows(m.products)), shown);
      return if merged then Merged else Failed;
    }
    outcome := Standalone(wb, StandaloneTarget(ifc, outDir));
  }
}

# multi_anabim: IFC model to Excel report

This project models the core of `multi_anabim.py`, a script that reads an IFC
building model and writes an Excel workbook describing it. The model is in
Dafny and its properties are proved. The script reads the model with
ifcopenshell and writes with pandas and openpyxl. The workbook has four sheets:

- **Résumé**: file name, human-readable size, schema, the global origin and
  the site's geolocation.
- **Niveaux**: the storeys sorted by elevation, with their local and NGF
  altitudes.
- **Arborescence**: the spatial hierarchy walked from the project along the
  aggregation relations.
- **Entités**: the products counted by (kind, subtype), most frequent first.
  Rows of `IfcBuildingElementProxy` are highlighted.

In batch mode each file's workbook is saved next to the file or in the
output directory. With `--merge` its sheets are instead copied into one
shared workbook.

The modules, one per file:

| module | file | models |
|---|---|---|
| `Wrappers` | wrappers.dfy | `Option` |
| `IfcModel` | ifc_model.dfy | the parts of an IFC model the report reads, as values |
| `Units` | units.dfy | `get_length_factor`, `dms_to_dd`, `human_readable_size` |
| `StableSort` | stable_sort.dfy | Python's stable `sorted`, as an insertion sort |
| `Spatial` | spatial.dfy | `get_site_geolocation`, `get_global_coords` |
| `Levels` | levels.dfy | `get_levels` and the altitude columns |
| `Hierarchy` | hierarchy.dfy | `flatten_hierarchy` |
| `Entities` | entities.dfy | the entity counter and its ranking |
| `Sheets` | sheets.dfy | worksheets and workbooks, `write_df`, `add_table_and_resize`, the proxy highlighting |
| `Report` | report.dfy | `build_workbook` |
| `Batch` | batch.dfy | `process_single`: the merge copy and the target path |

How each kind of code is modelled:

- **Pure computations** become functions, with lemmas about them.
- **Code that mutates state** becomes methods on classes:
  - The openpyxl sheet is a `Worksheet` whose cell map, widths, table regions
    and `max_row`/`max_column` change in place.
  - The workbook is a `Workbook` whose sheet list grows.
- **Loops** become methods with loops, each proved against a specification
  function: `human_readable_size`, the counter, the recursive walk, the
  `write_df` and resize loops, the highlighting and the merge copy.

An IFC model has no guarantee that its aggregation graph is acyclic. The
source has no cycle guard: on a cycle its walk recurses until Python's
recursion limit. The model therefore takes a ghost `rank` map under which
every parent-to-child edge decreases (`Hierarchy.Ranked`). The walk and
everything that calls it require one. The rank is asked of every relation in
the model, while the source only needs the part reachable from the first
project to be acyclic: a cycle among relations the walk never reaches does
not stop the source, but is outside this model.

## Model

All sources are in `multi_anabim.py`.

| member | source | states |
|---|---|---|
| Units.FindSILength | multi_anabim.py:64 | finds the first SI length unit of the assignment, or reports that there is none |
| Units.LengthFactor | multi_anabim.py:60-69 | the factor is 0.001 or 1.0, and 0.001 exactly when the first assignment's first SI length unit has prefix MILLI; every failed lookup gives 1.0 |
| Units.LengthFactorReadsFirstAssignment | multi_anabim.py:63 | unit assignments after the first do not change the factor |
| Units.Padded | multi_anabim.py:88-89 | the first four components are the angle's, with missing ones read as 0 |
| Units.DmsToDd | multi_anabim.py:80-91 | None in, None out; any angle gives a value |
| Units.DmsExamples | multi_anabim.py:80-91 | worked values: zero, a northern and a southern latitude, and a millionths-of-a-second component |
| Units.DmsPaddingIsZero | multi_anabim.py:88-89 | appending a 0 to a short angle changes nothing; components after the fourth are ignored |
| Units.DmsSignFromDegrees | multi_anabim.py:90-91 | negating the degrees negates the result |
| Units.DmsWithinOneDegree | multi_anabim.py:90-91 | with minutes, seconds and millionths in range, the result is within one degree of the degrees, on the degrees' side |
| Units.DmsAllNegativeComponents | multi_anabim.py:90-91 | the sign comes from the degrees alone: for (-33, -52, 0), an angle with every component negative, the minutes are subtracted from \|degrees\| |
| Units.InUnitStep | multi_anabim.py:56 | one more division by 1024 is one unit up |
| Units.UnitIndex | multi_anabim.py:53-57 | the chosen unit is the first of B…TB in which the size is below 1024, or PB when there is none |
| Units.HumanReadableSize | multi_anabim.py:52-57 | the loop returns the amount in that unit and that unit's name |
| StableSort.SortPermutes | multi_anabim.py:77 | `sorted` returns a permutation of its input |
| StableSort.SortSorted | multi_anabim.py:77 | the result is in key order under any total preorder |
| StableSort.SortStable | multi_anabim.py:77 | elements of equal key keep their input order |
| StableSort.SortDistinctBy | multi_anabim.py:224 | elements that were distinct under a projection stay distinct |
| Spatial.SiteAngle | multi_anabim.py:99-100 | an absent or empty angle gives None, otherwise its decimal degrees |
| Spatial.SiteGeolocation | multi_anabim.py:94-102 | no site gives the empty dictionary; otherwise the first site's latitude, longitude and unscaled elevation |
| Spatial.SiteGeolocationReadsFirstSiteOnly | multi_anabim.py:95 | neither the units nor any later site change the geolocation |
| Spatial.Scale | multi_anabim.py:123-125 | a missing coordinate stays missing; a present one is multiplied by the factor |
| Spatial.GlobalOrigin | multi_anabim.py:105-127 | three tiers: the first map conversion's offsets in metres (Z None when its height is None), else the site's local placement padded to three coordinates, else empty |
| Spatial.MapConversionIsAuthoritative | multi_anabim.py:111-116 | with a map conversion the origin does not depend on the sites |
| Spatial.OriginScalesWithUnits | multi_anabim.py:106-126 | a model in millimetres gives a thousandth of the same model in metres, coordinate by coordinate |
| Levels.ByElevationIsTotalPreorder | multi_anabim.py:77 | the key `t[1] or 0` orders storeys by a total preorder |
| Levels.GetLevels | multi_anabim.py:75-77 | the storeys, permuted into ascending order of elevation, a missing one counting as 0 |
| Levels.GetLevelsIsStable | multi_anabim.py:77 | storeys at the same sort elevation keep their order in the file |
| Levels.LevelRows | multi_anabim.py:196-199 | local altitude is the elevation times the factor; NGF is local plus the origin's Z, and is present exactly when both are |
| Levels.LevelsAscendByLocalAltitude | multi_anabim.py:197-198 | the local altitudes come out ascending, a missing one counting as 0 |
| Hierarchy.IndexOfRelations | multi_anabim.py:131 | the index has a key for each relating object, mapped to the related objects of the last relation naming it |
| Hierarchy.LaterRelationReplaces | multi_anabim.py:131 | two relations for one parent keep only the second's children |
| Hierarchy.BuildIndex | multi_anabim.py:131 | the dictionary, built relation by relation, has at most one key per relation |
| Hierarchy.DisplayName | multi_anabim.py:136 | Name, else LongName, else GlobalId; an empty string counts as missing |
| Hierarchy.Label | multi_anabim.py:137 | the label reads back as the kind, a colon, then the name |
| Hierarchy.Join | multi_anabim.py:138 | `"/".join`: a single segment is the path itself |
| Hierarchy.JoinSnoc | multi_anabim.py:137-138 | joining a path extended by one label appends "/" and the label to the joined path |
| Hierarchy.Walk | multi_anabim.py:135-140 | the rows `walk` appends for an entity: its own row at depth \|path\|, then each child's rows in order; the shape is stated by WalkNested |
| Hierarchy.WalkAll | multi_anabim.py:139-140 | the rows of a list of children, one child after the other; the shape is stated by WalkAllNested |
| Hierarchy.Flattened | multi_anabim.py:142-144 | there are no rows exactly when the model has no project |
| Hierarchy.WalkInto | multi_anabim.py:135-140 | the recursive `walk` appends exactly the pre-order rows of the entity's subtree |
| Hierarchy.WalkEach | multi_anabim.py:139-140 | the loop over the children appends each child's rows in turn |
| Hierarchy.FlattenHierarchy | multi_anabim.py:130-144 | the rows are those of the walk from the first project, or none without one |
| Hierarchy.WalkNested | multi_anabim.py:135-140 | a walk's first row is its entity at depth \|path\| with path joined; every later row is deeper and follows its parent's row |
| Hierarchy.WalkAllNested | multi_anabim.py:139-140 | the rows of a list of siblings are nested below their common path |
| Hierarchy.FlattenedShape | multi_anabim.py:130-144 | no project gives no rows; otherwise the project's row comes first at depth 0, and every other row is deeper and has its parent's row earlier, one level up, with the parent's path plus its label |
| Entities.Subtype | multi_anabim.py:213-218 | the predefined type when set, else a non-empty object type, else None |
| Entities.Find | multi_anabim.py:220 | the dictionary lookup finds the key's item, or reports that it is absent |
| Entities.Bump | multi_anabim.py:220 | after the increment the key is in the counter, which has grown by at most one item |
| Entities.Tallied | multi_anabim.py:210-220 | the counter after each product in turn; its counts are stated by TalliedIsCount |
| Entities.CountProducts | multi_anabim.py:210-220 | the counting loop builds the counter of the products |
| Entities.TalliedIsCount | multi_anabim.py:210-220 | one item per key, each counting the products with that key (at least 1); every product's key is present; the counts add up to the number of products |
| Entities.BumpAddsOne | multi_anabim.py:220 | each increment adds one to the total |
| Entities.BumpCountsProduct | multi_anabim.py:220 | an increment keeps every count equal to its key's occurrences |
| Entities.ByCountThenKindIsTotalPreorder | multi_anabim.py:224 | the key `(-count, kind)` is a total preorder |
| Entities.StrLe | multi_anabim.py:224 | Python's comparison of strings by code point, which StrLeTotal shows is total |
| Entities.Ranked | multi_anabim.py:224 | the counter's items sorted by `(-count, kind)`; order, permutation and stability are stated by RankedIsCountDescending and RankedIsStable |
| Entities.RankedPermutesCounter | multi_anabim.py:224 | the ranked items are a permutation of the counter, with unique keys and the same total |
| Entities.RankedCountsProducts | multi_anabim.py:222-225 | each ranked item counts the products with its key |
| Entities.RankedIsCountDescending | multi_anabim.py:222-225 | ordered by count descending, then by kind ascending in Python's string order |
| Entities.RankedIsStable | multi_anabim.py:224 | items tied on count and kind keep the order their keys first appeared |
| Entities.ShownSubtype | multi_anabim.py:223 | `k[1] or "—"`: never blank, either the subtype itself or "—" |
| Entities.EntityRows | multi_anabim.py:222-225 | one row per ranked item: kind, subtype or "—", count |
| Entities.EntityRowsEmptyIffNoProducts | multi_anabim.py:222-226 | the rows are empty exactly when there are no products |
| Entities.EntityRowsExample | multi_anabim.py:210-225 | X, X, Y(S), X gives (X, —, 3) then (Y, S, 1) |
| Sheets.Worksheet.constructor | multi_anabim.py:238 | a new sheet is empty, with max_row and max_column 1 |
| Sheets.Worksheet.CellWithValue | multi_anabim.py:152 | `ws.cell(value=v)` creates the cell and sets the value unless it is None |
| Sheets.Worksheet.SetValue | multi_anabim.py:256 | `cell.value = v` keeps the style |
| Sheets.Worksheet.SetFont | multi_anabim.py:153 | `cell.font = f` keeps the value and the fill |
| Sheets.Worksheet.SetFill | multi_anabim.py:253 | `cell.fill = f` keeps the value and the font |
| Sheets.Worksheet.SetStyle | multi_anabim.py:289 | `cell._style = s` keeps the value |
| Sheets.Worksheet.AddTable | multi_anabim.py:168 | the region is appended; nothing else changes |
| Sheets.Worksheet.SetWidth | multi_anabim.py:172 | one column's width is set; nothing else changes |
| Sheets.Workbook.constructor | multi_anabim.py:229-230 | the workbook starts with no sheet |
| Sheets.Workbook.CreateSheet | multi_anabim.py:238 | a fresh empty sheet is appended last; the title must be one openpyxl accepts |
| Sheets.DataCell | multi_anabim.py:156 | `ws.cell(value=v)` keeps the style; None keeps the cell, any other value replaces the old one |
| Sheets.HeaderCell | multi_anabim.py:152-153 | the column name in the header font, with the fill kept |
| Sheets.Written | multi_anabim.py:150-156 | `write_df` never changes a fill, and leaves every cell outside the header and data rows as it was |
| Sheets.WriteHeaderCell | multi_anabim.py:152-153 | the header cell gets the column name in the header font |
| Sheets.WriteHeader | multi_anabim.py:151-153 | the header loop writes exactly row start_row + 1, one cell per column |
| Sheets.WriteRow | multi_anabim.py:155-156 | one data row is written at start_row + 2 + index; None leaves a cell as it was |
| Sheets.WriteDf | multi_anabim.py:150-156 | every cell ends as `Written` of what it held; max_row and max_column grow to the table's corner |
| Sheets.WrittenOnBlankShowsTable | multi_anabim.py:150-156 | on an empty sheet the header and rows sit at their offsets, and every other cell is blank |
| Sheets.TableRegion | multi_anabim.py:160-166 | for a table with columns, the region covers exactly the header and data cells `write_df` writes at the same start |
| Sheets.Widest | multi_anabim.py:171 | `max` is at least every length |
| Sheets.WidestIsAttained | multi_anabim.py:171 | `max` is one of the lengths |
| Sheets.Lengths | multi_anabim.py:171 | the column name's length, then each value's text length |
| Sheets.ColumnWidthFits | multi_anabim.py:171-172 | the width is 2 more than the widest entry: every entry fits and one of them fills it |
| Sheets.Resized | multi_anabim.py:169-172 | the table's columns get their width; every other column keeps its old width |
| Sheets.AddTableAndResize | multi_anabim.py:159-172 | the region covers the header and data rows; widths are as `Resized`; cells are unchanged |
| Sheets.ColumnIndex | multi_anabim.py:248 | `df["Entité IFC"]` finds the column by name, or fails exactly when it is absent |
| Sheets.Marked | multi_anabim.py:249-257 | in a proxy row only the table's columns (warning fill) and the column after them change; only the latter gets a new value |
| Sheets.Highlighted | multi_anabim.py:248-257 | the header row, the rows above it and the rows below the data are never marked |
| Sheets.WriteAttention | multi_anabim.py:255-257 | the cell after the table gets "Attention" in the warning font |
| Sheets.FillRow | multi_anabim.py:252-253 | the warning fill is on exactly the table's columns of that row |
| Sheets.MarkRow | multi_anabim.py:249-257 | a proxy row is `Marked`: fill over the table, "Attention" after it |
| Sheets.HighlightProxies | multi_anabim.py:242-257 | fails, changing no cell, exactly when the kind column is missing; otherwise every cell is `Highlighted` |
| Sheets.HighlightTouchesProxyRowsOnly | multi_anabim.py:248-257 | only proxy rows change, at Excel row 3 + index; other columns of a proxy row are untouched |
| Report.RealValue | multi_anabim.py:192 | None is written as no value |
| Report.TextValue | multi_anabim.py:201 | None is written as no value |
| Report.OriginPairs | multi_anabim.py:192 | `glob.items()`: no pair without an origin, else three key-value pairs |
| Report.GeoPairs | multi_anabim.py:192 | `geo.items()`: no pair without a site, else three key-value pairs |
| Report.SummaryTable | multi_anabim.py:186-193 | two columns; fichier, taille, schéma, then the origin's items, then the geolocation's |
| Report.SummaryLayout | multi_anabim.py:188-192 | 3 rows, plus 3 with an origin, plus 3 with a site; with a map conversion, rows 4 to 6 are its offsets in metres |
| Report.LevelsTable | multi_anabim.py:195-204 | one row per storey, in elevation order: name, local and NGF altitude |
| Report.HierarchyTable | multi_anabim.py:207 | one row per walked object; no rows gives no columns |
| Report.EntitiesTable | multi_anabim.py:222-226 | one row per ranked item; no rows gives no columns |
| Report.EntitiesHaveKindColumnIffProducts | multi_anabim.py:226 | the "Entité IFC" column exists exactly when there is a product, and is then the first column |
| Report.Widths | multi_anabim.py:169-172 | the widths of a table written at (1, 1) cover exactly its columns B onward |
| Report.TitlesValid | multi_anabim.py:231-236 | openpyxl accepts the four sheet titles |
| Report.AddSheet | multi_anabim.py:237-240 | a fresh sheet holding the written table, its region and its widths |
| Report.ComputeTables | multi_anabim.py:183-226 | the imperative steps (size loop, walk, counter loop, sort) give the four specified tables |
| Report.LaySheets | multi_anabim.py:229-240 | four fresh sheets, in order, each laid out with its table |
| Report.Assemble | multi_anabim.py:229-257 | the four sheets, then the highlighting, which fails exactly when the entities table has no columns |
| Report.BuildWorkbook | multi_anabim.py:178-258 | fails exactly when the model has no product; otherwise the four titled sheets show the specified tables, with proxy rows highlighted |
| Report.HoldsOnCopies | multi_anabim.py:284-289 | sheets holding the same cells as the report's sheets hold the report too |
| Batch.StandaloneTarget | multi_anabim.py:292 | the stem with ".xlsx", in the output directory when one is given, else beside the IFC file |
| Batch.TargetsCollideOnStem | multi_anabim.py:292 | same-stem files in different folders collide once an output directory is given, and not otherwise |
| Batch.MergedTitle | multi_anabim.py:285 | `f"{sheet}_{stem}"`, one character longer than the sheet title and the stem together |
| Batch.MergedTitleValid | multi_anabim.py:285 | for an accepted sheet title, the copy's title is accepted exactly when the stem is |
| Batch.CopyCell | multi_anabim.py:288-289 | the value, then the style as it stands in the source sheet; every other cell stays |
| Batch.CopyRow | multi_anabim.py:286-289 | one row of the source box is copied; every other cell stays |
| Batch.CopySheet | multi_anabim.py:284-289 | every cell of the source appears at the same coordinate; an empty source copies nothing |
| Batch.AppendCopy | multi_anabim.py:285-289 | one `create_sheet` then the copy: a fresh sheet appended last, titled `{sheet}_{stem}`, holding the source's cells |
| Batch.MergeInto | multi_anabim.py:281-290 | fails, appending nothing, exactly when there is a sheet to copy and the stem holds a character openpyxl refuses in a title; otherwise one fresh sheet per source sheet, in order, titled `{sheet}_{stem}` with the same cells, earlier sheets staying as they were |
| Batch.MergeReport | multi_anabim.py:281-290 | the four report sheets are appended, titled `{sheet}_{stem}` and holding the report's cells, exactly when the stem is accepted; otherwise the merge workbook is unchanged |
| Batch.ProcessSingle | multi_anabim.py:277-293 | fails exactly without products, or when merging a file whose stem openpyxl refuses in a title, leaving the merge workbook unchanged; otherwise merges exactly when merge is set and a merge workbook is given, the appended sheets holding the report's tables; otherwise returns the workbook showing those tables and the standalone target |

## Left out

- `main`, argument parsing, `discover_ifcs`, `save_wb` and the launcher script: file-system and command-line I/O. The model returns the target path and the workbook instead of saving them.
- Opening the IFC file and `stat()`: the parsed model and the byte count are parameters.
- ifcopenshell's schema differences: each attribute that may be missing or None is an `Option`. The `RuntimeError` that `by_type("IfcMapConversion")` raises on IFC2X3 is modelled as an empty list.
- The `LongName` attribute error on entities that lack it: every entity carries an optional long name.
- Floating point: reals are exact. The `%3.1f` formatting of the size is left out; `Size(amount, unit)` holds the unrounded amount.
- pandas' conversion of None to NaN in float columns: None is written as no value.
- pandas' `str()` rendering of a value: this is the parameter `shown`, and widths are stated in terms of it.
- Duplicate sheet titles in the merge workbook: openpyxl renames the second copy. The model keeps `{sheet}_{stem}` as given.
- openpyxl's validation of a table over zero columns: the region is recorded as computed.
- Cells openpyxl creates in the source sheet while `ws.rows` walks its box: the source sheet is not modified by the copy.
- Table styles, colours and the number format: fonts and fills are reduced to the three fonts and two fills the report sets.
- The workbook's default sheet: `Workbook()` followed by `wb.remove(wb.active)` is modelled as a workbook with no sheet.
- The end of the batch run on an exception: the `KeyError` of a model without products or the `ValueError` of a refused sheet title escapes `process_single`, and the loop in `main` has no handler, so the files after it are not processed and the merge workbook is never saved. `ProcessSingle` reports `Failed` for that file and leaves the rest to its caller.
- Sheet titles longer than 31 characters: openpyxl only warns about them, so `{sheet}_{stem}` is kept at any length.
- Cyclic aggregation graphs: the source recurses without a bound on them. The model requires a rank that decreases along every edge, including edges the walk never reaches.
- Sheets.HighlightProxies: states only that max_row and max_column do not decrease, not their exact new values.
- Batch.CopySheet: states the destination's cells and box, not that openpyxl's style objects are shared between the two sheets.
- Batch.CopyCell: copies the style as a value. In openpyxl `_style` holds indices into the owning workbook's font and fill tables, and the merge workbook's tables hold only the defaults, so a copied header font or warning fill is read against the merge workbook's own tables. The model does not capture what the merged sheets then show for those styles.
- Batch.MergeInto: the same as for `Batch.CopyCell`: the copied sheets' style indices are read against the merge workbook's own font and fill tables, which the model does not represent.

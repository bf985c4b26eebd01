/** The hierarchy flattener: the aggregation relations indexed by the GlobalId
    of their relating object, then a pre-order walk from the project that
    emits one row per object with its depth and its `/`-joined path of
    `kind:name` labels. */
module Hierarchy {
  import opened Wrappers
  import opened IfcModel

  /** Relating GlobalId -> related objects. */
  type Index = map<string, seq<Entity>>

  /** The dict comprehension over the relations: a later relation with the
      same relating object replaces an earlier one. */
  function BuildIndex(rels: seq<Aggregates>): (ix: Index)
    ensures |ix| <= |rels|
  {
    if rels == [] then map[]
    else BuildIndex(rels[..|rels| - 1])[rels[|rels| - 1].relatingId := rels[|rels| - 1].related]
  }

  /** The index has a key for each relating object, and maps it to the
      related objects of the last relation naming it. */
  lemma {:induction false} IndexOfRelations(rels: seq<Aggregates>)
    ensures var ix := BuildIndex(rels);
      && (forall k :: k in ix <==> exists i :: 0 <= i < |rels| && rels[i].relatingId == k)
      && (forall i :: 0 <= i < |rels| && LastFor(rels, i) ==> ix[rels[i].relatingId] == rels[i].related)
  {
    if rels != [] {
      var init, last := rels[..|rels| - 1], rels[|rels| - 1];
      IndexOfRelations(init);
      IndexStep(init, last, BuildIndex(init));
      assert init + [last] == rels;
    }
  }

  /** One more relation updates the index of the earlier ones. */
  lemma IndexStep(init: seq<Aggregates>, last: Aggregates, ix: Index)
    requires forall k :: k in ix <==> exists i :: 0 <= i < |init| && init[i].relatingId == k
    requires forall i :: 0 <= i < |init| && LastFor(init, i) ==> ix[init[i].relatingId] == init[i].related
    ensures var rels, ix' := init + [last], ix[last.relatingId := last.related];
      && (forall k :: k in ix' <==> exists i :: 0 <= i < |rels| && rels[i].relatingId == k)
      && (forall i :: 0 <= i < |rels| && LastFor(rels, i) ==> ix'[rels[i].relatingId] == rels[i].related)
  {
    var rels, ix' := init + [last], ix[last.relatingId := last.related];
    forall k ensures k in ix' <==> exists i :: 0 <= i < |rels| && rels[i].relatingId == k {
      if k in ix && k != last.relatingId {
        var i :| 0 <= i < |init| && init[i].relatingId == k;
        assert rels[i] == init[i];
      }
      if k == last.relatingId {
        assert rels[|init|] == last;
      }
      if exists i :: 0 <= i < |rels| && rels[i].relatingId == k {
        var i :| 0 <= i < |rels| && rels[i].relatingId == k;
        if i < |init| {
          assert init[i] == rels[i];
        }
      }
    }
    forall i | 0 <= i < |rels| && LastFor(rels, i) ensures ix'[rels[i].relatingId] == rels[i].related {
      if i < |init| {
        assert rels[i] == init[i];
        assert rels[|init|] == last;
        forall j | i < j < |init| ensures init[j].relatingId != init[i].relatingId {
          assert rels[j] == init[j];
        }
        assert LastFor(init, i);
      }
    }
  }

  /** No relation after position `i` has the same relating object. */
  predicate LastFor(rels: seq<Aggregates>, i: int)
    requires 0 <= i < |rels|
  {
    forall j :: i < j < |rels| ==> rels[j].relatingId != rels[i].relatingId
  }

  /** Two relations for one parent: the children are those of the second
      only, not the two lists concatenated. */
  lemma LaterRelationReplaces(rels: seq<Aggregates>, parent: string, first: seq<Entity>, second: seq<Entity>)
    ensures BuildIndex(rels + [Aggregates(parent, first), Aggregates(parent, second)])[parent] == second
  {
    var all := rels + [Aggregates(parent, first), Aggregates(parent, second)];
    IndexOfRelations(all);
    assert all[|all| - 1] == Aggregates(parent, second);
    assert LastFor(all, |all| - 1);
  }

  /** `ent.Name or ent.LongName or ent.GlobalId`: an empty string counts as missing. */
  function DisplayName(e: Entity): (n: string)
    ensures e.name.Some? && e.name.value != "" ==> n == e.name.value
    ensures (e.name.None? || e.name.value == "") && e.longName.Some? && e.longName.value != "" ==> n == e.longName.value
    ensures (e.name.None? || e.name.value == "") && (e.longName.None? || e.longName.value == "") ==> n == e.globalId
  {
    if e.name.Some? && e.name.value != "" then e.name.value
    else if e.longName.Some? && e.longName.value != "" then e.longName.value
    else e.globalId
  }

  /** `f"{ent.is_a()}:{name}"`. */
  function Label(kind: string, name: string): (l: string)
    ensures |l| == |kind| + 1 + |name|
    ensures l[..|kind|] == kind && l[|kind|] == ':' && l[|kind| + 1..] == name
  {
    kind + ":" + name
  }

  /** `"/".join(segments)`. */
  function Join(segments: seq<string>): (s: string)
    ensures |segments| == 1 ==> s == segments[0]
  {
    if |segments| == 0 then ""
    else if |segments| == 1 then segments[0]
    else Join(segments[..|segments| - 1]) + "/" + segments[|segments| - 1]
  }

  lemma JoinSnoc(segments: seq<string>, s: string)
    requires segments != []
    ensures Join(segments + [s]) == Join(segments) + "/" + s
  {
    assert (segments + [s])[..|segments|] == segments;
  }

  /** One row of the hierarchy sheet: Type, Nom, Profondeur, Chemin. */
  datatype Row = Row(kind: string, name: string, depth: nat, path: string)

  /** `rels.get(ent.GlobalId, [])`. */
  function Children(ix: Index, e: Entity): seq<Entity> {
    if e.globalId in ix then ix[e.globalId] else []
  }

  // ---------------------------------------------------------------------------
  // Acyclicity: the source has no cycle guard, so the walk is only defined on
  // indexes whose parent -> child edges strictly decrease some rank.
  // ---------------------------------------------------------------------------

  ghost predicate Ranked(ix: Index, rank: map<string, nat>) {
    && ix.Keys <= rank.Keys
    && forall k, i :: k in ix && 0 <= i < |ix[k]| && ix[k][i].globalId in ix ==> rank[ix[k][i].globalId] < rank[k]
  }

  ghost function Height(ix: Index, rank: map<string, nat>, e: Entity): nat
    requires Ranked(ix, rank)
  {
    if e.globalId in ix then rank[e.globalId] + 1 else 0
  }

  lemma ChildrenAreLower(ix: Index, rank: map<string, nat>, e: Entity)
    requires Ranked(ix, rank)
    ensures forall i :: 0 <= i < |Children(ix, e)| ==> Height(ix, rank, Children(ix, e)[i]) < Height(ix, rank, e)
  {
  }

  /** The rows the walk emits for `e` and its descendants, below the path `prefix`. */
  ghost function Walk(ix: Index, rank: map<string, nat>, e: Entity, prefix: seq<string>): seq<Row>
    requires Ranked(ix, rank)
    decreases Height(ix, rank, e), 1, 0
  {
    var name := DisplayName(e);
    var path := prefix + [Label(e.kind, name)];
    ChildrenAreLower(ix, rank, e);
    [Row(e.kind, name, |prefix|, Join(path))] + WalkAll(ix, rank, Children(ix, e), path, Height(ix, rank, e))
  }

  /** The rows the walk emits for each of `kids` in turn. */
  ghost function WalkAll(ix: Index, rank: map<string, nat>, kids: seq<Entity>, prefix: seq<string>, bound: nat): seq<Row>
    requires Ranked(ix, rank)
    requires forall i :: 0 <= i < |kids| ==> Height(ix, rank, kids[i]) < bound
    decreases bound, 0, |kids|
  {
    if kids == [] then []
    else Walk(ix, rank, kids[0], prefix) + WalkAll(ix, rank, kids[1..], prefix, bound)
  }

  /** `flatten_hierarchy`: empty without a project, else the walk from the first project. */
  ghost function Flattened(m: Model, rank: map<string, nat>): (rows: seq<Row>)
    requires Ranked(BuildIndex(m.aggregates), rank)
    ensures rows == [] <==> m.projects == []
  {
    if m.projects == [] then [] else Walk(BuildIndex(m.aggregates), rank, m.projects[0], [])
  }

  // ---------------------------------------------------------------------------
  // The imperative walk: a recursive procedure appending to `rows`.
  // ---------------------------------------------------------------------------

  method WalkInto(ix: Index, ghost rank: map<string, nat>, e: Entity, path: seq<string>, rows: seq<Row>) returns (out: seq<Row>)
    requires Ranked(ix, rank)
    ensures out == rows + Walk(ix, rank, e, path)
    decreases Height(ix, rank, e), 1
  {
    var name := DisplayName(e);
    var newPath := path + [Label(e.kind, name)];
    out := rows + [Row(e.kind, name, |path|, Join(newPath))];
    ChildrenAreLower(ix, rank, e);
    out := WalkEach(ix, rank, Children(ix, e), newPath, Height(ix, rank, e), out);
  }

  /** The loop `for child in rels.get(ent.GlobalId, [])` of `walk`. */
  method WalkEach(ix: Index, ghost rank: map<string, nat>, kids: seq<Entity>, path: seq<string>, ghost bound: nat, rows: seq<Row>) returns (out: seq<Row>)
    requires Ranked(ix, rank)
    requires forall k :: 0 <= k < |kids| ==> Height(ix, rank, kids[k]) < bound
    ensures out == rows + WalkAll(ix, rank, kids, path, bound)
    decreases bound, 0
  {
    out := rows;
    assert kids[0..] == kids;
    for i := 0 to |kids|
      invariant out + WalkAll(ix, rank, kids[i..], path, bound) == rows + WalkAll(ix, rank, kids, path, bound)
    {
      assert kids[i..][1..] == kids[i + 1..];
      out := WalkInto(ix, rank, kids[i], path, out);
    }
  }

  /** `flatten_hierarchy`, on a model whose aggregation graph is acyclic. */
  method FlattenHierarchy(m: Model, ghost rank: map<string, nat>) returns (rows: seq<Row>)
    requires Ranked(BuildIndex(m.aggregates), rank)
    ensures rows == Flattened(m, rank)
  {
    var rels := BuildIndex(m.aggregates);
    rows := [];
    if m.projects != [] {
      rows := WalkInto(rels, rank, m.projects[0], [], rows);
    }
  }

  // ---------------------------------------------------------------------------
  // Properties of the rows
  // ---------------------------------------------------------------------------

  function RowLabel(r: Row): string {
    Label(r.kind, r.name)
  }

  /** `p` is the row of the direct parent of `c`'s object. */
  predicate ParentOf(p: Row, c: Row) {
    c.depth == p.depth + 1 && c.path == p.path + "/" + RowLabel(c)
  }

  /** Row `i` has the row of its parent somewhere before it. */
  ghost predicate ParentBefore(rows: seq<Row>, i: int) {
    0 <= i < |rows| && exists j :: 0 <= j < i && ParentOf(rows[j], rows[i])
  }

  /** Rows at depth `d` hang directly below `prefix`; deeper rows have their
      parent's row earlier in the sequence. */
  ghost predicate WellNested(rows: seq<Row>, prefix: seq<string>) {
    && (forall i :: 0 <= i < |rows| ==>
         && rows[i].depth >= |prefix|
         && (rows[i].depth == |prefix| ==> rows[i].path == Join(prefix + [RowLabel(rows[i])])))
    && (forall i {:trigger ParentBefore(rows, i)} :: 0 <= i < |rows| && rows[i].depth > |prefix| ==> ParentBefore(rows, i))
  }

  /** Every row after the first is deeper than `d` and has its parent's row
      before it. */
  ghost predicate HangsBelow(rows: seq<Row>, d: int) {
    && (forall i :: 0 < i < |rows| ==> rows[i].depth > d)
    && (forall i {:trigger ParentBefore(rows, i)} :: 0 < i < |rows| ==> ParentBefore(rows, i))
  }

  lemma {:induction false} WalkNested(ix: Index, rank: map<string, nat>, e: Entity, prefix: seq<string>)
    requires Ranked(ix, rank)
    ensures var rows := Walk(ix, rank, e, prefix);
      && rows != []
      && rows[0] == Row(e.kind, DisplayName(e), |prefix|, Join(prefix + [Label(e.kind, DisplayName(e))]))
      && HangsBelow(rows, |prefix|)
    decreases Height(ix, rank, e), 1
  {
    var path := prefix + [Label(e.kind, DisplayName(e))];
    ChildrenAreLower(ix, rank, e);
    var below := WalkAll(ix, rank, Children(ix, e), path, Height(ix, rank, e));
    WalkAllNested(ix, rank, Children(ix, e), path, Height(ix, rank, e));
    RootAbove(Row(e.kind, DisplayName(e), |prefix|, Join(path)), below, prefix);
  }

  /** A row directly below `path` has the row of `path` as its parent. */
  lemma RootIsParent(root: Row, r: Row, path: seq<string>)
    requires path != [] && root.depth + 1 == |path| && root.path == Join(path)
    requires r.depth == |path| && r.path == Join(path + [RowLabel(r)])
    ensures ParentOf(root, r)
  {
    JoinSnoc(path, RowLabel(r));
  }

  /** Row `k` of rows nested below `path`, seen after the row `root` of
      `path` itself, has its parent's row before it. */
  lemma RowBelowRoot(root: Row, below: seq<Row>, path: seq<string>, k: nat)
    requires path != [] && root.depth + 1 == |path| && root.path == Join(path)
    requires WellNested(below, path) && k < |below|
    ensures below[k].depth >= |path|
    ensures ParentBefore([root] + below, k + 1)
  {
    var rows := [root] + below;
    assert rows[k + 1] == below[k];
    if below[k].depth == |path| {
      RootIsParent(root, below[k], path);
      assert ParentOf(rows[0], rows[k + 1]);
    } else {
      assert ParentBefore(below, k);
      var j :| 0 <= j < k && ParentOf(below[j], below[k]);
      assert ParentOf(rows[j + 1], rows[k + 1]);
    }
  }

  /** A row at depth |prefix| whose path is `prefix` extended by its label,
      followed by rows nested below that path: every later row is deeper and
      has its parent's row before it. */
  lemma RootAbove(root: Row, below: seq<Row>, prefix: seq<string>)
    requires root.depth == |prefix| && root.path == Join(prefix + [RowLabel(root)])
    requires WellNested(below, prefix + [RowLabel(root)])
    ensures HangsBelow([root] + below, |prefix|)
  {
    var rows := [root] + below;
    var path := prefix + [RowLabel(root)];
    forall i | 0 < i < |rows| ensures rows[i].depth > |prefix| && ParentBefore(rows, i) {
      RowBelowRoot(root, below, path, i - 1);
      assert rows[i] == below[i - 1];
    }
  }

  lemma {:induction false} WalkAllNested(ix: Index, rank: map<string, nat>, kids: seq<Entity>, prefix: seq<string>, bound: nat)
    requires Ranked(ix, rank)
    requires forall i :: 0 <= i < |kids| ==> Height(ix, rank, kids[i]) < bound
    ensures WellNested(WalkAll(ix, rank, kids, prefix, bound), prefix)
    decreases bound, 0, |kids|
  {
    if kids != [] {
      var head := Walk(ix, rank, kids[0], prefix);
      var tail := WalkAll(ix, rank, kids[1..], prefix, bound);
      WalkNested(ix, rank, kids[0], prefix);
      HeadNested(head, prefix);
      WalkAllNested(ix, rank, kids[1..], prefix, bound);
      AppendNested(head, tail, prefix);
    }
  }

  lemma HeadNested(rows: seq<Row>, prefix: seq<string>)
    requires rows != []
    requires rows[0].depth == |prefix| && rows[0].path == Join(prefix + [RowLabel(rows[0])])
    requires HangsBelow(rows, |prefix|)
    ensures WellNested(rows, prefix)
  {
  }

  lemma AppendNested(a: seq<Row>, b: seq<Row>, prefix: seq<string>)
    requires WellNested(a, prefix) && WellNested(b, prefix)
    ensures WellNested(a + b, prefix)
  {
    var rows := a + b;
    forall i | 0 <= i < |rows| && rows[i].depth > |prefix|
      ensures ParentBefore(rows, i)
    {
      if i < |a| {
        assert rows[i] == a[i] && ParentBefore(a, i);
        var j :| 0 <= j < i && ParentOf(a[j], a[i]);
        assert rows[j] == a[j];
      } else {
        var k := i - |a|;
        assert rows[i] == b[k] && ParentBefore(b, k);
        var j :| 0 <= j < k && ParentOf(b[j], b[k]);
        assert rows[j + |a|] == b[j];
      }
    }
  }

  /** What `flatten_hierarchy` promises: no project, no rows; otherwise the
      project's row comes first, at depth 0 with its own label as path, it is
      the only row at depth 0, and every other row follows the row of its
      parent, one level deeper, with the parent's path extended by its label. */
  lemma FlattenedShape(m: Model, rank: map<string, nat>)
    requires Ranked(BuildIndex(m.aggregates), rank)
    ensures m.projects == [] ==> Flattened(m, rank) == []
    ensures m.projects != [] ==>
      var rows, p := Flattened(m, rank), m.projects[0];
      && rows != []
      && rows[0] == Row(p.kind, DisplayName(p), 0, Label(p.kind, DisplayName(p)))
      && forall i :: 0 < i < |rows| ==> rows[i].depth >= 1 && ParentBefore(rows, i)
  {
    if m.projects != [] {
      WalkNested(BuildIndex(m.aggregates), rank, m.projects[0], []);
      assert [] + [Label(m.projects[0].kind, DisplayName(m.projects[0]))] == [Label(m.projects[0].kind, DisplayName(m.projects[0]))];
    }
  }
}

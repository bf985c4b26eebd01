/** The entity aggregator: every product counted by (kind, subtype) in a
    dictionary, then the dictionary's items sorted by count descending and
    kind ascending. The dictionary is insertion ordered and the sort stable,
    so items tied on count and kind stay in the order their keys first
    appeared. */
module Entities {
  import opened Wrappers
  import opened IfcModel
  import opened StableSort

  /** The counter's key: `(obj.is_a(), typ)`. */
  datatype Key = Key(kind: string, subtype: Option<string>)

  /** One item of the counter. */
  datatype Tally = Tally(key: Key, count: nat)

  /** The subtype: the predefined type when it is set, else a non-empty
      object type, else None. */
  function Subtype(p: Product): (t: Option<string>)
    ensures p.predefinedType.Some? ==> t == p.predefinedType
    ensures p.predefinedType.None? && p.objectType.Some? && p.objectType.value != "" ==> t == p.objectType
    ensures p.predefinedType.None? && (p.objectType.None? || p.objectType.value == "") ==> t == None
  {
    if p.predefinedType.Some? then p.predefinedType
    else if p.objectType.Some? && p.objectType.value != "" then p.objectType
    else None
  }

  function KeyOf(p: Product): Key {
    Key(p.kind, Subtype(p))
  }

  /** Where `k` is in the counter (the dictionary lookup). */
  function Find(counter: seq<Tally>, k: Key): (r: Option<nat>)
    ensures r.Some? ==> r.value < |counter| && counter[r.value].key == k
    ensures r.None? ==> forall i :: 0 <= i < |counter| ==> counter[i].key != k
  {
    if counter == [] then None
    else if counter[0].key == k then Some(0)
    else
      match Find(counter[1..], k)
      case None => None
      case Some(i) => Some(i + 1)
  }

  /** `entity_counter[key] = entity_counter.get(key, 0) + 1`. */
  function Bump(counter: seq<Tally>, k: Key): (r: seq<Tally>)
    ensures Find(r, k).Some?
    ensures |counter| <= |r| <= |counter| + 1
  {
    match Find(counter, k)
    case Some(i) =>
      var r := counter[i := Tally(k, counter[i].count + 1)];
      assert r[i].key == k;
      r
    case None =>
      var r := counter + [Tally(k, 1)];
      assert r[|counter|].key == k;
      r
  }

  /** The counter after the products `ps`, in order. */
  function Tallied(ps: seq<Product>): seq<Tally> {
    if ps == [] then [] else Bump(Tallied(ps[..|ps| - 1]), KeyOf(ps[|ps| - 1]))
  }

  /** The counting loop over `model.by_type("IfcProduct")`. */
  method CountProducts(ps: seq<Product>) returns (counter: seq<Tally>)
    ensures counter == Tallied(ps)
  {
    counter := [];
    for i := 0 to |ps|
      invariant counter == Tallied(ps[..i])
    {
      var obj := ps[i];
      var typ: Option<string> := None;
      if obj.predefinedType.Some? {
        typ := obj.predefinedType;
      } else if obj.objectType.Some? && obj.objectType.value != "" {
        typ := obj.objectType;
      }
      var key := Key(obj.kind, typ);
      counter := Bump(counter, key);
      assert ps[..i + 1][..i] == ps[..i];
    }
    assert ps[..|ps|] == ps;
  }

  // ---------------------------------------------------------------------------
  // What the counter holds
  // ---------------------------------------------------------------------------

  /** How many of `ps` have key `k`. */
  function Occurrences(ps: seq<Product>, k: Key): nat {
    if ps == [] then 0
    else Occurrences(ps[..|ps| - 1], k) + (if KeyOf(ps[|ps| - 1]) == k then 1 else 0)
  }

  /** The sum of the counts. */
  function Total(counter: seq<Tally>): nat {
    if counter == [] then 0 else counter[0].count + Total(counter[1..])
  }

  ghost predicate KeysDistinct(counter: seq<Tally>) {
    forall i, j :: 0 <= i < j < |counter| ==> counter[i].key != counter[j].key
  }

  lemma {:induction false} TotalSnoc(counter: seq<Tally>, t: Tally)
    ensures Total(counter + [t]) == Total(counter) + t.count
  {
    if counter == [] {
      assert [t][1..] == [];
    } else {
      TotalSnoc(counter[1..], t);
      assert (counter + [t])[1..] == counter[1..] + [t];
    }
  }

  lemma {:induction false} TotalUpdate(counter: seq<Tally>, i: nat, t: Tally)
    requires i < |counter|
    ensures Total(counter[i := t]) + counter[i].count == Total(counter) + t.count
  {
    if i > 0 {
      TotalUpdate(counter[1..], i - 1, t);
      assert counter[i := t][1..] == counter[1..][i - 1 := t];
    }
  }

  /** `c` is the counter of `ps`: one item per key, each item's count the
      number of products with that key, every key of a product present, and
      the counts adding up to the number of products. */
  ghost predicate CountsOf(c: seq<Tally>, ps: seq<Product>) {
    && KeysDistinct(c)
    && (forall i :: 0 <= i < |c| ==> c[i].count == Occurrences(ps, c[i].key) && c[i].count >= 1)
    && (forall k :: Occurrences(ps, k) > 0 ==> exists i :: 0 <= i < |c| && c[i].key == k)
    && Total(c) == |ps|
  }

  lemma OccurrencesSnoc(ps: seq<Product>, p: Product, k: Key)
    ensures Occurrences(ps + [p], k) == Occurrences(ps, k) + (if KeyOf(p) == k then 1 else 0)
  {
    assert (ps + [p])[..|ps|] == ps;
  }

  lemma BumpKeepsKeysDistinct(c: seq<Tally>, k: Key)
    requires KeysDistinct(c)
    ensures KeysDistinct(Bump(c, k))
  {
  }

  lemma BumpAddsOne(c: seq<Tally>, k: Key)
    ensures Total(Bump(c, k)) == Total(c) + 1
  {
    match Find(c, k)
    case Some(i) => TotalUpdate(c, i, Tally(k, c[i].count + 1));
    case None => TotalSnoc(c, Tally(k, 1));
  }

  lemma BumpCountsProduct(c: seq<Tally>, ps: seq<Product>, p: Product)
    requires KeysDistinct(c)
    requires forall i :: 0 <= i < |c| ==> c[i].count == Occurrences(ps, c[i].key) && c[i].count >= 1
    requires forall k :: Occurrences(ps, k) > 0 ==> exists i :: 0 <= i < |c| && c[i].key == k
    ensures var c' := Bump(c, KeyOf(p));
      && (forall i :: 0 <= i < |c'| ==> c'[i].count == Occurrences(ps + [p], c'[i].key) && c'[i].count >= 1)
      && (forall k :: Occurrences(ps + [p], k) > 0 ==> exists i :: 0 <= i < |c'| && c'[i].key == k)
  {
    var k := KeyOf(p);
    var c' := Bump(c, k);
    forall i | 0 <= i < |c'| ensures c'[i].count == Occurrences(ps + [p], c'[i].key) && c'[i].count >= 1 {
      OccurrencesSnoc(ps, p, c'[i].key);
      if i < |c| && c'[i].key != k {
        assert c'[i] == c[i];
      }
      if c'[i].key == k && Find(c, k).None? {
        assert Occurrences(ps, k) == 0;
      }

    }
    forall k' | Occurrences(ps + [p], k') > 0 ensures exists j :: 0 <= j < |c'| && c'[j].key == k' {
      OccurrencesSnoc(ps, p, k');
      if k' != k {
        var j :| 0 <= j < |c| && c[j].key == k';
        assert c'[j].key == k';
      } else if Find(c, k).Some? {
        assert c'[Find(c, k).value].key == k';
      } else {
        assert c'[|c|].key == k';
      }
    }
  }

  /** The counter after the products is their count. */
  lemma {:induction false} TalliedIsCount(ps: seq<Product>)
    ensures CountsOf(Tallied(ps), ps)
  {
    if ps != [] {
      var init := ps[..|ps| - 1];
      TalliedIsCount(init);
      var c := Tallied(init);
      BumpKeepsKeysDistinct(c, KeyOf(ps[|ps| - 1]));
      BumpAddsOne(c, KeyOf(ps[|ps| - 1]));
      BumpCountsProduct(c, init, ps[|ps| - 1]);
      assert init + [ps[|ps| - 1]] == ps;
    }
  }

  // ---------------------------------------------------------------------------
  // Ranking
  // ---------------------------------------------------------------------------

  /** Python's `<=` on strings: lexicographic by code point, a prefix first. */
  predicate StrLe(a: string, b: string) {
    if a == [] then true
    else if b == [] then false
    else if a[0] != b[0] then a[0] < b[0]
    else StrLe(a[1..], b[1..])
  }

  lemma {:induction false} StrLeTotal(a: string, b: string)
    ensures StrLe(a, b) || StrLe(b, a)
  {
    if a != [] && b != [] && a[0] == b[0] {
      StrLeTotal(a[1..], b[1..]);
    }
  }

  lemma {:induction false} StrLeTransitive(a: string, b: string, c: string)
    requires StrLe(a, b) && StrLe(b, c)
    ensures StrLe(a, c)
  {
    if a != [] && b != [] && c != [] && a[0] == b[0] && b[0] == c[0] {
      StrLeTransitive(a[1..], b[1..], c[1..]);
    }
  }

  /** The sort key `(-count, kind)` compared with `<=`. */
  const ByCountThenKind: (Tally, Tally) -> bool :=
    (a: Tally, b: Tally) => a.count > b.count || (a.count == b.count && StrLe(a.key.kind, b.key.kind))

  lemma ByCountThenKindIsTotalPreorder()
    ensures TotalPreorder(ByCountThenKind)
  {
    forall a: Tally, b: Tally ensures ByCountThenKind(a, b) || ByCountThenKind(b, a) {
      StrLeTotal(a.key.kind, b.key.kind);
    }
    forall a: Tally, b: Tally, c: Tally | ByCountThenKind(a, b) && ByCountThenKind(b, c)
      ensures ByCountThenKind(a, c)
    {
      if a.count == b.count == c.count {
        StrLeTransitive(a.key.kind, b.key.kind, c.key.kind);
      }
    }
  }

  /** `sorted(entity_counter.items(), key=lambda x: (-x[1], x[0][0]))`. */
  function Ranked(ps: seq<Product>): seq<Tally> {
    Sort(Tallied(ps), ByCountThenKind)
  }

  lemma {:induction false} TotalInsert(x: Tally, s: seq<Tally>)
    ensures Total(Insert(x, s, ByCountThenKind)) == x.count + Total(s)
  {
    if s != [] && !ByCountThenKind(x, s[0]) {
      TotalInsert(x, s[1..]);
    }
  }

  lemma {:induction false} TotalSort(s: seq<Tally>)
    ensures Total(Sort(s, ByCountThenKind)) == Total(s)
  {
    if s != [] {
      TotalSort(s[1..]);
      TotalInsert(s[0], Sort(s[1..], ByCountThenKind));
    }
  }

  /** The ranked items are the counter's items, keys still unique and
      counts still summing to the number of products. */
  lemma RankedPermutesCounter(ps: seq<Product>)
    ensures var r := Ranked(ps);
      && multiset(r) == multiset(Tallied(ps))
      && KeysDistinct(r)
      && Total(r) == |ps|
  {
    var c := Tallied(ps);
    TalliedIsCount(ps);
    SortPermutes(c, ByCountThenKind);
    TotalSort(c);
    var key := (t: Tally) => t.key;
    assert DistinctBy(c, key);
    SortDistinctBy(c, key, ByCountThenKind);
  }

  /** Each ranked item counts the products with its key. */
  lemma RankedCountsProducts(ps: seq<Product>)
    ensures var r := Ranked(ps);
      forall i :: 0 <= i < |r| ==> r[i].count == Occurrences(ps, r[i].key)
  {
    var c := Tallied(ps);
    var r := Ranked(ps);
    TalliedIsCount(ps);
    SortPermutes(c, ByCountThenKind);
    forall i | 0 <= i < |r| ensures r[i].count == Occurrences(ps, r[i].key) {
      assert r[i] in multiset(c);
      var j :| 0 <= j < |c| && c[j] == r[i];
    }
  }

  /** The ranked items: keys unique, counts conserved, each count the number
      of products with that key, ordered by count descending then kind
      ascending, and a permutation of the counter. */
  lemma RankedIsCountDescending(ps: seq<Product>)
    ensures var r := Ranked(ps);
      && multiset(r) == multiset(Tallied(ps))
      && KeysDistinct(r)
      && Total(r) == |ps|
      && (forall i :: 0 <= i < |r| ==> r[i].count == Occurrences(ps, r[i].key))
      && (forall i, j :: 0 <= i < j < |r| ==>
            r[i].count > r[j].count || (r[i].count == r[j].count && StrLe(r[i].key.kind, r[j].key.kind)))
  {
    RankedPermutesCounter(ps);
    RankedCountsProducts(ps);
    ByCountThenKindIsTotalPreorder();
    SortSorted(Tallied(ps), ByCountThenKind);
  }

  /** Items tied on count and kind keep the order in which their keys first
      appeared in the counter. */
  lemma RankedIsStable(ps: seq<Product>, v: Tally)
    ensures SameKey(Ranked(ps), v, ByCountThenKind) == SameKey(Tallied(ps), v, ByCountThenKind)
  {
    ByCountThenKindIsTotalPreorder();
    SortStable(Tallied(ps), v, ByCountThenKind);
  }

  // ---------------------------------------------------------------------------
  // Rows of the entities sheet
  // ---------------------------------------------------------------------------

  /** One row of the entities sheet: Entité IFC, Type, Nombre. */
  datatype EntityRow = EntityRow(kind: string, subtype: string, count: nat)

  /** `k[1] or "—"`. */
  function ShownSubtype(t: Option<string>): (s: string)
    ensures s != ""
    ensures s == "—" || (t.Some? && s == t.value)
  {
    if t.Some? && t.value != "" then t.value else "—"
  }

  /** The rows `ent_rows` builds from the sorted counter items. */
  function TallyRows(ranked: seq<Tally>): seq<EntityRow> {
    seq(|ranked|, i requires 0 <= i < |ranked| => EntityRow(ranked[i].key.kind, ShownSubtype(ranked[i].key.subtype), ranked[i].count))
  }

  function EntityRows(ps: seq<Product>): (rows: seq<EntityRow>)
    ensures |rows| == |Ranked(ps)|
    ensures forall i :: 0 <= i < |rows| ==>
      rows[i] == EntityRow(Ranked(ps)[i].key.kind, ShownSubtype(Ranked(ps)[i].key.subtype), Ranked(ps)[i].count)
  {
    TallyRows(Ranked(ps))
  }

  /** The table has a row exactly when there is a product. */
  lemma EntityRowsEmptyIffNoProducts(ps: seq<Product>)
    ensures EntityRows(ps) == [] <==> ps == []
  {
    RankedIsCountDescending(ps);
  }

  /** Three products of kind X without subtype and one of kind Y with object
      type S give the rows (X, —, 3) then (Y, S, 1). */
  lemma EntityRowsExample()
    ensures
      var x, y := Product("X", None, None), Product("Y", None, Some("S"));
      EntityRows([x, x, y, x]) == [EntityRow("X", "—", 3), EntityRow("Y", "S", 1)]
  {
    var x, y := Product("X", None, None), Product("Y", None, Some("S"));
    var kx, ky := Key("X", None), Key("Y", Some("S"));
    assert [x, x, y, x][..3] == [x, x, y];
    assert [x, x, y][..2] == [x, x];
    assert [x, x][..1] == [x];
    assert Tallied([x]) == [Tally(kx, 1)];
    assert Tallied([x, x]) == [Tally(kx, 2)];
    assert Tallied([x, x, y]) == [Tally(kx, 2), Tally(ky, 1)];
    assert Tallied([x, x, y, x]) == [Tally(kx, 3), Tally(ky, 1)];
    assert Sort([Tally(ky, 1)], ByCountThenKind) == [Tally(ky, 1)];
  }
}

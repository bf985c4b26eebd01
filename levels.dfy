/** The levels table: the building storeys sorted by elevation (a missing
    elevation sorts as 0 but is still shown as missing), with their local
    altitude in metres and their absolute (NGF) altitude when the global
    origin has a height. */
module Levels {
  import opened Wrappers
  import opened IfcModel
  import opened StableSort
  import opened Units
  import opened Spatial

  /** The sort key `t[1] or 0`. */
  function SortElevation(s: Storey): real {
    s.elevation.GetOr(0.0)
  }

  const ByElevation: (Storey, Storey) -> bool := (a: Storey, b: Storey) => SortElevation(a) <= SortElevation(b)

  lemma ByElevationIsTotalPreorder()
    ensures TotalPreorder(ByElevation)
  {
  }

  /** `get_levels`: the storeys, stably sorted by elevation. */
  function GetLevels(m: Model): (levels: seq<Storey>)
    ensures multiset(levels) == multiset(m.storeys)
    ensures forall i, j :: 0 <= i < j < |levels| ==> SortElevation(levels[i]) <= SortElevation(levels[j])
  {
    SortPermutes(m.storeys, ByElevation);
    ByElevationIsTotalPreorder();
    SortSorted(m.storeys, ByElevation);
    Sort(m.storeys, ByElevation)
  }

  /** Storeys at the same sort elevation keep their order in the file; in
      particular the storeys without an elevation keep their order among
      those at elevation 0. */
  lemma GetLevelsIsStable(m: Model, v: Storey)
    ensures SameKey(GetLevels(m), v, ByElevation) == SameKey(m.storeys, v, ByElevation)
  {
    ByElevationIsTotalPreorder();
    SortStable(m.storeys, v, ByElevation);
  }

  /** One row of the levels sheet: name, local altitude, NGF altitude. */
  datatype LevelRow = LevelRow(name: Option<string>, local: Option<real>, ngf: Option<real>)

  /** The local altitude is the elevation in metres, None when the elevation is
      None; the NGF altitude is the local altitude plus the origin height when
      both are known, None otherwise. */
  function LevelRows(levels: seq<Storey>, factor: real, originZ: Option<real>): (rows: seq<LevelRow>)
    ensures |rows| == |levels|
    ensures forall i :: 0 <= i < |rows| ==>
      && rows[i].name == levels[i].name
      && rows[i].local == Scale(levels[i].elevation, factor)
      && (rows[i].ngf.Some? <==> levels[i].elevation.Some? && originZ.Some?)
      && (rows[i].ngf.Some? ==> rows[i].ngf.value == rows[i].local.value + originZ.value)
  {
    seq(|levels|, i requires 0 <= i < |levels| =>
      var alt := Scale(levels[i].elevation, factor);
      LevelRow(levels[i].name, alt, if alt.Some? && originZ.Some? then Some(alt.value + originZ.value) else None))
  }

  /** The levels table of a model: its storeys in elevation order, the
      altitudes scaled by the model's length factor and the NGF altitude
      taken from the height of its global origin. */
  function LevelsOf(m: Model): seq<LevelRow> {
    LevelRows(GetLevels(m), LengthFactor(m), OriginZ(GlobalOrigin(m)))
  }

  /** The local altitudes come out in ascending order too (a missing one
      counting as 0), because the length factor is positive. */
  lemma LevelsAscendByLocalAltitude(m: Model)
    ensures var rows := LevelsOf(m);
      forall i, j :: 0 <= i < j < |rows| ==> rows[i].local.GetOr(0.0) <= rows[j].local.GetOr(0.0)
  {
    var levels, f := GetLevels(m), LengthFactor(m);
    var rows := LevelsOf(m);
    forall i, j | 0 <= i < j < |rows| ensures rows[i].local.GetOr(0.0) <= rows[j].local.GetOr(0.0) {
      var a, b := SortElevation(levels[i]), SortElevation(levels[j]);
      assert a <= b;
      assert rows[i].local.GetOr(0.0) == InMetres(a, f);
      assert rows[j].local.GetOr(0.0) == InMetres(b, f);
      if f == MilliFactor {
        assert InMetres(a, f) == a * 0.001;
      }
    }
  }
}

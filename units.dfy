/** Unit handling: the length-unit scale factor, the conversion of IFC compound
    plane angles (degrees, minutes, seconds) to decimal degrees, and the
    binary-unit selection behind the human-readable file size. */
module Units {
  import opened Wrappers
  import opened IfcModel

  // ---------------------------------------------------------------------------
  // Length factor
  // ---------------------------------------------------------------------------

  const MilliFactor: real := 0.001
  const UnitFactor: real := 1.0

  predicate IsSILength(u: Unit) {
    u.SIUnit? && u.unitType == "LENGTHUNIT"
  }

  /** `i` is the position of the first SI length unit of `units`. */
  predicate FirstSILengthAt(units: seq<Unit>, i: int) {
    0 <= i < |units| && IsSILength(units[i]) && forall j :: 0 <= j < i ==> !IsSILength(units[j])
  }

  /** The `next(u for u in ua if ...)` search: the first SI length unit, or None
      where the source gets StopIteration. */
  function FindSILength(units: seq<Unit>): (r: Option<nat>)
    ensures r.Some? ==> FirstSILengthAt(units, r.value)
    ensures r.None? ==> forall j :: 0 <= j < |units| ==> !IsSILength(units[j])
  {
    if |units| == 0 then None
    else if IsSILength(units[0]) then Some(0)
    else
      match FindSILength(units[1..])
      case None => None
      case Some(k) => Some(k + 1)
  }

  /** The scale from project length units to metres. Every failure of the
      lookup (no unit assignment, no SI length unit, no prefix) gives 1.0. */
  function LengthFactor(m: Model): (f: real)
    ensures f == MilliFactor || f == UnitFactor
    ensures f == MilliFactor <==>
      && |m.unitAssignments| > 0
      && exists i :: FirstSILengthAt(m.unitAssignments[0], i) && m.unitAssignments[0][i].prefix == Some("MILLI")
  {
    if |m.unitAssignments| == 0 then UnitFactor
    else
      match FindSILength(m.unitAssignments[0])
      case None => UnitFactor
      case Some(i) => if m.unitAssignments[0][i].prefix == Some("MILLI") then MilliFactor else UnitFactor
  }

  /** Only the first unit assignment is consulted: whatever follows it does not
      change the factor. */
  lemma LengthFactorReadsFirstAssignment(m: Model, more: seq<seq<Unit>>)
    requires |m.unitAssignments| > 0
    ensures LengthFactor(m.(unitAssignments := m.unitAssignments[..1] + more)) == LengthFactor(m)
  {
    var m' := m.(unitAssignments := m.unitAssignments[..1] + more);
    assert m'.unitAssignments[0] == m.unitAssignments[0];
  }

  // ---------------------------------------------------------------------------
  // Compound plane angle -> decimal degrees
  // ---------------------------------------------------------------------------

  function Abs(x: int): nat {
    if x < 0 then -x else x
  }

  /** The angle padded with zeros to four components; longer angles are kept and
      only their first four components are read. */
  function Padded(dms: seq<int>): (parts: seq<int>)
    ensures |parts| >= 4
    ensures forall i :: 0 <= i < 4 ==> parts[i] == if i < |dms| then dms[i] else 0
  {
    if |dms| >= 4 then dms else dms + seq(4 - |dms|, _ => 0)
  }

  /** Decimal degrees of a compound angle: the sign comes from the degrees alone
      and scales |degrees| + minutes/60 + (seconds + millionths/10^6)/3600. */
  function DmsToDd(dms: Option<seq<int>>): (r: Option<real>)
    ensures r.Some? <==> dms.Some?
  {
    match dms
    case None => None
    case Some(s) =>
      var parts := Padded(s);
      var deg, minute, sec, micro := parts[0], parts[1], parts[2], parts[3];
      var sign := if deg < 0 then -1.0 else 1.0;
      Some(sign * (Abs(deg) as real + minute as real / 60.0 + (sec as real + micro as real / 1000000.0) / 3600.0))
  }

  lemma DmsExamples()
    ensures DmsToDd(Some([0, 0, 0])) == Some(0.0)
    ensures DmsToDd(Some([48, 52, 0])) == Some(48.0 + 52.0 / 60.0)
    ensures DmsToDd(Some([-33, 52, 0])) == Some(-(33.0 + 52.0 / 60.0))
    ensures DmsToDd(Some([1, 2, 3, 500000])) == Some(1.0 + 2.0 / 60.0 + 3.5 / 3600.0)
  {
    assert Padded([0, 0, 0]) == [0, 0, 0, 0];
    assert Padded([48, 52, 0]) == [48, 52, 0, 0];
    assert Padded([-33, 52, 0]) == [-33, 52, 0, 0];
  }

  /** Missing trailing components read as zero, and components after the
      fourth are ignored. */
  lemma DmsPaddingIsZero(s: seq<int>)
    ensures |s| < 4 ==> DmsToDd(Some(s + [0])) == DmsToDd(Some(s))
    ensures |s| > 4 ==> DmsToDd(Some(s)) == DmsToDd(Some(s[..4]))
  {
  }

  /** Negating the degrees negates the result; the minutes and seconds are
      magnitudes scaled by that sign. */
  lemma DmsSignFromDegrees(d: int, rest: seq<int>)
    requires d > 0
    ensures DmsToDd(Some([-d] + rest)).value == -DmsToDd(Some([d] + rest)).value
  {
    var p, q := Padded([-d] + rest), Padded([d] + rest);
    assert p[1..4] == q[1..4];
  }

  /** With minutes and seconds in range and of the same sign as the value the
      source expects (non-negative), the result lies within one degree of the
      degrees component, on its side of zero: the whole degrees can be read back. */
  lemma DmsWithinOneDegree(s: seq<int>)
    requires |s| >= 3
    requires 0 <= Padded(s)[1] < 60 && 0 <= Padded(s)[2] < 60 && 0 <= Padded(s)[3] < 1000000
    ensures s[0] >= 0 ==> s[0] as real <= DmsToDd(Some(s)).value < s[0] as real + 1.0
    ensures s[0] < 0 ==> s[0] as real - 1.0 < DmsToDd(Some(s)).value <= s[0] as real
  {
    var parts := Padded(s);
    var frac := parts[1] as real / 60.0 + (parts[2] as real + parts[3] as real / 1000000.0) / 3600.0;
    assert parts[3] as real / 1000000.0 < 1.0;
    assert (parts[2] as real + parts[3] as real / 1000000.0) < 60.0;
    assert parts[1] as real / 60.0 <= 59.0 / 60.0;
    assert 0.0 <= frac < 1.0;
    assert DmsToDd(Some(s)).value == (if s[0] < 0 then -1.0 else 1.0) * (Abs(s[0]) as real + frac);
  }

  /** IFC writes a negative angle with every component negative; the sign is
      read from the degrees only, so such minutes are subtracted from |degrees|. */
  lemma DmsAllNegativeComponents()
    ensures DmsToDd(Some([-33, -52, 0])) == Some(-(33.0 - 52.0 / 60.0))
  {
    assert Padded([-33, -52, 0]) == [-33, -52, 0, 0];
  }

  // ---------------------------------------------------------------------------
  // Human-readable size
  // ---------------------------------------------------------------------------

  const SizeUnits: seq<string> := ["B", "KB", "MB", "GB", "TB", "PB"]

  function Pow1024(k: nat): (r: nat)
    ensures r >= 1
  {
    if k == 0 then 1 else 1024 * Pow1024(k - 1)
  }

  /** The size expressed in the unit of index `k`. */
  function InUnit(bytes: nat, k: nat): real {
    bytes as real / Pow1024(k) as real
  }

  lemma InUnitStep(bytes: nat, k: nat)
    ensures InUnit(bytes, k + 1) == InUnit(bytes, k) / 1024.0
  {
    var p := Pow1024(k) as real;
    assert Pow1024(k + 1) as real == 1024.0 * p;
    calc {
      InUnit(bytes, k) / 1024.0;
      (bytes as real / p) / 1024.0;
      { assert p > 0.0; }
      bytes as real / (1024.0 * p);
    }
  }

  /** The index of the unit the size is shown in: the first of B, KB, MB,
      GB, TB in which the size is below 1024, or PB when there is none. */
  function UnitIndex(bytes: nat, from: nat := 0): (k: nat)
    requires from <= 5
    ensures from <= k <= 5
    ensures k < 5 ==> InUnit(bytes, k) < 1024.0
    ensures forall j :: from <= j < k ==> InUnit(bytes, j) >= 1024.0
    decreases 5 - from
  {
    if from == 5 || InUnit(bytes, from) < 1024.0 then from else UnitIndex(bytes, from + 1)
  }

  /** `human_readable_size`: the amount and the unit it is shown in. */
  method HumanReadableSize(bytes: nat) returns (amount: real, unit: string)
    ensures unit == SizeUnits[UnitIndex(bytes)]
    ensures amount == InUnit(bytes, UnitIndex(bytes))
  {
    var b := bytes as real;
    for k := 0 to 5
      invariant b == InUnit(bytes, k)
      invariant UnitIndex(bytes) == UnitIndex(bytes, k)
    {
      if b < 1024.0 {
        amount, unit := b, SizeUnits[k];
        return;
      }
      InUnitStep(bytes, k);
      b := b / 1024.0;
    }
    amount, unit := b, "PB";
    assert unit == SizeUnits[5];
  }
}

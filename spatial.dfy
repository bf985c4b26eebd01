/** The spatial resolver: the site's geolocation and the project's global
    origin. The map conversion is authoritative for the origin; the site's
    local placement is only a fallback; with neither, the origin is empty. */
module Spatial {
  import opened Wrappers
  import opened IfcModel
  import opened Units

  /** `get_site_geolocation`'s dictionary: empty (no site) or the three keys
      latitude, longitude, elevation_m. */
  datatype GeoLocation =
    | NoSite
    | GeoLocation(latitude: Option<real>, longitude: Option<real>, elevation: Option<real>)

  /** `get_global_coords`'s dictionary: empty or the three keys X, Y, Z_global_m. */
  datatype GlobalCoords =
    | NoCoords
    | Coords(x: Option<real>, y: Option<real>, z: Option<real>)

  /** A site angle: absent or empty gives None, otherwise its decimal degrees. */
  function SiteAngle(a: Option<seq<int>>): (r: Option<real>)
    ensures r.Some? <==> a.Some? && a.value != []
    ensures r.Some? ==> r == DmsToDd(a)
  {
    if a.Some? && a.value != [] then DmsToDd(a) else None
  }

  /** The first site's reference latitude and longitude in decimal degrees and
      its reference elevation as stored (not scaled by the length factor). */
  function SiteGeolocation(m: Model): (g: GeoLocation)
    ensures g.NoSite? <==> m.sites == []
    ensures g.GeoLocation? ==>
      && g.latitude == SiteAngle(m.sites[0].refLatitude)
      && g.longitude == SiteAngle(m.sites[0].refLongitude)
      && g.elevation == m.sites[0].refElevation
  {
    if m.sites == [] then NoSite
    else
      var site := m.sites[0];
      GeoLocation(SiteAngle(site.refLatitude), SiteAngle(site.refLongitude), site.refElevation)
  }

  /** The geolocation reads neither the units nor the later sites. */
  lemma SiteGeolocationReadsFirstSiteOnly(m: Model, units: seq<seq<Unit>>, later: seq<Site>)
    requires m.sites != []
    ensures SiteGeolocation(m.(unitAssignments := units, sites := m.sites[..1] + later)) == SiteGeolocation(m)
  {
    var m' := m.(unitAssignments := units, sites := m.sites[..1] + later);
    assert m'.sites[0] == m.sites[0];
  }

  /** A length in project units times the length factor. */
  function InMetres(x: real, factor: real): real {
    x * factor
  }

  /** A length that may be None, scaled when present. */
  function Scale(v: Option<real>, factor: real): (r: Option<real>)
    ensures r.Some? <==> v.Some?
    ensures r.Some? ==> r.value == InMetres(v.value, factor)
  {
    match v
    case None => None
    case Some(x) => Some(InMetres(x, factor))
  }

  /** The project's global origin in metres. */
  function GlobalOrigin(m: Model): (g: GlobalCoords)
    // tier 1: the first map conversion, when there is one
    ensures m.mapConversions != [] ==>
      var mc, f := m.mapConversions[0], LengthFactor(m);
      && g.Coords?
      && g.x == Some(InMetres(mc.eastings, f))
      && g.y == Some(InMetres(mc.northings, f))
      && g.z == Scale(mc.orthogonalHeight, f)
    // tier 2: the first site's local placement, padded to three coordinates
    ensures m.mapConversions == [] && m.sites != [] && m.sites[0].placement.LocalPlacement? ==>
      var c, f := m.sites[0].placement.location, LengthFactor(m);
      && g.Coords?
      && g.x == Some(InMetres(c[0], f))
      && (g.y.Some? <==> |c| >= 2) && (g.y.Some? ==> g.y.value == InMetres(c[1], f))
      && (g.z.Some? <==> |c| == 3) && (g.z.Some? ==> g.z.value == InMetres(c[2], f))
    // tier 3: nothing
    ensures g.NoCoords? <==>
      m.mapConversions == [] && (m.sites == [] || !m.sites[0].placement.LocalPlacement?)
  {
    var factor := LengthFactor(m);
    if m.mapConversions != [] then
      var mc := m.mapConversions[0];
      Coords(Some(InMetres(mc.eastings, factor)), Some(InMetres(mc.northings, factor)), Scale(mc.orthogonalHeight, factor))
    else if m.sites != [] && m.sites[0].placement.LocalPlacement? then
      var c := m.sites[0].placement.location;
      var y := if |c| >= 2 then Some(c[1]) else None;
      var z := if |c| >= 3 then Some(c[2]) else None;
      Coords(Some(InMetres(c[0], factor)), Scale(y, factor), Scale(z, factor))
    else
      NoCoords
  }

  /** With a map conversion present the sites are never read: the origin is
      the same whatever the sites are, so the two sources are never blended. */
  lemma MapConversionIsAuthoritative(m: Model, sites: seq<Site>)
    requires m.mapConversions != []
    ensures GlobalOrigin(m.(sites := sites)) == GlobalOrigin(m)
  {
  }

  /** Every coordinate is scaled by the same length factor: a model in
      millimetres gives a thousandth of the same model in metres. */
  lemma OriginScalesWithUnits(m: Model, mm: seq<seq<Unit>>, metres: seq<seq<Unit>>)
    requires LengthFactor(m.(unitAssignments := mm)) == MilliFactor
    requires LengthFactor(m.(unitAssignments := metres)) == UnitFactor
    ensures
      var a, b := GlobalOrigin(m.(unitAssignments := mm)), GlobalOrigin(m.(unitAssignments := metres));
      && a.Coords? == b.Coords?
      && (a.Coords? ==> Scale(b.x, MilliFactor) == a.x && Scale(b.y, MilliFactor) == a.y && Scale(b.z, MilliFactor) == a.z)
  {
  }

  /** `glob.get("Z_global_m")`. */
  function OriginZ(g: GlobalCoords): Option<real> {
    if g.Coords? then g.z else None
  }
}

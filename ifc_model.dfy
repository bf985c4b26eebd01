/** The parts of an IFC model that the report reads, as plain values.

    ifcopenshell exposes the model as a graph queried by entity type and by
    attribute name; here each query the report makes becomes a field, each
    `model.by_type(T)` a sequence in file order, and each attribute that may be
    None or missing (depending on the schema, IFC2X3 or IFC4) an Option. */
module IfcModel {
  import opened Wrappers

  /** One member of `IfcUnitAssignment.Units`. Only SI units carry the
      `UnitType` and `Prefix` the length-factor lookup reads. */
  datatype Unit =
    | SIUnit(unitType: string, prefix: Option<string>)
    | OtherUnit

  /** `IfcMapConversion`: offsets in project length units. */
  datatype MapConversion = MapConversion(eastings: real, northings: real, orthogonalHeight: Option<real>)

  /** `IfcCartesianPoint.Coordinates`: one to three values (the schema's LIST [1:3]). */
  type Point = c: seq<real> | 1 <= |c| <= 3 witness [0.0]

  /** `IfcSite.ObjectPlacement`: only a local placement is followed to its location. */
  datatype Placement =
    | NoPlacement
    | LocalPlacement(location: Point)
    | OtherPlacement

  /** `IfcSite`: reference latitude and longitude as compound angles
      (degrees, minutes, seconds[, millionths of a second]). */
  datatype Site = Site(
    refLatitude: Option<seq<int>>,
    refLongitude: Option<seq<int>>,
    refElevation: Option<real>,
    placement: Placement)

  /** `IfcBuildingStorey`. */
  datatype Storey = Storey(name: Option<string>, elevation: Option<real>)

  /** An object that takes part in the aggregation hierarchy (`IfcProject`,
      `IfcSite`, `IfcBuilding`, ...): `kind` is `is_a()`. */
  datatype Entity = Entity(globalId: string, kind: string, name: Option<string>, longName: Option<string>)

  /** `IfcRelAggregates`: the GlobalId of the relating object and the ordered related objects. */
  datatype Aggregates = Aggregates(relatingId: string, related: seq<Entity>)

  /** `IfcProduct`: `predefinedType` is None both when the entity has no such
      attribute and when it is unset. */
  datatype Product = Product(kind: string, predefinedType: Option<string>, objectType: Option<string>)

  /** The model: `schema` is the schema identifier, every other field the
      instances of one entity type in file order. `mapConversions` is empty for
      IFC2X3, where `by_type("IfcMapConversion")` raises and the source treats
      that as "no map conversion". */
  datatype Model = Model(
    schema: string,
    unitAssignments: seq<seq<Unit>>,
    sites: seq<Site>,
    mapConversions: seq<MapConversion>,
    storeys: seq<Storey>,
    projects: seq<Entity>,
    aggregates: seq<Aggregates>,
    products: seq<Product>)
}

/** A parcel: weight and box dimensions, each with a unit, and the rules
    its schema imposes. Magnitudes are whole numbers here. */
module Packages {
  import opened Schema

  datatype Weight = Weight(value: int, unit: string)

  datatype Dimensions = Dimensions(length: int, width: int, height: int, unit: string)

  /** Both blocks are required, so both are plain fields. */
  datatype Package = Package(weight: Weight, dimensions: Dimensions)

  predicate ValidWeightUnit(u: string) { u == "LBS" || u == "KGS" }

  predicate ValidDimensionUnit(u: string) { u == "IN" || u == "CM" }

  /** The package schema: every magnitude strictly positive, units from
      their enumerations. */
  predicate Valid(p: Package)
    ensures Valid(p) <==> forall f :: FieldOk(p, f)
  {
    FieldsCovered(p);
    && p.weight.value > 0
    && ValidWeightUnit(p.weight.unit)
    && p.dimensions.length > 0
    && p.dimensions.width > 0
    && p.dimensions.height > 0
    && ValidDimensionUnit(p.dimensions.unit)
  }

  datatype Field = WeightValue | WeightUnit | Length | Width | Height | DimensionUnit

  function FieldPath(f: Field): (path: Path)
    ensures |path| == 2
  {
    match f
    case WeightValue => [Key("weight"), Key("value")]
    case WeightUnit => [Key("weight"), Key("unit")]
    case Length => [Key("dimensions"), Key("length")]
    case Width => [Key("dimensions"), Key("width")]
    case Height => [Key("dimensions"), Key("height")]
    case DimensionUnit => [Key("dimensions"), Key("unit")]
  }

  predicate FieldOk(p: Package, f: Field) {
    match f
    case WeightValue => p.weight.value > 0
    case WeightUnit => ValidWeightUnit(p.weight.unit)
    case Length => p.dimensions.length > 0
    case Width => p.dimensions.width > 0
    case Height => p.dimensions.height > 0
    case DimensionUnit => ValidDimensionUnit(p.dimensions.unit)
  }

  /** Every field is one of the six checked ones. */
  lemma FieldsCovered(p: Package)
    ensures (forall f :: FieldOk(p, f)) <==>
      && FieldOk(p, WeightValue) && FieldOk(p, WeightUnit) && FieldOk(p, Length)
      && FieldOk(p, Width) && FieldOk(p, Height) && FieldOk(p, DimensionUnit)
  {
    forall f ensures f in [WeightValue, WeightUnit, Length, Width, Height, DimensionUnit] {
      match f
      case WeightValue =>
      case WeightUnit =>
      case Length =>
      case Width =>
      case Height =>
      case DimensionUnit =>
    }
  }

  /** The fields that fail their check, in schema order. */
  function FailedFields(p: Package): (failed: seq<Field>)
    ensures failed == [] <==> Valid(p)
    ensures forall f :: f in failed <==> !FieldOk(p, f)
  {
    IfFails(FieldOk(p, WeightValue), WeightValue) + IfFails(FieldOk(p, WeightUnit), WeightUnit)
    + IfFails(FieldOk(p, Length), Length) + IfFails(FieldOk(p, Width), Width)
    + IfFails(FieldOk(p, Height), Height) + IfFails(FieldOk(p, DimensionUnit), DimensionUnit)
  }

  /** The violations reported for a package at `prefix`. */
  function Violations(prefix: Path, p: Package): (vs: seq<Violation>)
    ensures vs == [] <==> Valid(p)
    ensures forall v :: v in vs ==> |v.path| == |prefix| + 2
  {
    AtFields(prefix, FailedFields(p), FieldPath)
  }

  /** Every failing field is reported. */
  lemma FailedFieldsReported(prefix: Path, p: Package)
    ensures forall f :: !FieldOk(p, f) ==> Violation(prefix + FieldPath(f)) in Violations(prefix, p)
  {
    var failed := FailedFields(p);
    var vs := Violations(prefix, p);
    forall f | !FieldOk(p, f) ensures Violation(prefix + FieldPath(f)) in vs {
      var i :| 0 <= i < |failed| && failed[i] == f;
      assert vs[i].path == prefix + FieldPath(f);
    }
  }

  /** Where the violation of a failing field sits among the violations. */
  lemma FailedFieldIndex(prefix: Path, p: Package, f: Field) returns (k: nat)
    requires !FieldOk(p, f)
    ensures k < |Violations(prefix, p)| && Violations(prefix, p)[k] == Violation(prefix + FieldPath(f))
  {
    var failed := FailedFields(p);
    k :| k < |failed| && failed[k] == f;
  }

  /** Nothing else is reported: every violation lies at a failing field. */
  lemma ViolationsAtFailedFields(prefix: Path, p: Package)
    ensures forall v :: v in Violations(prefix, p) ==>
      (exists f :: !FieldOk(p, f) && v.path == prefix + FieldPath(f))
  {
    var failed := FailedFields(p);
    var vs := Violations(prefix, p);
    forall v | v in vs ensures exists f :: !FieldOk(p, f) && v.path == prefix + FieldPath(f) {
      var i :| 0 <= i < |vs| && vs[i] == v;
      assert failed[i] in failed;
    }
  }
}

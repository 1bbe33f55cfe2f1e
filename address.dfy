/** A postal address and the rules its schema imposes. */
module Addresses {
  import opened Wrappers
  import opened Schema

  datatype Address = Address(
    name: string,
    street1: string,
    street2: Option<string>,
    city: string,
    stateProvince: string,
    postalCode: string,
    countryCode: string,
    isResidential: Option<bool>)

  /** The address schema: required text fields non-empty, a country code
      two UTF-16 code units long; `street2` (any string, even empty) and
      `isResidential` are optional. */
  predicate Valid(a: Address)
    ensures Valid(a) <==> forall f :: FieldOk(a, f)
  {
    FieldsCovered(a);
    && |a.name| >= 1
    && |a.street1| >= 1
    && |a.city| >= 1
    && |a.stateProvince| >= 1
    && |a.postalCode| >= 1
    && Utf16Length(a.countryCode) == 2
  }

  /** The length rule counts UTF-16 code units: a single character outside
      the Basic Multilingual Plane passes, and "US" does too. */
  lemma CountryCodeInCodeUnits(a: Address)
    requires a.name != "" && a.street1 != "" && a.city != "" && a.stateProvince != "" && a.postalCode != ""
    ensures a.countryCode == "\U{1F1FA}" ==> Valid(a)
    ensures a.countryCode == "US" ==> Valid(a)
    ensures a.countryCode == "\U{1F1FA}\U{1F1F8}" ==> !Valid(a)
  {
    assert Utf16Length("\U{1F1FA}"[1..]) == 0;
    assert Utf16Length("\U{1F1FA}\U{1F1F8}"[1..]) == 2;
  }

  datatype Field = Name | Street1 | Street2 | City | StateProvince | PostalCode | CountryCode | IsResidential

  function FieldName(f: Field): string {
    match f
    case Name => "name"
    case Street1 => "street1"
    case Street2 => "street2"
    case City => "city"
    case StateProvince => "stateProvince"
    case PostalCode => "postalCode"
    case CountryCode => "countryCode"
    case IsResidential => "isResidential"
  }

  /** The check of one field; the optional fields accept any value. */
  predicate FieldOk(a: Address, f: Field) {
    match f
    case Name => a.name != ""
    case Street1 => a.street1 != ""
    case City => a.city != ""
    case StateProvince => a.stateProvince != ""
    case PostalCode => a.postalCode != ""
    case CountryCode => Utf16Length(a.countryCode) == 2
    case Street2 | IsResidential => true
  }

  /** Only the six checked fields can fail. */
  lemma FieldsCovered(a: Address)
    ensures (forall f :: FieldOk(a, f)) <==>
      && FieldOk(a, Name) && FieldOk(a, Street1) && FieldOk(a, City)
      && FieldOk(a, StateProvince) && FieldOk(a, PostalCode) && FieldOk(a, CountryCode)
  {
    forall f | !FieldOk(a, f) ensures f in [Name, Street1, City, StateProvince, PostalCode, CountryCode] {
      match f
      case Street2 =>
      case IsResidential =>
      case Name =>
      case Street1 =>
      case City =>
      case StateProvince =>
      case PostalCode =>
      case CountryCode =>
    }
  }

  /** The fields that fail their check, in schema order. */
  function FailedFields(a: Address): (failed: seq<Field>)
    ensures failed == [] <==> Valid(a)
    ensures forall f :: f in failed <==> !FieldOk(a, f)
    ensures Street2 !in failed && IsResidential !in failed
  {
    IfFails(FieldOk(a, Name), Name) + IfFails(FieldOk(a, Street1), Street1)
    + IfFails(FieldOk(a, City), City) + IfFails(FieldOk(a, StateProvince), StateProvince)
    + IfFails(FieldOk(a, PostalCode), PostalCode) + IfFails(FieldOk(a, CountryCode), CountryCode)
  }

  /** The violations reported for an address at `prefix`. */
  function Violations(prefix: Path, a: Address): (vs: seq<Violation>)
    ensures vs == [] <==> Valid(a)
    ensures forall v :: v in vs ==> |v.path| == |prefix| + 1
  {
    AtFields(prefix, FailedFields(a), f => [Key(FieldName(f))])
  }

  /** Every failing field is reported, keyed by the field's name. */
  lemma FailedFieldsReported(prefix: Path, a: Address)
    ensures forall f :: !FieldOk(a, f) ==> Violation(prefix + [Key(FieldName(f))]) in Violations(prefix, a)
  {
    var failed := FailedFields(a);
    var vs := Violations(prefix, a);
    forall f | !FieldOk(a, f) ensures Violation(prefix + [Key(FieldName(f))]) in vs {
      var i :| 0 <= i < |failed| && failed[i] == f;
      assert vs[i].path == prefix + [Key(FieldName(f))];
    }
  }

  /** Nothing else is reported: every violation lies at a failing field. */
  lemma ViolationsAtFailedFields(prefix: Path, a: Address)
    ensures forall v :: v in Violations(prefix, a) ==>
      (exists f :: !FieldOk(a, f) && v.path == prefix + [Key(FieldName(f))])
  {
    var failed := FailedFields(a);
    var vs := Violations(prefix, a);
    forall v | v in vs ensures exists f :: !FieldOk(a, f) && v.path == prefix + [Key(FieldName(f))] {
      var i :| 0 <= i < |vs| && vs[i] == v;
      assert failed[i] in failed;
    }
  }
}

/** Rate requests, quotes and responses, and the schemas over them. */
module Rates {
  import opened Wrappers
  import opened Schema
  import opened JsNumbers
  import Addresses
  import Packages

  /** A point in time, in milliseconds since the epoch. */
  type Timestamp = int

  datatype RateRequest = RateRequest(
    origin: Addresses.Address,
    destination: Addresses.Address,
    packages: seq<Packages.Package>,
    serviceLevel: Option<string>,
    pickupDate: Option<Timestamp>)

  datatype Money = Money(amount: JsNumber, currency: string)

  datatype RateQuote = RateQuote(
    carrier: string,
    service: string,
    serviceCode: string,
    totalCost: Money,
    transitDays: Option<JsNumber>,
    deliveryDate: Option<string>,
    meta: Option<map<string, string>>)

  datatype RateResponse = RateResponse(request: RateRequest, quotes: seq<RateQuote>, timestamp: Timestamp)

  /** The request schema: both addresses valid, at least one package, every
      package valid; the service level and pickup date are optional. */
  predicate ValidRequest(r: RateRequest)
    ensures ValidRequest(r) <==>
      && (forall f :: Addresses.FieldOk(r.origin, f) && Addresses.FieldOk(r.destination, f))
      && r.packages != []
      && (forall i, f :: 0 <= i < |r.packages| ==> Packages.FieldOk(r.packages[i], f))
  {
    && Addresses.Valid(r.origin)
    && Addresses.Valid(r.destination)
    && |r.packages| >= 1
    && forall i :: 0 <= i < |r.packages| ==> Packages.Valid(r.packages[i])
  }

  /** Where the package at index `i` sits in a request. */
  function PackagePath(i: nat): Path {
    [Key("packages"), Index(i)]
  }

  /** The violations of the package at index `i`. */
  function PackageViolations(i: nat, p: Packages.Package): seq<Violation> {
    Packages.Violations(PackagePath(i), p)
  }

  /** The violations of the packages, each under its index. */
  function PackageListViolations(ps: seq<Packages.Package>): (vs: seq<Violation>)
    ensures vs == [] <==> forall i :: 0 <= i < |ps| ==> Packages.Valid(ps[i])
  {
    NoElementViolations(ps, 0, PackageViolations);
    ElementViolations(ps, 0, PackageViolations)
  }

  /** Every failing field of every package is reported, under that
      package's index `i`. */
  lemma PackageListReportsFailures(ps: seq<Packages.Package>, i: nat, f: Packages.Field)
    requires i < |ps| && !Packages.FieldOk(ps[i], f)
    ensures Violation(PackagePath(i) + Packages.FieldPath(f)) in PackageListViolations(ps)
  {
    var k0 := Packages.FailedFieldIndex(PackagePath(i), ps[i], f);
    InPackageList(ps, i, Violation(PackagePath(i) + Packages.FieldPath(f)));
  }

  lemma InPackageList(ps: seq<Packages.Package>, i: nat, v: Violation)
    requires i < |ps| && v in PackageViolations(i, ps[i])
    ensures v in PackageListViolations(ps)
  {
    ElementViolationsInclude(ps, PackageViolations, i, v);
  }

  /** Nothing else is reported: each package violation lies at a failing
      field of the package at its index `i`. */
  lemma PackageListReportsOnlyFailures(ps: seq<Packages.Package>, v: Violation)
    requires v in PackageListViolations(ps)
    ensures exists i: nat, f :: i < |ps| && !Packages.FieldOk(ps[i], f) && v.path == PackagePath(i) + Packages.FieldPath(f)
  {
    var i := ElementViolationSource(ps, PackageViolations, v);
    Packages.ViolationsAtFailedFields(PackagePath(i), ps[i]);
  }

  /** Every package violation is four levels deep: `packages`, index, block, field. */
  lemma PackageViolationDepth(ps: seq<Packages.Package>)
    ensures forall v :: v in PackageListViolations(ps) ==> |v.path| == 4
  {
    forall v | v in PackageListViolations(ps) ensures |v.path| == 4 {
      var i := ElementViolationSource(ps, PackageViolations, v);
    }
  }

  /** Everything the request schema reports, in schema order. */
  function RequestViolations(r: RateRequest): (vs: seq<Violation>)
    ensures vs == [] <==> ValidRequest(r)
    ensures Violation([Key("packages")]) in vs <==> r.packages == []
  {
    var o := Addresses.Violations([Key("origin")], r.origin);
    var d := Addresses.Violations([Key("destination")], r.destination);
    var empty := if r.packages == [] then [Violation([Key("packages")])] else [];
    var ps := PackageListViolations(r.packages);
    assert r.packages == [] ==> ps == [];
    NotAtDepth(o, 2, [Key("packages")]);
    NotAtDepth(d, 2, [Key("packages")]);
    PackageViolationDepth(r.packages);
    NotAtDepth(ps, 4, [Key("packages")]);
    o + d + empty + ps
  }

  /** A violation at a path of another depth is not among `vs`. */
  lemma NotAtDepth(vs: seq<Violation>, n: nat, p: Path)
    requires forall v :: v in vs ==> |v.path| == n
    requires |p| != n
    ensures Violation(p) !in vs
  {
  }

  /** The quote schema: the amount and, when present, the transit days must
      be numbers (NaN is refused); no sign or currency format is checked. */
  predicate ValidQuote(q: RateQuote)
    ensures !ValidQuote(q) <==> q.totalCost.amount.NaN? || (q.transitDays.Some? && q.transitDays.value.NaN?)
  {
    && q.totalCost.amount.Finite?
    && (q.transitDays.Some? ==> q.transitDays.value.Finite?)
  }

  /** The response schema: a valid request and valid quotes. */
  predicate ValidResponse(r: RateResponse)
    ensures ValidResponse(r) <==> ValidRequest(r.request) && forall q :: q in r.quotes ==> ValidQuote(q)
  {
    && ValidRequest(r.request)
    && forall i :: 0 <= i < |r.quotes| ==> ValidQuote(r.quotes[i])
  }
}

/** Translation between the carrier-agnostic rate types and the UPS wire
    format: a rate request becomes a "Shop" request, and the rated shipments
    of a UPS response become quotes. */
module UpsMappers {
  import opened Wrappers
  import opened JsNumbers
  import opened Addresses
  import opened Packages
  import opened Rates
  import opened UpsTypes

  const CarrierName := "UPS"
  const FallbackService := "UPS Service"
  /** Packaging type "02": customer-supplied package. */
  const PackagingCode := "02"
  const ShopOption := "Shop"

  /** A wire address: the street lines, then the locality fields verbatim.
      The second street line is appended only when it is a non-empty string. */
  function ToUPSAddress(a: Address): (w: UPSAddress)
    ensures 1 <= |w.addressLine| <= 2 && w.addressLine[0] == a.street1
    ensures |w.addressLine| == 2 <==> a.street2.Some? && a.street2.value != ""
    ensures |w.addressLine| == 2 ==> w.addressLine[1] == a.street2.value
    ensures w.city == a.city && w.stateProvinceCode == a.stateProvince
    ensures w.postalCode == a.postalCode && w.countryCode == a.countryCode
  {
    var lines := if a.street2.Some? && a.street2.value != "" then [a.street1, a.street2.value] else [a.street1];
    UPSAddress(lines, a.city, a.stateProvince, a.postalCode, a.countryCode)
  }

  /** A wire package: fixed packaging code, unit codes copied, magnitudes
      rendered by `toString`. */
  function ToUPSPackage(p: Package): (w: UPSPackage)
    ensures w.packagingType == CodeDescription(PackagingCode, None)
    ensures w.dimensions.Some?
    ensures w.dimensions.value.unitOfMeasurement.code == p.dimensions.unit
    ensures w.packageWeight.unitOfMeasurement.code == p.weight.unit
    ensures w.packageWeight.weight == IntToDecimal(p.weight.value)
    ensures w.dimensions.value.length == IntToDecimal(p.dimensions.length)
    ensures w.dimensions.value.width == IntToDecimal(p.dimensions.width)
    ensures w.dimensions.value.height == IntToDecimal(p.dimensions.height)
  {
    UPSPackage(
      CodeDescription(PackagingCode, None),
      Some(UPSPackageDimensions(
        CodeDescription(p.dimensions.unit, None),
        IntToDecimal(p.dimensions.length),
        IntToDecimal(p.dimensions.width),
        IntToDecimal(p.dimensions.height))),
      UPSPackageWeight(CodeDescription(p.weight.unit, None), IntToDecimal(p.weight.value)))
  }

  /** Every magnitude on the wire is a decimal that parses back to the
      package's own value. */
  lemma WireMagnitudesParseBack(p: Package)
    ensures var w := ToUPSPackage(p);
      && ParseInt(w.packageWeight.weight) == Finite(p.weight.value as real)
      && ParseInt(w.dimensions.value.length) == Finite(p.dimensions.length as real)
      && ParseInt(w.dimensions.value.width) == Finite(p.dimensions.width as real)
      && ParseInt(w.dimensions.value.height) == Finite(p.dimensions.height as real)
  {
    IntToDecimalParsesBack(p.weight.value);
    IntToDecimalParsesBack(p.dimensions.length);
    IntToDecimalParsesBack(p.dimensions.width);
    IntToDecimalParsesBack(p.dimensions.height);
  }

  /** `packages.map(toUPSPackage)`: same length, same order. */
  function ToUPSPackages(ps: seq<Package>): (ws: seq<UPSPackage>)
    ensures |ws| == |ps|
    ensures forall i :: 0 <= i < |ps| ==> ws[i] == ToUPSPackage(ps[i])
  {
    if ps == [] then [] else [ToUPSPackage(ps[0])] + ToUPSPackages(ps[1..])
  }

  /** The "Shop" request for a rate request: shipper and ship-from are both
      the origin, ship-to is the destination, one wire package per package. */
  function ToUPSRequest(r: RateRequest): (w: UPSRateRequest)
    ensures w.request == RequestInfo(ShopOption, None)
    ensures w.shipment.service == None
    ensures w.shipment.shipper == w.shipment.shipFrom
    ensures w.shipment.shipper == Party(r.origin.name, ToUPSAddress(r.origin))
    ensures w.shipment.shipTo == Party(r.destination.name, ToUPSAddress(r.destination))
    ensures |w.shipment.packages| == |r.packages|
    ensures forall i :: 0 <= i < |r.packages| ==> w.shipment.packages[i] == ToUPSPackage(r.packages[i])
  {
    UPSRateRequest(
      RequestInfo(ShopOption, None),
      Shipment(
        Party(r.origin.name, ToUPSAddress(r.origin)),
        Party(r.destination.name, ToUPSAddress(r.destination)),
        Party(r.origin.name, ToUPSAddress(r.origin)),
        ToUPSPackages(r.packages),
        None))
  }

  /** The transit days of a rated shipment: parsed when the guaranteed-delivery
      day count is present and non-empty, absent otherwise. */
  function TransitDays(s: UPSRatedShipment): (d: Option<JsNumber>)
    ensures d.None? <==>
      s.guaranteedDelivery.None? || s.guaranteedDelivery.value.businessDaysInTransit.None?
      || s.guaranteedDelivery.value.businessDaysInTransit.value == ""
    ensures d.Some? ==> d.value == ParseInt(s.guaranteedDelivery.value.businessDaysInTransit.value)
  {
    match s.guaranteedDelivery
    case Some(GuaranteedDelivery(Some(days), _)) =>
      if days != "" then Some(ParseInt(days)) else None
    case _ => None
  }

  /** The quote for one rated shipment. */
  function ToRateQuote(s: UPSRatedShipment): (q: RateQuote)
    ensures q.carrier == CarrierName
    ensures q.serviceCode == s.service.code
    ensures q.service == s.service.description.GetOr(FallbackService)
    ensures q.totalCost == Money(ParseFloat(s.totalCharges.monetaryValue), s.totalCharges.currencyCode)
    ensures q.transitDays == TransitDays(s)
    ensures q.deliveryDate.None? && q.meta.None?
  {
    RateQuote(
      CarrierName,
      s.service.description.GetOr(FallbackService),
      s.service.code,
      Money(ParseFloat(s.totalCharges.monetaryValue), s.totalCharges.currencyCode),
      TransitDays(s),
      None,
      None)
  }

  /** `ratedShipments.map(toQuote)`: same length, same order. */
  function ToRateQuotes(ss: seq<UPSRatedShipment>): (qs: seq<RateQuote>)
    ensures |qs| == |ss|
    ensures forall i :: 0 <= i < |ss| ==> qs[i] == ToRateQuote(ss[i])
  {
    if ss == [] then [] else [ToRateQuote(ss[0])] + ToRateQuotes(ss[1..])
  }

  /** The domain response: the original request, one quote per rated
      shipment in carrier order, and the time it was built. */
  function ToRateResponse(u: UPSRateResponse, originalRequest: RateRequest, now: Timestamp): (r: RateResponse)
    ensures r.request == originalRequest && r.timestamp == now
    ensures |r.quotes| == |u.ratedShipments|
    ensures forall i :: 0 <= i < |r.quotes| ==> r.quotes[i] == ToRateQuote(u.ratedShipments[i])
  {
    RateResponse(originalRequest, ToRateQuotes(u.ratedShipments), now)
  }

  // ----- Reading the wire format back -----

  /** The address a wire address describes, given the party name and the
      residential flag, which the wire address does not carry. */
  function FromUPSAddress(name: string, w: UPSAddress, isResidential: Option<bool>): Address {
    Address(
      name,
      if |w.addressLine| > 0 then w.addressLine[0] else "",
      if |w.addressLine| > 1 then Some(w.addressLine[1]) else None,
      w.city, w.stateProvinceCode, w.postalCode, w.countryCode,
      isResidential)
  }

  /** A magnitude read back from its decimal string, if it is one. */
  function FromDecimal(s: string): Option<int> {
    match ParseInt(s)
    case Finite(v) => if IntToDecimal(v.Floor) == s then Some(v.Floor) else None
    case NaN => None
  }

  /** The package a wire package describes, if its strings are decimals and
      it has dimensions. */
  function FromUPSPackage(w: UPSPackage): Option<Package> {
    match w.dimensions
    case None => None
    case Some(d) =>
      match (FromDecimal(w.packageWeight.weight), FromDecimal(d.length), FromDecimal(d.width), FromDecimal(d.height))
      case (Some(wt), Some(l), Some(wd), Some(h)) =>
        Some(Package(Weight(wt, w.packageWeight.unitOfMeasurement.code), Dimensions(l, wd, h, d.unitOfMeasurement.code)))
      case _ => None
  }

  /** The wire address loses nothing but an empty second street line: reading
      it back gives the address itself exactly when `street2` is not `""`. */
  lemma AddressRoundTrip(a: Address)
    ensures FromUPSAddress(a.name, ToUPSAddress(a), a.isResidential) == a <==> a.street2 != Some("")
  {
  }

  /** Every package is recovered from its wire form: units and magnitudes
      survive the translation exactly. */
  lemma {:induction false} PackageRoundTrip(p: Package)
    ensures FromUPSPackage(ToUPSPackage(p)) == Some(p)
  {
    IntToDecimalParsesBack(p.weight.value);
    IntToDecimalParsesBack(p.dimensions.length);
    IntToDecimalParsesBack(p.dimensions.width);
    IntToDecimalParsesBack(p.dimensions.height);
  }

  /** The whole shipment round-trips: the origin and destination are
      recovered (up to an empty second street line) and so is every package. */
  lemma RequestRoundTrip(r: RateRequest)
    requires r.origin.street2 != Some("") && r.destination.street2 != Some("")
    ensures var w := ToUPSRequest(r);
      && FromUPSAddress(w.shipment.shipper.name, w.shipment.shipper.address, r.origin.isResidential) == r.origin
      && FromUPSAddress(w.shipment.shipTo.name, w.shipment.shipTo.address, r.destination.isResidential) == r.destination
      && forall i :: 0 <= i < |r.packages| ==> FromUPSPackage(w.shipment.packages[i]) == Some(r.packages[i])
  {
    AddressRoundTrip(r.origin);
    AddressRoundTrip(r.destination);
    forall i | 0 <= i < |r.packages|
      ensures FromUPSPackage(ToUPSRequest(r).shipment.packages[i]) == Some(r.packages[i])
    {
      PackageRoundTrip(r.packages[i]);
    }
  }

  /** The fallback service name appears only for a shipment without a
      description (or one whose description is the fallback itself); an
      empty description is kept as it is. */
  lemma FallbackOnlyWithoutDescription(s: UPSRatedShipment)
    ensures ToRateQuote(s).service == FallbackService <==>
      s.service.description.None? || s.service.description == Some(FallbackService)
    ensures s.service.description == Some("") ==> ToRateQuote(s).service == ""
  {
  }

  /** Whether the numbers of a rated shipment parse. */
  predicate NumbersParse(s: UPSRatedShipment) {
    && ParseFloat(s.totalCharges.monetaryValue).Finite?
    && (TransitDays(s).Some? ==> TransitDays(s).value.Finite?)
  }

  /** The mapped response satisfies the response schema exactly when the
      request is valid and every rated shipment's amount and day count
      parse; nothing checks this on the way. */
  lemma MappedResponseValid(u: UPSRateResponse, request: RateRequest, now: Timestamp)
    ensures ValidResponse(ToRateResponse(u, request, now)) <==>
      ValidRequest(request) && forall i :: 0 <= i < |u.ratedShipments| ==> NumbersParse(u.ratedShipments[i])
  {
    var r := ToRateResponse(u, request, now);
    forall i | 0 <= i < |r.quotes|
      ensures ValidQuote(r.quotes[i]) <==> NumbersParse(u.ratedShipments[i])
    {
      assert r.quotes[i] == ToRateQuote(u.ratedShipments[i]);
    }
  }

  /** A weight of 10 pounds goes on the wire as "10" with code "LBS". */
  lemma TenPoundsOnTheWire(p: Package)
    requires p.weight == Weight(10, "LBS")
    ensures ToUPSPackage(p).packageWeight == UPSPackageWeight(CodeDescription("LBS", None), "10")
  {
    assert NatToDecimal(1) == [DigitChar(1)] == "1";
    assert NatToDecimal(10) == NatToDecimal(1) + [DigitChar(0)] == "10";
  }

  /** "15.00" parses to 15. */
  lemma FifteenDollars()
    ensures ParseFloat("15.00") == Finite(15.0)
  {
    var amount := "15.00";
    assert TrimStart(amount) == amount && Unsigned(amount) == amount && !Negative(amount);
    assert DigitPrefixLength(amount[3..]) == 2 by {
      assert amount[3..][1..] == "0";
      assert amount[3..][1..][1..] == [];
    }
    assert DigitPrefixLength(amount[2..]) == 0;
    assert DigitPrefixLength(amount[1..]) == 1 by { assert amount[1..][1..] == amount[2..]; }
    assert DigitPrefixLength(amount) == 2;
    assert amount[..2] == "15";
    assert FractionDigits(amount, 2) == "00" by { assert amount[3..][..2] == "00"; }
    assert DigitsValue("1") == 1 by { assert "1"[..0] == []; }
    assert DigitsValue("15") == 15 by { assert "15"[..1] == "1"; }
    assert DigitsValue("0") == 0 by { assert "0"[..0] == []; }
    assert DigitsValue("00") == 0 by { assert "00"[..1] == "0"; }
  }

  /** A UPS Ground shipment at 15.00 USD, 3 days in transit, gives the quote
      the integration test expects. */
  lemma GroundShipmentQuote()
    ensures
      var s := UPSRatedShipment(
        CodeDescription("03", Some("UPS Ground")), None,
        TotalCharges("USD", "15.00"), Some(GuaranteedDelivery(Some("3"), None)));
      ToRateQuote(s) == RateQuote("UPS", "UPS Ground", "03", Money(Finite(15.0), "USD"),
                                  Some(Finite(3.0)), None, None)
  {
    assert NatToDecimal(3) == [DigitChar(3)] == "3";
    IntToDecimalParsesBack(3);
    FifteenDollars();
  }
}

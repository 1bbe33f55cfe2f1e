/** The UPS Rating API wire format. Magnitudes travel as strings, each
    paired with a unit code; optional members are `Option`s. */
module UpsTypes {
  import opened Wrappers

  /** A code with an optional human-readable description. */
  datatype CodeDescription = CodeDescription(code: string, description: Option<string>)

  datatype UPSAddress = UPSAddress(
    addressLine: seq<string>,
    city: string,
    stateProvinceCode: string,
    postalCode: string,
    countryCode: string)

  datatype UPSPackageWeight = UPSPackageWeight(unitOfMeasurement: CodeDescription, weight: string)

  datatype UPSPackageDimensions = UPSPackageDimensions(
    unitOfMeasurement: CodeDescription, length: string, width: string, height: string)

  /** The weight block is required, the dimensions block optional. */
  datatype UPSPackage = UPSPackage(
    packagingType: CodeDescription,
    dimensions: Option<UPSPackageDimensions>,
    packageWeight: UPSPackageWeight)

  datatype Party = Party(name: string, address: UPSAddress)

  /** `TransactionReference.CustomerContext`, when present, is the only
      member besides `RequestOption`. */
  datatype RequestInfo = RequestInfo(requestOption: string, transactionReference: Option<string>)

  /** `Service` is optional: a "Shop" request asks for every service. */
  datatype Shipment = Shipment(
    shipper: Party,
    shipTo: Party,
    shipFrom: Party,
    packages: seq<UPSPackage>,
    service: Option<CodeDescription>)

  datatype UPSRateRequest = UPSRateRequest(request: RequestInfo, shipment: Shipment)

  datatype TotalCharges = TotalCharges(currencyCode: string, monetaryValue: string)

  datatype GuaranteedDelivery = GuaranteedDelivery(
    businessDaysInTransit: Option<string>, deliveryByTime: Option<string>)

  /** The wire type declares the service description required, but nothing
      checks the response, so it may be missing. */
  datatype UPSRatedShipment = UPSRatedShipment(
    service: CodeDescription,
    ratedShipmentAlert: Option<seq<CodeDescription>>,
    totalCharges: TotalCharges,
    guaranteedDelivery: Option<GuaranteedDelivery>)

  datatype ResponseInfo = ResponseInfo(responseStatus: CodeDescription, alert: Option<seq<CodeDescription>>)

  /** `RatedShipment` is always a list in this type. */
  datatype UPSRateResponse = UPSRateResponse(response: ResponseInfo, ratedShipments: seq<UPSRatedShipment>)
}

/** The configuration every carrier is built from. */
module CarrierTypes {
  import opened Wrappers

  /** Credentials, optional account number, API base URL, optional token
      endpoint URL, and carrier-specific extra settings. */
  datatype CarrierConfig = CarrierConfig(
    clientId: string,
    clientSecret: string,
    accountNumber: Option<string>,
    baseUrl: string,
    authUrl: Option<string>,
    extra: map<string, string>)
}

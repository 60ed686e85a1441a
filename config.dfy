/** The configuration and token records the service is built on. */
module Config {
  import opened Js

  /** The process-wide configuration, fixed once it is validated. Numeric
    * identifiers are what `parseInt` made of their variables. */
  datatype KiboConfig = KiboConfig(
    apiHost: string,
    clientId: string,
    clientSecret: string,
    tenantId: JsNumber,
    siteId: JsNumber,
    masterCatalogId: Option<JsNumber>,
    locale: string,
    currency: string,
    logLevel: string)

  /** The token record. `expiresAt` is an absolute time in milliseconds. */
  datatype AuthTokens = AuthTokens(
    accessToken: string,
    tokenType: string,
    expiresAt: int,
    refreshToken: Option<string>)
}

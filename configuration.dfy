/**
 * The SDK configuration options (interfaces/configuration/sdk-configuration-options.ts) as far
 * as the modelled clients read them.
 */
module Configuration {
  import opened Wrappers

  /** The SDK options `connect` builds; a credential read from a missing localStorage item is null. */
  datatype SdkOptions = SdkOptions(
    networkId: string,
    accountId: string,
    publicKey: string,
    orderlyKeyPrivate: string,
    tradingPublic: Option<string>,
    tradingSecret: Option<string>)
}

/**
 * Per-channel Picqer configuration and the rule that decides whether a
 * Picqer client can be built from it (`getClient`). Every sync operation
 * goes through this gate: a missing, disabled or incomplete configuration
 * means "Picqer is not active for this channel", which is never an error.
 */
module Config {
  import opened Wrappers
  import opened Js

  /** One channel's stored configuration; absent text fields are `None`. */
  datatype PicqerConfig = PicqerConfig(
    enabled: bool,
    apiKey: Option<string>,
    apiEndpoint: Option<string>,
    storefrontUrl: Option<string>,
    supportEmail: Option<string>)

  /** The credentials a client is built from; every one of them is non-empty. */
  datatype Client = Client(
    apiKey: string,
    apiEndpoint: string,
    storefrontUrl: string,
    supportEmail: string)

  /**
   * `getClient`: no client when the configuration is missing or disabled,
   * or when any of the four credentials is missing or empty.
   */
  function GetClient(config: Option<PicqerConfig>): (r: Option<Client>)
    ensures r.Some? <==>
      config.Some? && config.value.enabled &&
      Truthy(config.value.apiKey) && Truthy(config.value.apiEndpoint) &&
      Truthy(config.value.storefrontUrl) && Truthy(config.value.supportEmail)
    ensures r.Some? ==>
      r.value.apiKey != "" && Some(r.value.apiKey) == config.value.apiKey &&
      r.value.apiEndpoint != "" && Some(r.value.apiEndpoint) == config.value.apiEndpoint &&
      r.value.storefrontUrl != "" && Some(r.value.storefrontUrl) == config.value.storefrontUrl &&
      r.value.supportEmail != "" && Some(r.value.supportEmail) == config.value.supportEmail
  {
    if config.None? || !config.value.enabled then
      None
    else
      var c := config.value;
      if !Truthy(c.apiKey) || !Truthy(c.apiEndpoint) || !Truthy(c.storefrontUrl) || !Truthy(c.supportEmail) then
        None
      else
        Some(Client(c.apiKey.value, c.apiEndpoint.value, c.storefrontUrl.value, c.supportEmail.value))
  }
}

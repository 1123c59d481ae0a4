/** The server's constructor check on its two settings, the tailnet name
    (TAILNET) and the API token (TAILSCALE_TOKEN). Reading the process
    environment is left to the caller: an unset variable is `None`. */
module Startup {
  import opened Wrappers

  datatype Config = Config(tailnet: string, apiKey: string)

  const MissingSettingsMessage := "TAILNET and TAILSCALE_TOKEN environment variables are required"

  /** `!value` in JavaScript: an unset variable and the empty string are both falsy. */
  predicate Missing(setting: Option<string>) {
    setting.None? || setting.value == ""
  }

  /** Builds the configuration, or fails with the constructor's error. */
  function ConfigFromEnvironment(tailnet: Option<string>, apiKey: Option<string>): (r: Result<Config, string>)
    ensures r.Success? <==>
      tailnet.Some? && |tailnet.value| > 0 && apiKey.Some? && |apiKey.value| > 0
    ensures r.Success? ==> r.value.tailnet == tailnet.value && r.value.apiKey == apiKey.value
    ensures r.Failure? ==> r.error == MissingSettingsMessage
  {
    if Missing(tailnet) || Missing(apiKey) then Failure(MissingSettingsMessage)
    else Success(Config(tailnet.value, apiKey.value))
  }
}

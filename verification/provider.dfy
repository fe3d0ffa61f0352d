/** Provider configuration: resolving the API token and the base URL that
    every resource receives. */
module Provider {
  import opened Wrappers
  import opened Framework
  import opened Http

  /** The base URL handed to resources; no setting changes it. */
  const FastlyApiUrl := "https://api.fastly.com"

  const MissingTokenSummary := "Missing API Token Configuration"
  const MissingTokenDetail := "While configuring the provider, the API token was not found in the FASTLY_API_KEY environment variable or provider configuration block api_token attribute."

  /** The provider block: both attributes are optional. */
  datatype ProviderModel = ProviderModel(apiKey: TfString, baseUrl: TfString)

  /** What resources and data sources receive once configuration succeeds. */
  datatype ConfiguredData = ConfiguredData(client: HttpClient, baseUrl: string, apiKey: string)

  datatype ConfigureResponse = ConfigureResponse(
    diagnostics: seq<Diagnostic>,
    dataSourceData: Option<ConfiguredData>,
    resourceData: Option<ConfiguredData>)

  /** The token after the two assignments run in order: the environment
      value, replaced by a non-empty `api_key`, replaced in turn by a
      non-empty `base_url`. */
  function ResolveToken(env: string, config: ProviderModel): (token: string)
    ensures config.baseUrl.ValueString() != "" ==> token == config.baseUrl.ValueString()
    ensures config.baseUrl.ValueString() == "" && config.apiKey.ValueString() != "" ==>
              token == config.apiKey.ValueString()
    ensures config.baseUrl.ValueString() == "" && config.apiKey.ValueString() == "" ==> token == env
    ensures token == "" <==> env == "" && config.apiKey.ValueString() == "" && config.baseUrl.ValueString() == ""
  {
    var fromEnv := env;
    var afterApiKey := if config.apiKey.ValueString() != "" then config.apiKey.ValueString() else fromEnv;
    var afterBaseUrl := if config.baseUrl.ValueString() != "" then config.baseUrl.ValueString() else afterApiKey;
    afterBaseUrl
  }

  /** Configure, given the FASTLY_API_KEY environment value and the decoded
      provider block. */
  function Configure(env: string, config: ProviderModel): (r: ConfigureResponse)
    ensures r.dataSourceData == r.resourceData
    ensures r.resourceData.None? <==>
              env == "" && config.apiKey.ValueString() == "" && config.baseUrl.ValueString() == ""
    ensures r.resourceData.None? <==> HasError(r.diagnostics)
    ensures r.resourceData.None? ==>
              r.diagnostics == [Diagnostic(Error, MissingTokenSummary, MissingTokenDetail)]
    ensures r.resourceData.Some? ==>
              && r.diagnostics == []
              && r.resourceData.value.client == DefaultClient
              && r.resourceData.value.baseUrl == FastlyApiUrl
              && r.resourceData.value.apiKey == ResolveToken(env, config)
  {
    var baseUrl := FastlyApiUrl;
    var token := ResolveToken(env, config);
    if token == "" then
      ConfigureResponse([Diagnostic(Error, MissingTokenSummary, MissingTokenDetail)], None, None)
    else
      var downstream := ConfiguredData(DefaultClient, baseUrl, token);
      ConfigureResponse([], Some(downstream), Some(downstream))
  }

  /** A non-empty `base_url` setting ends up as the credential, whatever
      `api_key` and the environment say, and the base URL stays the default. */
  lemma BaseUrlSettingBecomesToken(env: string, config: ProviderModel)
    requires config.baseUrl.ValueString() != ""
    ensures Configure(env, config).resourceData
            == Some(ConfiguredData(DefaultClient, FastlyApiUrl, config.baseUrl.ValueString()))
  {
  }

  /** Two configurations that resolve to the same token configure resources
      identically: the base URL setting has no other effect. */
  lemma ConfigureDependsOnlyOnToken(env1: string, c1: ProviderModel, env2: string, c2: ProviderModel)
    requires ResolveToken(env1, c1) == ResolveToken(env2, c2)
    ensures Configure(env1, c1) == Configure(env2, c2)
  {
  }
}

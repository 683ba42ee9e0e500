/** The lab provider's configuration
    (terraform-provider-lab/internal/provider/provider.go): null or unknown
    attributes count as "", ResolveProviderConfig picks each setting, and
    both missing settings are reported in one pass before any client is
    built. */
module LabProvider {
  import opened Common
  import LabClient
  import opened ProviderConfig
  import opened Framework

  const MissingEndpoint: Diagnostic := Diagnostic("Missing lab API endpoint", Some("endpoint"))
  const MissingApiKey: Diagnostic := Diagnostic("Missing lab API key", Some("api_key"))

  /** The settings Configure resolves, from the two attributes and
      LAB_ENDPOINT and LAB_API_KEY. */
  function Settings(endpointAttr: Value<string>, apiKeyAttr: Value<string>, envEndpoint: string, envApiKey: string): Resolved {
    ResolveProviderConfig(ValueOr(endpointAttr, ""), ValueOr(apiKeyAttr, ""), envEndpoint, envApiKey)
  }

  /** Configure: each missing setting adds its own attribute error, with no
      early return between the two checks; with either missing no client is
      made. Otherwise NewClient cannot fail, because the resolved endpoint
      is already trimmed and non-empty, and its client is stored for both
      resources and data sources. */
  method Configure(endpointAttr: Value<string>, apiKeyAttr: Value<string>, envEndpoint: string, envApiKey: string)
    returns (resp: ConfigureResponse)
    ensures var r := Settings(endpointAttr, apiKeyAttr, envEndpoint, envApiKey);
            resp.diags == (if r.endpoint == "" then [MissingEndpoint] else []) + (if r.apiKey == "" then [MissingApiKey] else [])
    ensures var r := Settings(endpointAttr, apiKeyAttr, envEndpoint, envApiKey);
            (r.endpoint == "" || r.apiKey == "") <==> resp.resourceData.NoProviderData?
    ensures resp.dataSourceData == resp.resourceData
    ensures var r := Settings(endpointAttr, apiKeyAttr, envEndpoint, envApiKey);
            r.endpoint != "" && r.apiKey != "" ==>
              resp.resourceData.LabData? && LabClient.NewClient(r.endpoint, r.apiKey) == Ok(resp.resourceData.lab)
  {
    var configEndpoint := "";
    if !endpointAttr.Null? && !endpointAttr.Unknown? {
      configEndpoint := endpointAttr.value;
    }
    var configApiKey := "";
    if !apiKeyAttr.Null? && !apiKeyAttr.Unknown? {
      configApiKey := apiKeyAttr.value;
    }
    assert configEndpoint == ValueOr(endpointAttr, "") && configApiKey == ValueOr(apiKeyAttr, "");
    var resolved := ResolveProviderConfig(configEndpoint, configApiKey, envEndpoint, envApiKey);
    assert resolved == Settings(endpointAttr, apiKeyAttr, envEndpoint, envApiKey);
    var diags: seq<Diagnostic> := [];
    if resolved.endpoint == "" {
      diags := diags + [MissingEndpoint];
    }
    if resolved.apiKey == "" {
      diags := diags + [MissingApiKey];
    }
    assert diags == (if resolved.endpoint == "" then [MissingEndpoint] else [])
                    + (if resolved.apiKey == "" then [MissingApiKey] else []);
    if diags != [] {
      resp := ConfigureResponse(NoProviderData, NoProviderData, diags);
    } else {
      SettingMeaning(configEndpoint, envEndpoint);
      resp := Connect(resolved);
    }
  }

  /** The end of Configure once both settings are present: NewClient's
      error would become a diagnostic, but it cannot happen, because the
      endpoint is already trimmed and non-empty. */
  method Connect(resolved: Resolved) returns (resp: ConfigureResponse)
    requires resolved.endpoint != "" && TrimSpace(resolved.endpoint) == resolved.endpoint
    ensures resp.diags == [] && resp.dataSourceData == resp.resourceData && resp.resourceData.LabData?
    ensures LabClient.NewClient(resolved.endpoint, resolved.apiKey) == Ok(resp.resourceData.lab)
  {
    TrimSpaceEmpty(resolved.endpoint);
    var created := LabClient.NewClient(resolved.endpoint, resolved.apiKey);
    if created.Err? {
      resp := ConfigureResponse(NoProviderData, NoProviderData, [Error("Unable to create lab API client")]);
    } else {
      resp := ConfigureResponse(LabData(created.value), LabData(created.value), []);
    }
  }

  /** Resources registers the machine resource alone; DataSources is nil. */
  const Resources: seq<Factory> := [MachineResourceFactory]
  const DataSources: seq<Factory> := []
}

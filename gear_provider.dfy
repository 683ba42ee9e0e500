/** The lab_gear provider's configuration
    (terraform-provider-lab_gear/internal/provider/provider.go): the
    endpoint and token come from the environment unless the configuration
    gives them, and each must end up non-empty. */
module GearProvider {
  import opened Common
  import GearClient
  import opened Framework

  /** A known configuration value replaces the environment's verbatim. */
  function Chosen(attr: Value<string>, env: string): string {
    if attr.Known? then attr.value else env
  }

  /** Configure: the endpoint is checked first and an empty one ends the
      call with a single diagnostic whatever the token; then the token; on
      success one client is stored for both resources and data sources.
      `envEndpoint` and `envToken` are LAB_ENDPOINT and LAB_API_KEY. */
  method Configure(endpointAttr: Value<string>, tokenAttr: Value<string>, envEndpoint: string, envToken: string)
    returns (resp: ConfigureResponse)
    ensures Chosen(endpointAttr, envEndpoint) == "" ==>
              resp == ConfigureResponse(NoProviderData, NoProviderData, [Error("Missing endpoint")])
    ensures Chosen(endpointAttr, envEndpoint) != "" && Chosen(tokenAttr, envToken) == "" ==>
              resp == ConfigureResponse(NoProviderData, NoProviderData, [Error("Missing token")])
    ensures Chosen(endpointAttr, envEndpoint) != "" && Chosen(tokenAttr, envToken) != "" ==>
              resp.diags == [] && resp.resourceData == resp.dataSourceData
              && resp.resourceData == GearData(GearClient.Client(Chosen(endpointAttr, envEndpoint), Chosen(tokenAttr, envToken)))
    ensures endpointAttr.Known? && endpointAttr.value != "" && Chosen(tokenAttr, envToken) != "" ==>
              resp.resourceData.gear.endpoint == endpointAttr.value
  {
    var endpoint := envEndpoint;
    if !endpointAttr.Null? && !endpointAttr.Unknown? {
      endpoint := endpointAttr.value;
    }
    if endpoint == "" {
      return ConfigureResponse(NoProviderData, NoProviderData, [Error("Missing endpoint")]);
    }
    var token := envToken;
    if !tokenAttr.Null? && !tokenAttr.Unknown? {
      token := tokenAttr.value;
    }
    if token == "" {
      return ConfigureResponse(NoProviderData, NoProviderData, [Error("Missing token")]);
    }
    var client := GearClient.Client(endpoint, token);
    resp := ConfigureResponse(GearData(client), GearData(client), []);
  }

  /** Resources registers the machine resource alone. DataSources registers
      nothing, so the machines data source is never offered. */
  const Resources: seq<Factory> := [MachineResourceFactory]
  const DataSources: seq<Factory> := []

  lemma OnlyTheResourceIsRegistered()
    ensures |Resources| == 1 && Resources[0] == MachineResourceFactory
    ensures MachinesDataSourceFactory !in DataSources && |DataSources| == 0
  {
  }
}

/**
  Alert-provider configuration of the server (config/v2/server.go): turning the
  provider names read from the configuration into provider configurations and
  binding them to the server's low and high slots. Reading the names and the
  `pagerduty.*` keys through viper is not modelled; they are parameters.
 */
module ConfigV2 {
  import opened Wrappers

  /** The three `pagerduty.*` configuration keys. */
  datatype PagerDutyConfig = PagerDutyConfig(apiKey: string, integrationKey: string, integrationUrl: string)

  /**
    The dynamic type of an `AlertProviderConfig` interface value: a PagerDuty
    configuration, a KeepHQ configuration, or any other implementation.
   */
  datatype ProviderConfig =
    | PagerDuty(pagerDuty: PagerDutyConfig)
    | KeepHQ
    | OtherProvider(typeName: string)

  /** `AlertProviderType`: the two iota values `pagerDuty` and `keepHQ`. */
  datatype AlertProviderType = PagerDutyType | KeepHQType

  /** `AlertProviderType.String`. */
  function TypeName(t: AlertProviderType): (name: string)
    ensures name == "pagerduty" <==> t == PagerDutyType
    ensures name == "keephq" <==> t == KeepHQType
  {
    match t
    case PagerDutyType => "pagerduty"
    case KeepHQType => "keephq"
  }

  /** `craftAlertProviderConfig`: only PagerDuty can be configured. */
  function CraftAlertProviderConfig(t: AlertProviderType, keys: PagerDutyConfig): (r: Result<ProviderConfig>)
    ensures r.Ok? <==> t == PagerDutyType
    ensures r.Ok? ==> r.value == PagerDuty(keys)
    ensures t == KeepHQType ==> r == Err("keephq provider is not implemented")
  {
    var name := TypeName(t);
    if name == "pagerduty" then Ok(PagerDuty(keys))
    else if name == "keephq" then Err("keephq provider is not implemented")
    else Err("unknown provider")
  }

  /** An error stays an error; a configuration becomes a bound slot. */
  function Bind(c: Result<ProviderConfig>): (r: Result<Option<ProviderConfig>>)
    ensures r.Ok? <==> c.Ok?
    ensures c.Ok? ==> r == Ok(Some(c.value))
    ensures c.Err? ==> r == Err(c.error)
  {
    match c
    case Ok(v) => Ok(Some(v))
    case Err(e) => Err(e)
  }

  /** The switch in one iteration of the provider-name loop, for a name `v`. */
  function ResolveProviderName(v: string, keys: PagerDutyConfig): (r: Result<Option<ProviderConfig>>)
    ensures r.Ok? <==> v == "pagerduty" || v == ""
    ensures v == "" ==> r == Ok(None)
    ensures v == "pagerduty" ==> r == Ok(Some(PagerDuty(keys)))
    ensures v == "keephq" ==> r == Err("keephq provider is not implemented")
    ensures v != "pagerduty" && v != "keephq" && v != "" ==> r == Err("'" + v + "' is an unknown alert provider")
  {
    if v == "pagerduty" then Bind(CraftAlertProviderConfig(PagerDutyType, keys))
    else if v == "keephq" then Bind(CraftAlertProviderConfig(KeepHQType, keys))
    else if v == "" then Ok(None)
    else Err("'" + v + "' is an unknown alert provider")
  }

  /** Configuring KeepHQ for either slot always makes the server configuration fail. */
  lemma KeepHQAlwaysFails(lowName: string, highName: string, keys: PagerDutyConfig)
    requires lowName == "keephq" || highName == "keephq"
    ensures !(ResolveProviderName(lowName, keys).Ok? && ResolveProviderName(highName, keys).Ok?)
  {
  }

  /** The alert-provider part of `ServerConfig`. */
  class Server {
    var lowAlertProvider: Option<ProviderConfig>
    var highAlertProvider: Option<ProviderConfig>

    constructor ()
      ensures lowAlertProvider == None && highAlertProvider == None
    {
      lowAlertProvider := None;
      highAlertProvider := None;
    }

    /**
      The provider-name loop of `CraftServerConfig`. Go visits the map
      {"low", "high"} in an unspecified order, so the loop picks the next key
      nondeterministically; the slots are assigned only after both names
      resolved, and the first error returns before any assignment.
     */
    method CraftAlertProviders(lowName: string, highName: string, keys: PagerDutyConfig) returns (err: Option<string>)
      modifies this
      ensures err.None? <==> ResolveProviderName(lowName, keys).Ok? && ResolveProviderName(highName, keys).Ok?
      ensures err.None? ==> lowAlertProvider == ResolveProviderName(lowName, keys).value
      ensures err.None? ==> highAlertProvider == ResolveProviderName(highName, keys).value
      ensures err.Some? ==> lowAlertProvider == old(lowAlertProvider) && highAlertProvider == old(highAlertProvider)
      ensures err.Some? ==>
        (ResolveProviderName(lowName, keys).Err? && err.value == ResolveProviderName(lowName, keys).error) ||
        (ResolveProviderName(highName, keys).Err? && err.value == ResolveProviderName(highName, keys).error)
    {
      var alertProvidersType := map["low" := lowName, "high" := highName];
      var alertProviders: map<string, Option<ProviderConfig>> := map["low" := None, "high" := None];
      var pending: set<string> := {"low", "high"};
      while pending != {}
        invariant pending <= {"low", "high"}
        invariant "low" in alertProviders && "high" in alertProviders
        invariant "low" !in pending ==>
          ResolveProviderName(lowName, keys).Ok? && alertProviders["low"] == ResolveProviderName(lowName, keys).value
        invariant "high" !in pending ==>
          ResolveProviderName(highName, keys).Ok? && alertProviders["high"] == ResolveProviderName(highName, keys).value
        decreases pending
      {
        var k :| k in pending;
        var resolved := ResolveProviderName(alertProvidersType[k], keys);
        if resolved.Err? {
          return Some(resolved.error);
        }
        alertProviders := alertProviders[k := resolved.value];
        pending := pending - {k};
      }
      lowAlertProvider := alertProviders["low"];
      highAlertProvider := alertProviders["high"];
      err := None;
    }
  }
}

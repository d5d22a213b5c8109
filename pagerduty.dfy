/**
  Event shaping of the PagerDuty alert provider
  (alerting/providers/pagerduty/pagerduty.go). The SDK calls that submit the
  event and list the account's abilities are not modelled: `SendEvent` yields
  the event that would be submitted, and `Ping` takes the abilities call's
  result as a parameter.
 */
module PagerDuty {
  import opened Wrappers
  import ConfigV2

  /** `PagerDutyInstance`; of the SDK client only its presence is kept. */
  datatype Instance = Instance(config: ConfigV2.PagerDutyConfig, hasClient: bool)

  /** The fields of the SDK's `V2Payload` that the provider sets. */
  datatype V2Payload = V2Payload(summary: string, source: string, severity: string, timestamp: string)

  /** The fields of the SDK's `V2Event` that the provider sets. */
  datatype V2Event = V2Event(routingKey: string, action: string, dedupKey: string, payload: V2Payload)

  predicate IsPrefix(p: string, s: string) {
    |p| <= |s| && s[..|p|] == p
  }

  /** The summary `Send` chooses for a category. */
  function Summary(category: string, component: string, severity: string): (summary: string)
    ensures IsPrefix("Deepsentinel - ", summary) <==> category == "machine" || category == "service"
    ensures |summary| >= |component| + |severity|
    ensures summary[|summary| - |severity|..] == severity
  {
    if category == "machine" then
      "Deepsentinel - Machine " + component + " alert level is " + severity
    else if category == "service" then
      "Deepsentinel - Service " + component + " alert level is " + severity
    else
      var s := "Unknown component " + component + " is " + severity;
      assert s[0] == 'U';
      s
  }

  /** The severity translation at the start of `_sendPagerDutyAlert`. */
  function PagerDutySeverity(severity: string): (r: Result<string>)
    ensures r.Ok? <==> severity == "low" || severity == "high"
    ensures r.Ok? ==> (r.value == "warning" <==> severity == "low")
    ensures r.Ok? ==> (r.value == "critical" <==> severity == "high")
    ensures r.Err? ==> r.error == "unknown severity " + severity
  {
    if severity == "low" then Ok("warning")
    else if severity == "high" then Ok("critical")
    else Err("unknown severity " + severity)
  }

  /**
    `Send` followed by the event construction of `_sendPagerDutyAlert`: the event
    it would submit, or the error it returns before building one. The random
    dedup key and the current time are parameters.
   */
  function SendEvent(instance: Instance, category: string, component: string, severity: string,
                     dedupKey: string, timestamp: string): (r: Result<V2Event>)
    ensures r.Err? <==> severity != "low" && severity != "high"
    ensures r.Err? ==> r.error == "unknown severity " + severity
    ensures r.Ok? ==> r.value.routingKey == instance.config.integrationKey
    ensures r.Ok? ==> r.value.action == "trigger" && r.value.dedupKey == dedupKey
    ensures r.Ok? ==> r.value.payload.source == component && r.value.payload.timestamp == timestamp
    ensures r.Ok? ==> r.value.payload.summary == Summary(category, component, severity)
    ensures r.Ok? ==> r.value.payload.severity in {"warning", "critical"}
    ensures r.Ok? ==> (r.value.payload.severity == "warning" <==> severity == "low")
  {
    var summary := Summary(category, component, severity);
    var mapped := PagerDutySeverity(severity);
    if mapped.Err? then Err(mapped.error)
    else
      Ok(V2Event(instance.config.integrationKey, "trigger", dedupKey,
                 V2Payload(summary, component, mapped.value, timestamp)))
  }

  /** An alert of severity "panic" is always refused by this provider. */
  lemma PanicIsRefused(instance: Instance, category: string, component: string, dedupKey: string, timestamp: string)
    ensures SendEvent(instance, category, component, "panic", dedupKey, timestamp) == Err("unknown severity panic")
  {
  }

  /** The checks of `ping` around the abilities call, whose result is `abilities`. */
  function Ping(instance: Option<Instance>, abilities: Result<seq<string>>): (err: Option<string>)
    ensures err.None? <==> instance.Some? && instance.value.hasClient && abilities.Ok? && |abilities.value| > 0
    ensures (instance.None? || !instance.value.hasClient) ==> err == Some("pagerduty: nil")
    ensures instance.Some? && instance.value.hasClient && abilities.Err? ==>
      err == Some("pagerduty list abilities: " + abilities.error)
    ensures instance.Some? && instance.value.hasClient && abilities.Ok? && |abilities.value| == 0 ==>
      err == Some("pagerduty: missing abilities")
  {
    if instance.None? || !instance.value.hasClient then Some("pagerduty: nil")
    else if abilities.Err? then Some("pagerduty list abilities: " + abilities.error)
    else if |abilities.value| <= 0 then Some("pagerduty: missing abilities")
    else None
  }
}

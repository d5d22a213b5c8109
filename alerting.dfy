/**
  Alert routing (alerting/alerting.go): two provider slots, low and high, filled
  once at start-up, and `ServerAlert`, which hands an alert to the slot its
  severity selects. Providers are opaque to the routing; the calls made on them
  are recorded in a ghost trace.
 */
module Alerting {
  import opened Wrappers
  import ConfigV2
  import PagerDuty

  datatype Slot = LowSlot | HighSlot

  /** One call `provider.Send(category, component, severity)`. */
  datatype SendCall<P> = SendCall(provider: P, category: string, component: string, severity: string)

  /** What one `ServerAlert` call does: send on a slot, warn that the slot is empty, or nothing. */
  datatype Dispatch<P> = Sent(slot: Slot, call: SendCall<P>) | NotConfigured(slot: Slot) | Ignored

  /** The slot a severity is routed to: "low" to the low slot, "high" and "panic" to the high slot. */
  function SeveritySlot(severity: string): (r: Option<Slot>)
    ensures r == Some(LowSlot) <==> severity == "low"
    ensures r == Some(HighSlot) <==> severity == "high" || severity == "panic"
  {
    if severity == "low" then Some(LowSlot)
    else if severity == "high" || severity == "panic" then Some(HighSlot)
    else None
  }

  function SlotProvider<P>(low: Option<P>, high: Option<P>, slot: Slot): Option<P> {
    match slot
    case LowSlot => low
    case HighSlot => high
  }

  /**
    `ServerAlert` over the slots `low` and `high`. A send error is logged and
    dropped by the source, so the outcome does not depend on it.
   */
  function Route<P>(low: Option<P>, high: Option<P>, category: string, component: string, severity: string): (d: Dispatch<P>)
    ensures d.Ignored? <==> SeveritySlot(severity).None?
    ensures !d.Ignored? ==> d.slot == SeveritySlot(severity).value
    ensures d.Sent? <==> SeveritySlot(severity).Some? && SlotProvider(low, high, SeveritySlot(severity).value).Some?
    ensures d.Sent? ==> d.call == SendCall(SlotProvider(low, high, d.slot).value, category, component, severity)
  {
    if severity == "low" then
      if low.Some? then Sent(LowSlot, SendCall(low.value, category, component, severity))
      else NotConfigured(LowSlot)
    else if severity == "high" then
      if high.Some? then Sent(HighSlot, SendCall(high.value, category, component, severity))
      else NotConfigured(HighSlot)
    else if severity == "panic" then
      if high.Some? then Sent(HighSlot, SendCall(high.value, category, component, severity))
      else NotConfigured(HighSlot)
    else Ignored
  }

  /** The provider calls a dispatch makes: at most one. */
  function Sends<P>(d: Dispatch<P>): (calls: seq<SendCall<P>>)
    ensures |calls| <= 1
    ensures |calls| == 1 <==> d.Sent?
  {
    if d.Sent? then [d.call] else []
  }

  /** With the low slot empty, a low alert sends nothing (the test's second case). */
  lemma LowAlertWithoutProvider<P>(high: Option<P>, category: string, component: string)
    ensures Sends(Route(None, high, category, component, "low")) == []
  {
  }

  /** A "panic" alert is routed exactly like a "high" one, apart from the severity it carries. */
  lemma PanicRoutesLikeHigh<P>(low: Option<P>, high: Option<P>, category: string, component: string)
    ensures Route(low, high, category, component, "panic").Sent? == Route(low, high, category, component, "high").Sent?
    ensures Route(low, high, category, component, "panic").Sent? ==>
      Route(low, high, category, component, "panic").call.provider == Route(low, high, category, component, "high").call.provider
  {
  }

  /** `craftProvider`: only a PagerDuty configuration yields a provider. */
  function CraftProvider(provider: Option<ConfigV2.ProviderConfig>): (r: Result<Option<PagerDuty.Instance>>)
    ensures provider.None? ==> r == Err("Provider is nil")
    ensures (r.Ok? && r.value.Some?) <==> provider.Some? && provider.value.PagerDuty?
    ensures r.Ok? && r.value.Some? ==> r.value.value.config == provider.value.pagerDuty
    ensures provider == Some(ConfigV2.KeepHQ) ==> r == Ok(None)
    ensures provider.Some? && provider.value.OtherProvider? ==> r == Err("Unknown provider type")
  {
    if provider.Some? then
      if provider.value.PagerDuty? then Ok(Some(NewInstance(provider.value.pagerDuty)))
      else if provider.value.KeepHQ? then Ok(None)
      else Err("Unknown provider type")
    else Err("Provider is nil")
  }

  /** `pagerduty.NewInstance` without its network ping: the SDK client is always created. */
  function NewInstance(config: ConfigV2.PagerDutyConfig): (instance: PagerDuty.Instance)
    ensures instance.config == config && instance.hasClient
  {
    PagerDuty.Instance(config, true)
  }

  /** A "panic" alert routed to a PagerDuty high slot is refused by the provider. */
  lemma PanicNeverReachesPagerDuty(low: Option<PagerDuty.Instance>, high: Option<PagerDuty.Instance>,
                                   category: string, component: string, dedupKey: string, timestamp: string)
    ensures var d := Route(low, high, category, component, "panic");
      d.Sent? ==> PagerDuty.SendEvent(d.call.provider, d.call.category, d.call.component, d.call.severity, dedupKey, timestamp).Err?
  {
  }

  /** The global `Config` of the alerting package. */
  class AlertingConfig {
    var lowAlertProvider: Option<PagerDuty.Instance>
    var highAlertProvider: Option<PagerDuty.Instance>
    /** Every `Send` made so far, in order. */
    ghost var sent: seq<SendCall<PagerDuty.Instance>>

    constructor ()
      ensures lowAlertProvider == None && highAlertProvider == None && sent == []
    {
      lowAlertProvider := None;
      highAlertProvider := None;
      sent := [];
    }

    /**
      `_init`. `lowConfigured` says whether the server configuration has a low
      provider and `lowProvider` is what its `GetProvider` returns (likewise for
      high). A failure to craft the low provider is fatal (`fatal`), one for the
      high provider leaves that slot empty, and `noAlerting` empties both slots.
     */
    method Init(lowConfigured: bool, lowProvider: Option<ConfigV2.ProviderConfig>,
                highConfigured: bool, highProvider: Option<ConfigV2.ProviderConfig>,
                noAlerting: bool) returns (fatal: bool)
      modifies this`lowAlertProvider, this`highAlertProvider
      ensures fatal <==> lowConfigured && CraftProvider(lowProvider).Err?
      ensures !fatal && noAlerting ==> lowAlertProvider == None && highAlertProvider == None
      ensures !fatal && !noAlerting ==>
        lowAlertProvider == (if lowConfigured then CraftProvider(lowProvider).value else None)
      ensures !fatal && !noAlerting ==>
        highAlertProvider == (if highConfigured && CraftProvider(highProvider).Ok? then CraftProvider(highProvider).value else None)
    {
      if lowConfigured {
        var crafted := CraftProvider(lowProvider);
        if crafted.Err? {
          lowAlertProvider := None;
          return true;
        }
        lowAlertProvider := crafted.value;
      } else {
        lowAlertProvider := None;
      }

      if highConfigured {
        var crafted := CraftProvider(highProvider);
        highAlertProvider := if crafted.Ok? then crafted.value else None;
      } else {
        highAlertProvider := None;
      }

      if noAlerting {
        lowAlertProvider := None;
        highAlertProvider := None;
      }
      fatal := false;
    }

    /** `ServerAlert`: performs the dispatch `Route` selects, recording the send it makes. */
    method ServerAlert(category: string, component: string, severity: string)
      modifies this`sent
      ensures sent == old(sent) + Sends(Route(lowAlertProvider, highAlertProvider, category, component, severity))
    {
      if severity == "low" {
        if lowAlertProvider.Some? {
          sent := sent + [SendCall(lowAlertProvider.value, category, component, severity)];
        }
      }
      if severity == "high" {
        if highAlertProvider.Some? {
          sent := sent + [SendCall(highAlertProvider.value, category, component, severity)];
        }
      }
      if severity == "panic" {
        if highAlertProvider.Some? {
          sent := sent + [SendCall(highAlertProvider.value, category, component, severity)];
        }
      }
    }
  }
}

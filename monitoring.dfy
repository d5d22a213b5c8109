/**
  The monitoring engine (monitoring/monitoring.go): the five-level machine
  status ladder a probe climbs on inactivity ticks, the probe object, and the
  registry of probes that the payload handler maintains. Goroutines, channels,
  locks and timers are replaced by sequential method calls: a report is
  delivered to a probe by `Probe.OnReport`, an expired inactivity timer by
  `Probe.TimerIncrement`; time is an abstract integer input.
 */
module Monitoring {
  import opened Wrappers
  import TimeSerie
  import Alerting
  import PagerDuty

  /** `probeStatus`, in `iota` order. */
  datatype ProbeStatus = Normal | Degraded | Failed | AlertedLow | AlertedHigh

  /** The integer value of the status. */
  function Rank(s: ProbeStatus): (r: nat)
    ensures r <= 4
    ensures r == 0 <==> s == Normal
    ensures r == 4 <==> s == AlertedHigh
  {
    match s
    case Normal => 0
    case Degraded => 1
    case Failed => 2
    case AlertedLow => 3
    case AlertedHigh => 4
  }

  /** `probeStatus.String`. */
  function StatusName(s: ProbeStatus): string {
    match s
    case Normal => "normal"
    case Degraded => "degraded"
    case Failed => "failed"
    case AlertedLow => "alertedLow"
    case AlertedHigh => "alertedHigh"
  }

  /** Distinct statuses have distinct names, so a dashboard row identifies the status. */
  lemma StatusNameInjective(a: ProbeStatus, b: ProbeStatus)
    ensures StatusName(a) == StatusName(b) ==> a == b
  {
    if a != b {
      match a
      case Normal => assert StatusName(a)[0] == 'n';
      case Degraded => assert StatusName(a)[0] == 'd';
      case Failed => assert StatusName(a)[0] == 'f';
      case AlertedLow => assert StatusName(a)[7] == 'L';
      case AlertedHigh => assert StatusName(a)[7] == 'H';
    }
  }

  /** `p.status++` in `updateStatus`; it is only ever applied below `alertedHigh`. */
  function Next(s: ProbeStatus): (r: ProbeStatus)
    requires s != AlertedHigh
    ensures Rank(r) == Rank(s) + 1
  {
    match s
    case Normal => Degraded
    case Degraded => Failed
    case Failed => AlertedLow
    case AlertedLow => AlertedHigh
  }

  /** The three statuses in which a tick counts towards a threshold. */
  predicate Counting(s: ProbeStatus) {
    s == Degraded || s == Failed || s == AlertedLow
  }

  /** The server's three escalation thresholds, as configured integers. */
  datatype Thresholds = Thresholds(degradedToFailed: int, failedToAlertedLow: int, alertedLowToAlertedHigh: int)

  /** The threshold the counter is compared with in a counting status. */
  function ThresholdOf(s: ProbeStatus, th: Thresholds): int
    requires Counting(s)
  {
    if s == Degraded then th.degradedToFailed
    else if s == Failed then th.failedToAlertedLow
    else th.alertedLowToAlertedHigh
  }

  /** The machine alert severity sent when leaving a counting status. */
  function StageAlert(s: ProbeStatus): Option<string>
    requires Counting(s)
  {
    if s == Failed then Some("low")
    else if s == AlertedLow then Some("high")
    else None
  }

  /** The part of a probe the ladder acts on. */
  datatype Machine = Machine(status: ProbeStatus, counter: int)

  /** The new state after one tick and the severity of the machine alert it sends, if any. */
  datatype TickStep = TickStep(next: Machine, alert: Option<string>)

  /** `timerIncrement`, with `updateStatus` inlined. */
  function Tick(m: Machine, th: Thresholds): (t: TickStep)
    // a tick raises the level by at most one, and a raise resets the counter
    ensures Rank(t.next.status) == Rank(m.status) ||
      (Rank(t.next.status) == Rank(m.status) + 1 && t.next.counter == 0)
    ensures t.next.status != Normal
    ensures m.status == Normal ==> t == TickStep(Machine(Degraded, 0), None)
    // in a counting status the level rises exactly when the incremented counter reaches the threshold
    ensures Counting(m.status) ==>
      (Rank(t.next.status) > Rank(m.status) <==> m.counter + 1 >= ThresholdOf(m.status, th))
    ensures Counting(m.status) && t.next.status == m.status ==> t.next.counter == m.counter + 1
    // alerts are edge-triggered on the two alerting transitions only
    ensures t.alert == Some("low") <==> m.status == Failed && t.next.status == AlertedLow
    ensures t.alert == Some("high") <==> m.status == AlertedLow && t.next.status == AlertedHigh
    ensures t.alert.None? || t.alert == Some("low") || t.alert == Some("high")
    ensures m.status == AlertedHigh ==> t == TickStep(Machine(AlertedHigh, m.counter + 1), None)
    ensures m.counter >= 0 ==> t.next.counter >= 0
  {
    if m.status == Normal then TickStep(Machine(Degraded, 0), None)
    else if m.status == AlertedHigh then TickStep(Machine(AlertedHigh, m.counter + 1), None)
    else
      var c := m.counter + 1;
      if c >= ThresholdOf(m.status, th) then TickStep(Machine(Next(m.status), 0), StageAlert(m.status))
      else TickStep(Machine(m.status, c), None)
  }

  /** The alerts sent by one tick, as a list. */
  function AlertList(alert: Option<string>): seq<string> {
    if alert.Some? then [alert.value] else []
  }

  /** The state after a run of ticks, and the machine alerts it sent in order. */
  datatype RunResult = RunResult(final: Machine, alerts: seq<string>)

  /** `n` consecutive ticks with no report in between. */
  function Run(m: Machine, th: Thresholds, n: nat): (r: RunResult)
    ensures |r.alerts| <= n
    ensures forall i :: 0 <= i < |r.alerts| ==> r.alerts[i] == "low" || r.alerts[i] == "high"
    decreases n
  {
    if n == 0 then RunResult(m, [])
    else
      var t := Tick(m, th);
      var rest := Run(t.next, th, n - 1);
      RunResult(rest.final, AlertList(t.alert) + rest.alerts)
  }

  /** Running `a` ticks and then `b` ticks is running `a + b` ticks. */
  lemma {:induction false} RunAppend(m: Machine, th: Thresholds, a: nat, b: nat)
    ensures var first := Run(m, th, a);
      var second := Run(first.final, th, b);
      Run(m, th, a + b) == RunResult(second.final, first.alerts + second.alerts)
    decreases a
  {
    if a > 0 {
      var t := Tick(m, th);
      RunAppend(t.next, th, a - 1, b);
      assert a + b - 1 == (a - 1) + b;
    }
  }

  /** While the counter stays below the threshold, ticks in a counting status only count. */
  lemma {:induction false} StageWait(s: ProbeStatus, c: int, j: nat, th: Thresholds)
    requires Counting(s)
    requires j == 0 || c + j < ThresholdOf(s, th)
    ensures Run(Machine(s, c), th, j) == RunResult(Machine(s, c + j), [])
    decreases j
  {
    if j > 0 {
      assert Tick(Machine(s, c), th) == TickStep(Machine(s, c + 1), None);
      if j > 1 {
        StageWait(s, c + 1, j - 1, th);
      }
    }
  }

  /** The ticks a counting status lasts from a zero counter: its threshold, at least one. */
  function Steps(threshold: int): (n: nat)
    ensures n >= 1 && n >= threshold
  {
    if threshold < 1 then 1 else threshold
  }

  /** From a zero counter, a counting status is left after exactly `Steps` ticks. */
  lemma StageComplete(s: ProbeStatus, th: Thresholds)
    requires Counting(s)
    ensures Run(Machine(s, 0), th, Steps(ThresholdOf(s, th))) == RunResult(Machine(Next(s), 0), AlertList(StageAlert(s)))
  {
    var k := Steps(ThresholdOf(s, th)) - 1;
    StageWait(s, 0, k, th);
    RunAppend(Machine(s, 0), th, k, 1);
  }

  /** The state of a probe as `makeProbe` builds it or a report leaves it. */
  const Fresh := Machine(Normal, 0)

  /**
    From a fresh probe, `1 + Steps(D) + Steps(F)` ticks reach `alertedLow` having
    sent exactly one machine alert, of severity low.
   */
  lemma EscalationReachesAlertedLow(th: Thresholds)
    ensures Run(Fresh, th, 1 + Steps(th.degradedToFailed) + Steps(th.failedToAlertedLow)) ==
      RunResult(Machine(AlertedLow, 0), ["low"])
  {
    var a := Steps(th.degradedToFailed);
    var b := Steps(th.failedToAlertedLow);
    RunAppend(Fresh, th, 1, a + b);
    RunAppend(Machine(Degraded, 0), th, a, b);
    StageComplete(Degraded, th);
    StageComplete(Failed, th);
  }

  /** Fewer ticks leave the probe below `alertedLow` with no alert sent. */
  lemma EscalationBeforeAlertedLow(th: Thresholds, n: nat)
    requires n < 1 + Steps(th.degradedToFailed) + Steps(th.failedToAlertedLow)
    ensures Run(Fresh, th, n).alerts == []
    ensures Rank(Run(Fresh, th, n).final.status) <= 2
  {
    var a := Steps(th.degradedToFailed);
    if n > 0 {
      RunAppend(Fresh, th, 1, n - 1);
      if n <= a {
        StageWait(Degraded, 0, n - 1, th);
      } else {
        RunAppend(Machine(Degraded, 0), th, a, n - 1 - a);
        StageComplete(Degraded, th);
        StageWait(Failed, 0, n - 1 - a, th);
      }
    }
  }

  /** `Steps(H)` more ticks reach `alertedHigh`, after one low and then one high alert. */
  lemma EscalationReachesAlertedHigh(th: Thresholds)
    ensures var n := 1 + Steps(th.degradedToFailed) + Steps(th.failedToAlertedLow) + Steps(th.alertedLowToAlertedHigh);
      Run(Fresh, th, n) == RunResult(Machine(AlertedHigh, 0), ["low", "high"])
  {
    var n := 1 + Steps(th.degradedToFailed) + Steps(th.failedToAlertedLow);
    EscalationReachesAlertedLow(th);
    RunAppend(Fresh, th, n, Steps(th.alertedLowToAlertedHigh));
    StageComplete(AlertedLow, th);
  }

  /** In `alertedHigh` ticks only count: the status stays and nothing more is sent. */
  lemma {:induction false} AlertedHighStaysQuiet(c: int, n: nat, th: Thresholds)
    ensures Run(Machine(AlertedHigh, c), th, n) == RunResult(Machine(AlertedHigh, c + n), [])
    decreases n
  {
    if n > 0 {
      AlertedHighStaysQuiet(c + 1, n - 1, th);
    }
  }

  /** `Payload`: a report from the API server; `"delete"` as machine status is the deletion marker. */
  datatype Payload = Payload(machineStatus: string, services: map<string, string>, timestamp: int, machine: string)

  /** The sends `ServerAlert("machine", name, severity)` makes for a tick's alert, given the provider slots. */
  function MachineAlertSends(low: Option<PagerDuty.Instance>, high: Option<PagerDuty.Instance>,
                             name: string, alert: Option<string>): (calls: seq<Alerting.SendCall<PagerDuty.Instance>>)
    ensures alert.None? ==> calls == []
    ensures |calls| <= 1
    ensures forall i :: 0 <= i < |calls| ==>
      calls[i].category == "machine" && calls[i].component == name && Some(calls[i].severity) == alert
  {
    if alert.Some? then Alerting.Sends(Alerting.Route(low, high, "machine", name, alert.value)) else []
  }

  /** `probeObject` without its channels and mutex. */
  class Probe {
    const name: string
    var status: ProbeStatus
    var counter: int
    /** The abstract time of the last report. */
    var lastNormal: int
    const timeSerie: TimeSerie.TimeSerie

    function State(): Machine
      reads this
    {
      Machine(status, counter)
    }

    /** `makeProbe`: a probe for the report's machine with a one-node series. */
    constructor (origin: Payload, now: int)
      ensures name == origin.machine && status == Normal && counter == 0 && lastNormal == now
      ensures fresh(timeSerie)
      ensures timeSerie.chain == [TimeSerie.TimeSerieNode(origin.timestamp, map[])] && timeSerie.size == 1
    {
      name := origin.machine;
      status := Normal;
      counter := 0;
      lastNormal := now;
      timeSerie := new TimeSerie.TimeSerie(origin.timestamp);
    }

    /** `updateStatus`: one level up with a zero counter. */
    method UpdateStatus()
      requires status != AlertedHigh
      modifies this`status, this`counter
      ensures status == Next(old(status)) && counter == 0
    {
      status := Next(status);
      counter := 0;
    }

    /** `reset`: back to `normal` at time `now`. */
    method Reset(now: int)
      modifies this`status, this`counter, this`lastNormal
      ensures status == Normal && counter == 0 && lastNormal == now
    {
      status := Normal;
      counter := 0;
      lastNormal := now;
    }

    /** `timerIncrement`: the inactivity-timer branch of `work`. */
    method TimerIncrement(th: Thresholds, alerting: Alerting.AlertingConfig)
      modifies this`status, this`counter, alerting`sent
      ensures State() == Tick(old(State()), th).next
      ensures alerting.sent == old(alerting.sent) +
        MachineAlertSends(alerting.lowAlertProvider, alerting.highAlertProvider, name, Tick(old(State()), th).alert)
    {
      match status
      case Normal =>
        UpdateStatus();
      case Degraded =>
        counter := counter + 1;
        if counter >= th.degradedToFailed {
          UpdateStatus();
        }
      case Failed =>
        counter := counter + 1;
        if counter >= th.failedToAlertedLow {
          UpdateStatus();
          alerting.ServerAlert("machine", name, "low");
        }
      case AlertedLow =>
        counter := counter + 1;
        if counter >= th.alertedLowToAlertedHigh {
          UpdateStatus();
          alerting.ServerAlert("machine", name, "high");
        }
      case AlertedHigh =>
        counter := counter + 1;
    }

    /**
      The report branch of `work`. A report for another machine is fatal and
      changes nothing; otherwise the probe returns to `normal`.
     */
    method OnReport(p: Payload, now: int) returns (fatal: bool)
      modifies this`status, this`counter, this`lastNormal
      ensures fatal <==> p.machine != name
      ensures fatal ==> unchanged(this)
      ensures !fatal ==> status == Normal && counter == 0 && lastNormal == now
    {
      if p.machine != name {
        return true;
      }
      // workServices(p) is not part of this model
      Reset(now);
      return false;
    }
  }

  /** Every element of the sequence occurs once. */
  predicate NoDuplicates(s: seq<string>) {
    forall i, j :: 0 <= i < j < |s| ==> s[i] != s[j]
  }

  /** The sequence without the first occurrence of `x`. */
  function RemoveFirst(s: seq<string>, x: string): (r: seq<string>)
    ensures x !in s ==> r == s
    ensures x in s ==> |r| == |s| - 1
    ensures forall y :: y != x ==> (y in r <==> y in s)
  {
    if |s| == 0 then []
    else if s[0] == x then s[1..]
    else [s[0]] + RemoveFirst(s[1..], x)
  }

  /** Without duplicates, removing the first occurrence removes every occurrence and keeps the rest unique. */
  lemma {:induction false} RemoveFirstNoDuplicates(s: seq<string>, x: string)
    requires NoDuplicates(s)
    ensures NoDuplicates(RemoveFirst(s, x)) && x !in RemoveFirst(s, x)
    decreases |s|
  {
    if |s| > 0 {
      assert NoDuplicates(s[1..]) by {
        forall i, j | 0 <= i < j < |s[1..]|
          ensures s[1..][i] != s[1..][j]
        {
          assert s[1..][i] == s[i + 1] && s[1..][j] == s[j + 1];
        }
      }
      if s[0] == x {
        assert forall i :: 0 <= i < |s[1..]| ==> s[1..][i] == s[i + 1];
      } else {
        RemoveFirstNoDuplicates(s[1..], x);
        var rest := RemoveFirst(s[1..], x);
        assert s[0] !in rest;
        assert forall i :: 0 < i < |[s[0]] + rest| ==> ([s[0]] + rest)[i] == rest[i - 1];
      }
    }
  }

  /** Removing the first occurrence, located at index `i`, splices it out. */
  lemma {:induction false} RemoveFirstAt(s: seq<string>, x: string, i: nat)
    requires i < |s| && s[i] == x && x !in s[..i]
    ensures RemoveFirst(s, x) == s[..i] + s[i + 1..]
    decreases i
  {
    if i > 0 {
      assert s[0] == s[..i][0];
      assert s[1..][..i - 1] == s[1..i];
      assert forall y :: y in s[1..i] ==> y in s[..i];
      RemoveFirstAt(s[1..], x, i - 1);
      assert s[1..][i..] == s[i + 1..];
      assert s[..i] == [s[0]] + s[1..i];
    }
  }

  /** The splice loop for a deleted machine in `Handle`. */
  method RemoveName(list: seq<string>, name: string) returns (r: seq<string>)
    ensures r == RemoveFirst(list, name)
  {
    var i := 0;
    while i < |list|
      invariant 0 <= i <= |list|
      invariant name !in list[..i]
    {
      if list[i] == name {
        RemoveFirstAt(list, name, i);
        return list[..i] + list[i + 1..];
      }
      assert list[..i + 1] == list[..i] + [list[i]];
      i := i + 1;
    }
    assert list[..i] == list;
    return list;
  }

  /** One entry of a dashboard snapshot: a probe's name and status text. */
  datatype DashboardProbe = DashboardProbe(name: string, status: string)

  /** What `Handle` did with a report. */
  datatype Routing = Created | Forwarded | Deleted

  /** The bookkeeping of `Handle`: the ordered `probeList` and the name-to-probe map. */
  class Registry {
    var probeList: seq<string>
    var probeMap: map<string, Probe>

    /** The list holds each registered name once, and each probe is registered under its own name. */
    ghost predicate Valid()
      reads this
    {
      NoDuplicates(probeList)
      && (forall name :: name in probeList <==> name in probeMap)
      && (forall name :: name in probeMap ==> probeMap[name].name == name)
    }

    constructor ()
      ensures Valid() && probeList == [] && probeMap == map[]
    {
      probeList := [];
      probeMap := map[];
    }

    /**
      The payload branch of `Handle`. An unregistered machine gets a new probe,
      even for a deletion marker; a registered one is deleted on the marker and
      otherwise receives the report.
     */
    method HandleReport(p: Payload, now: int) returns (routing: Routing)
      requires Valid()
      modifies this, if p.machine in probeMap then {probeMap[p.machine]} else {}
      ensures Valid()
      ensures routing == Created <==> p.machine !in old(probeMap)
      ensures routing == Deleted <==> p.machine in old(probeMap) && p.machineStatus == "delete"
      ensures routing == Created ==>
        probeList == old(probeList) + [p.machine] && p.machine in probeMap &&
        fresh(probeMap[p.machine]) && probeMap == old(probeMap)[p.machine := probeMap[p.machine]]
      ensures routing == Deleted ==>
        probeList == RemoveFirst(old(probeList), p.machine) && probeMap == old(probeMap) - {p.machine}
      ensures routing == Forwarded ==> probeList == old(probeList) && probeMap == old(probeMap)
      ensures routing != Deleted ==>
        p.machine in probeMap && probeMap[p.machine].State() == Fresh && probeMap[p.machine].lastNormal == now
      ensures routing == Created ==>
        probeMap[p.machine].timeSerie.chain == [TimeSerie.TimeSerieNode(p.timestamp, map[])] &&
        probeMap[p.machine].timeSerie.size == 1
    {
      if p.machine in probeMap {
        var probe := probeMap[p.machine];
        if p.machineStatus == "delete" {
          RemoveFirstNoDuplicates(probeList, p.machine);
          probeList := RemoveName(probeList, p.machine);
          // probe.delete() stops the probe's worker; channels are not part of this model
          probeMap := probeMap - {p.machine};
          return Deleted;
        }
        var fatal := probe.OnReport(p, now);
        return Forwarded;
      }
      var probe := new Probe(p, now);
      probeMap := probeMap[p.machine := probe];
      probeList := probeList + [p.machine];
      var fatal := probe.OnReport(p, now);
      return Created;
    }

    /** The snapshot rows for `names`, in order, skipping names that are not registered. */
    function Rows(names: seq<string>): (rows: seq<DashboardProbe>)
      reads this, probeMap.Values
      ensures |rows| <= |names|
    {
      if |names| == 0 then []
      else
        var name := names[|names| - 1];
        Rows(names[..|names| - 1]) +
          (if name in probeMap then [DashboardProbe(probeMap[name].name, StatusName(probeMap[name].status))] else [])
    }

    /** For registered names, the snapshot has one row per name, carrying its status text. */
    lemma {:induction false} RowsOfRegistered(names: seq<string>)
      requires forall name :: name in names ==> name in probeMap && probeMap[name].name == name
      ensures |Rows(names)| == |names|
      ensures forall i :: 0 <= i < |names| ==>
        Rows(names)[i] == DashboardProbe(names[i], StatusName(probeMap[names[i]].status))
    {
      if |names| > 0 {
        var init := names[..|names| - 1];
        assert forall name :: name in init ==> name in names;
        RowsOfRegistered(init);
      }
    }

    /** The timer branch of `Handle`: nothing without a dashboard, else one row per listed probe. */
    method Snapshot(hasDashboard: bool) returns (data: Option<seq<DashboardProbe>>)
      ensures !hasDashboard ==> data == None
      ensures hasDashboard ==> data == Some(Rows(probeList))
    {
      if !hasDashboard {
        return None;
      }
      var probes := [];
      var i := 0;
      while i < |probeList|
        invariant 0 <= i <= |probeList|
        invariant probes == Rows(probeList[..i])
      {
        var name := probeList[i];
        assert probeList[..i + 1][..i] == probeList[..i];
        if name in probeMap {
          var probe := probeMap[name];
          probes := probes + [DashboardProbe(probe.name, StatusName(probe.status))];
        }
        i := i + 1;
      }
      assert probeList[..i] == probeList;
      return Some(probes);
    }

    /** With the registry valid, the snapshot lists every probe of `probeList` in order. */
    lemma SnapshotListsEveryProbe()
      requires Valid()
      ensures |Rows(probeList)| == |probeList|
      ensures forall i :: 0 <= i < |probeList| ==>
        Rows(probeList)[i] == DashboardProbe(probeList[i], StatusName(probeMap[probeList[i]].status))
    {
      RowsOfRegistered(probeList);
    }
  }
}

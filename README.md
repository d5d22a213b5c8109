# deepsentinel core in Dafny

This project models the core of deepsentinel, a small monitoring system. Agents on
the monitored machines send periodic reports to a server. For every machine the
server keeps a probe that climbs a five-level status ladder while reports stay
away:

- `normal`
- `degraded`
- `failed`
- `alertedLow`
- `alertedHigh`

The probe sends a low and then a high machine alert through the configured alert
providers. It also keeps a time series of service observations, which it trims.
Around that engine, the project models:

- the server's alert routing;
- the PagerDuty provider's event shaping;
- the resolution of alert-provider names in the server configuration;
- the agent's local control-message protocol between the CLI and the daemon;
- the live configuration setters;
- the string-cleaning helper.

Modules, one per source package or file:

- `Monitoring` (monitoring.dfy): the status ladder as a pure tick function
  `Tick` and its iteration `Run`, with the escalation lemmas. It also holds the
  class `Probe`, with `status`, `counter` and `lastNormal` fields and the report
  and tick events, and the class `Registry`, which holds the ordered
  `probeList`, the name-to-probe map, report routing and the dashboard snapshot.
- `TimeSerie` (timeserie.dfy): the newest-first node chain as a sequence, with
  `chain[0]` the head. It holds the scanning and cutting `Trim` method and the
  specification `PlanTrim` it is proved against.
- `Alerting` (alerting.dfy): `ServerAlert` routing as the pure `Route`, and the
  class `AlertingConfig`. That class's `Init` (the source's `_init`) fills the
  two provider slots, and its `ServerAlert` records each `Send` in a ghost
  trace.
- `PagerDuty` (pagerduty.dfy): covers the summary text, the severity mapping,
  the event fields and the checks of `ping`.
- `ConfigV2` (config_v2.dfy): covers `craftAlertProviderConfig` and the
  provider-name loop of `CraftServerConfig`.
- `Agent` (agent.dfy): covers message parsing (`processRequest`), the daemon's
  dispatch (`handleRequest`), `testIPCSocket` and `DoConfigInstruction`. It also
  proves the encoder/decoder round trip.
- `Config` (config_live.dfy): the agent and client setters as classes, specified
  by pure functions.
- `GoStrings`, `Utils`, `Wrappers`: Go's `strings.Split`/`strings.Join` on one
  separator, `CleanString`, and `Option`/`Result`.

Go's concurrency is replaced by sequential calls:

- A report delivered to a probe is a call of `Probe.OnReport`.
- An expired inactivity timer is a call of `Probe.TimerIncrement`.
- A payload taken from the server's channel is a call of
  `Registry.HandleReport`.
- The five-second dashboard timer is a call of `Registry.Snapshot`.

Time is an abstract integer. A `log.Fatal` is modelled as a returned `fatal`
flag, with the state left as it was at that point.

Where the code and the intended behaviour disagree, the model follows the
code:

- The intended behaviour is for a fresh probe to reach `alertedLow` after D + F
  missed reports. The code needs 1 + D + F ticks when both thresholds are at least 1,
  because the first tick only moves `normal` to `degraded`
  (`EscalationReachesAlertedLow`). A threshold below 1 counts as 1.
- The intended invariant is that the time series `size` equals the number of
  reachable nodes. After a cut at the first non-pass node at index k < 100, the
  code keeps k + 1 nodes but sets `size` to k (`TrimSizeAgainstKept`,
  `TrimSizeOffByOne`).
- The comment before the `trimToNode` call in `trimTimeSerie` speaks of the
  last 10 nodes, and so does `trimToNode`'s log message. The code keeps
  `trimTimeSeriesThreshold` = 100 (`TrimAtThreshold`).
- When the first non-pass node is at index 100, the 100 newest nodes stay. That
  node and everything older are dropped. When the first non-pass node is beyond
  index 100, or there is none, the series collapses to its head
  (`TrimAllPass`).

## Model

| member | source | states |
|---|---|---|
| Monitoring.Rank | monitoring/monitoring.go:15-23 | the `iota` value of a status lies in 0..4; 0 is exactly `normal` and 4 exactly `alertedHigh` |
| Monitoring.StatusName | monitoring/monitoring.go:25-34 | `probeStatus.String()`; it has no contract of its own, and `StatusNameInjective` states that the five texts are distinct |
| Monitoring.StatusNameInjective | monitoring/monitoring.go:25-34 | the five status names are pairwise distinct, so a name identifies its status |
| Monitoring.Next | monitoring/monitoring.go:217 | `status++` raises the status value by exactly one |
| Monitoring.Tick | monitoring/monitoring.go:175-205 | one tick raises the level by at most one, and every raise resets the counter to 0; the level never goes back to `normal`, and `normal` always goes to `degraded` with counter 0; in `degraded`, `failed` or `alertedLow` the level rises exactly when the incremented counter reaches that state's threshold, and otherwise the counter grows by one; a low alert is sent exactly on `failed`→`alertedLow` and a high one exactly on `alertedLow`→`alertedHigh`; `alertedHigh` only counts; a non-negative counter stays non-negative |
| Monitoring.Run | monitoring/monitoring.go:175-205 | n ticks send at most n alerts, each of severity low or high |
| Monitoring.RunAppend | monitoring/monitoring.go:175-205 | running a + b ticks is running a ticks and then b more, with the alert lists concatenated |
| Monitoring.StageWait | monitoring/monitoring.go:179-198 | while the counter stays below the threshold, ticks in a counting status only increment the counter and send nothing |
| Monitoring.Steps | monitoring/monitoring.go:181 | a counting status lasts at least one tick and at least its threshold |
| Monitoring.StageComplete | monitoring/monitoring.go:179-198 | from a zero counter, a counting status is left after exactly `Steps(threshold)` ticks, with the counter reset and that stage's alert sent |
| Monitoring.EscalationReachesAlertedLow | monitoring/monitoring.go:175-198 | from a fresh probe (`normal`, 0), 1 + Steps(D) + Steps(F) ticks reach `alertedLow` with counter 0, having sent exactly one alert, of severity low |
| Monitoring.EscalationBeforeAlertedLow | monitoring/monitoring.go:175-198 | fewer ticks than that leave a fresh probe at `failed` or below, with no alert sent |
| Monitoring.EscalationReachesAlertedHigh | monitoring/monitoring.go:175-198 | Steps(H) further ticks reach `alertedHigh`, with the alerts low then high |
| Monitoring.AlertedHighStaysQuiet | monitoring/monitoring.go:199-203 | any number of ticks in `alertedHigh` keep that status, only increment the counter and send nothing |
| Monitoring.MachineAlertSends | monitoring/monitoring.go:189 | a tick's alert becomes at most one `Send` of category "machine" for the probe's name with the tick's severity; no alert, no send |
| Monitoring.Probe.constructor | monitoring/monitoring.go:236-253 | `makeProbe`: the name is the payload's machine, the status is `normal`, the counter is 0 and `lastNormal` is now; the time series is fresh, with size 1 and one head node carrying the payload's timestamp, no services and no previous node |
| Monitoring.Probe.UpdateStatus | monitoring/monitoring.go:216-225 | the status moves one level up and the counter becomes 0 |
| Monitoring.Probe.Reset | monitoring/monitoring.go:207-214 | the probe is `normal` with counter 0 and `lastNormal` set to now, whatever its prior state |
| Monitoring.Probe.TimerIncrement | monitoring/monitoring.go:166-205 | the probe's status and counter become those `Tick` gives, and the alerting trace grows by exactly the machine alert `Tick` sends, routed by `ServerAlert` |
| Monitoring.Probe.OnReport | monitoring/monitoring.go:149-165 | a report for another machine is fatal and changes nothing; otherwise the probe ends `normal` with counter 0 and `lastNormal` = now |
| Monitoring.RemoveFirst | monitoring/monitoring.go:95-100 | removing the first occurrence of a name shortens the list by one if the name occurs, and otherwise leaves it unchanged; membership of every other name is kept |
| Monitoring.RemoveFirstNoDuplicates | monitoring/monitoring.go:95-100 | on a duplicate-free list, the removal leaves the list duplicate-free and without the name |
| Monitoring.RemoveFirstAt | monitoring/monitoring.go:96-97 | when the first occurrence is at index i, the removal is the splice `list[:i] + list[i+1:]` |
| Monitoring.RemoveName | monitoring/monitoring.go:95-100 | the splice loop removes exactly the first occurrence of the name |
| Monitoring.Registry.constructor | monitoring/monitoring.go:58-59 | the registry starts with an empty list and an empty map, and is valid |
| Monitoring.Registry.HandleReport | monitoring/monitoring.go:89-134 | the step keeps the registry invariant: the list has no duplicates, list and map keys agree, and each probe is stored under its name. An unregistered name, even with the "delete" marker, creates a fresh probe and appends the name to the list exactly once. A "delete" for a registered name removes it from both list and map. Any other report leaves list and map unchanged and resets the probe, as does a creation. The new probe's series is one node holding the report's timestamp, with size 1 |
| Monitoring.Registry.Rows | monitoring/monitoring.go:73-84 | a snapshot has at most one row per listed name |
| Monitoring.Registry.RowsOfRegistered | monitoring/monitoring.go:73-84 | for registered names, the snapshot has exactly one row per name, in order, with that probe's status text |
| Monitoring.Registry.Snapshot | monitoring/monitoring.go:64-88 | without a dashboard nothing is produced; otherwise the rows of `probeList` in list order, each carrying `{name, status.String()}` |
| Monitoring.Registry.SnapshotListsEveryProbe | monitoring/monitoring.go:64-88 | in a valid registry the snapshot lists every probe of `probeList`, in list order, with its status name |
| TimeSerie.FirstNonPass | monitoring/timeserie_trim.go:19-34 | the position of the newest node with a non-pass service: all newer nodes pass, and the node there does not |
| TimeSerie.PlanTrim | monitoring/timeserie_trim.go:36-55 | the branch choice of `trimTimeSerie`; it has no contract of its own. `TrimKeepsHead`, `TrimAllPass`, `TrimAtThreshold`, `TrimAtFirstFailure` and `TrimSizeAgainstKept` state what it keeps, and `Trim` is proved to follow it |
| TimeSerie.TrimKeepsHead | monitoring/timeserie_trim.go:58-90 | every trim keeps at least the head node and never more nodes than there are |
| TimeSerie.TrimAllPass | monitoring/timeserie_trim.go:16-38 | the series collapses to its head with size 1 if and only if the newest min(n, 101) nodes contain only pass services (an empty services map passes) |
| TimeSerie.TrimAtThreshold | monitoring/timeserie_trim.go:39-42 | when the first non-pass node is at index 100, exactly the 100 newest nodes remain and size is 100 |
| TimeSerie.TrimAtFirstFailure | monitoring/timeserie_trim.go:43-46 | when the first non-pass node is at index k < 100, nodes 0..k remain and size is k |
| TimeSerie.TrimSizeAgainstKept | monitoring/timeserie_trim.go:36-46 | `size` equals the retained node count after the first two kinds of trim and is one lower after the cut at the first non-pass node |
| TimeSerie.TrimSizeOffByOne | monitoring/timeserie_trim.go:82-85 | a two-node chain whose older node fails keeps both nodes with size 1 |
| TimeSerie.TimeSerie.constructor | monitoring/monitoring.go:244-251 | the series of a new probe: one node, the payload's timestamp, no services, size 1 |
| TimeSerie.TimeSerie.NodeAllPass | monitoring/timeserie_trim.go:20-25 | the loop over a node's services finds a non-pass service exactly when the node is not all-pass |
| TimeSerie.TimeSerie.Trim | monitoring/timeserie_trim.go:7-56 | the chain becomes the prefix of the old chain that `PlanTrim` keeps, so retained nodes keep their order and contents and the last one has no predecessor; `size` becomes the planned size; the trim-to-empty branch is unreachable with a head |
| TimeSerie.TimeSerie.TrimToLastNode | monitoring/timeserie_trim.go:58-66 | only the head remains and size is 1 |
| TimeSerie.TimeSerie.TrimToNode | monitoring/timeserie_trim.go:68-80 | the walk of count - 1 links keeps exactly the count newest nodes, and size becomes 100 |
| TimeSerie.TimeSerie.TrimToGivenNode | monitoring/timeserie_trim.go:82-90 | the chain is cut after the given node and size becomes the given count |
| Alerting.SeveritySlot | alerting/alerting.go:86-120 | "low" selects the low slot, "high" and "panic" the high slot, and any other severity none |
| Alerting.Route | alerting/alerting.go:83-121 | a known severity sends on its slot exactly when that slot is set, passing the slot's provider with category, component and severity unchanged; an unset slot sends nothing; any other severity is ignored |
| Alerting.Sends | alerting/alerting.go:83-121 | every call makes at most one `Send`, and makes one exactly when it is dispatched |
| Alerting.LowAlertWithoutProvider | alerting/alerting_test.go:19-29 | a low alert with no low provider sends nothing |
| Alerting.PanicRoutesLikeHigh | alerting/alerting.go:98-120 | "panic" is sent exactly when "high" would be, to the same provider |
| Alerting.CraftProvider | alerting/alerting.go:65-81 | nil is the error "Provider is nil"; a PagerDuty configuration, and only one, gives a provider built from it; KeepHQ gives no provider and no error; any other type gives "Unknown provider type" |
| Alerting.NewInstance | alerting/providers/pagerduty/pagerduty.go:28-44 | the instance keeps the configuration and has a client |
| Alerting.PanicNeverReachesPagerDuty | alerting/providers/pagerduty/pagerduty.go:62-68 | a "panic" alert routed to a PagerDuty provider is refused by that provider |
| Alerting.AlertingConfig.Init | alerting/alerting.go:36-63 | a low craft error, and only that, is fatal; a high craft error leaves the high slot empty; an absent configuration leaves its slot empty; `noAlerting` empties both slots; otherwise each slot holds its crafted provider |
| Alerting.AlertingConfig.ServerAlert | alerting/alerting.go:83-121 | the send trace grows by exactly the sends `Route` selects |
| PagerDuty.Summary | alerting/providers/pagerduty/pagerduty.go:47-57 | the summary starts "Deepsentinel - " exactly for the categories "machine" and "service", and always ends with the severity |
| PagerDuty.PagerDutySeverity | alerting/providers/pagerduty/pagerduty.go:62-68 | "low" maps to "warning" and "high" to "critical"; any other severity is the error "unknown severity <s>" |
| PagerDuty.SendEvent | alerting/providers/pagerduty/pagerduty.go:47-81 | an unknown severity fails before any event is built; otherwise the routing key is the integration key, the action is "trigger", the source is the component, the summary is the chosen one and the severity is the mapped one |
| PagerDuty.PanicIsRefused | alerting/providers/pagerduty/pagerduty.go:62-68 | "panic" yields the error "unknown severity panic" |
| PagerDuty.Ping | alerting/providers/pagerduty/pagerduty.go:104-119 | ping succeeds exactly with a client and a non-empty ability list; a nil instance or client gives "pagerduty: nil", a failed call gives "pagerduty list abilities: …", and an empty list gives "pagerduty: missing abilities" |
| ConfigV2.TypeName | config/v2/alert_provider.go:16-18 | the type names are "pagerduty" and "keephq", one per type |
| ConfigV2.CraftAlertProviderConfig | config/v2/server.go:33-46 | only PagerDuty succeeds, with the three configured keys; KeepHQ is "keephq provider is not implemented" |
| ConfigV2.Bind | config/v2/server.go:72-80 | a crafted configuration fills the slot with exactly that configuration; an error stays the same error |
| ConfigV2.ResolveProviderName | config/v2/server.go:70-85 | a name resolves exactly when it is "pagerduty" or ""; "" leaves the slot empty; "keephq" fails as not implemented; any other name v is "'v' is an unknown alert provider" |
| ConfigV2.KeepHQAlwaysFails | config/v2/server.go:76-80 | configuring keephq for either slot makes the configuration fail |
| ConfigV2.Server.CraftAlertProviders | config/v2/server.go:67-90 | in either map-iteration order: success exactly when both names resolve, and then both slots are assigned their resolution; on an error that error is one of the two names' errors, and neither slot changes |
| Agent.LookupInstruction | agent/config.go:17-21 | `instructionMap` has exactly the keys server-address, auth-token and machine-name |
| Agent.ParseRequest | agent/ipc.go:105-108 | the instruction is the text before the first `=`; an unknown name is reported as unknown; a known name with no `=` is the out-of-range index; a call carries at least one argument |
| Agent.SplitCountsSeparator | agent/ipc.go:105-108 | a message splits into more than one part exactly when it contains `=` |
| Agent.ConfigMessage | agent/config.go:28-32 | the message `DoConfigInstruction` builds; it has no contract of its own. `ConfigMessageRoundTrip`, `ConfigMessageNoArguments` and `UnregisterStopsDaemon` state what it carries, and `DoConfigInstruction` sends it |
| Agent.JoinAvoids | agent/config.go:31 | joining arguments that avoid a character other than the separator avoids it too |
| Agent.ConfigMessageRoundTrip | agent/ipc.go:105-113 | decoding `instr=join(args, ",")` for a known instruction and a non-empty list of arguments free of `,` and `=` calls that instruction's handler with exactly those arguments |
| Agent.ConfigMessageNoArguments | agent/config.go:31 | an instruction sent with no arguments arrives with one empty argument |
| Agent.ParseDropsAfterSecondEquals | agent/ipc.go:105-108 | everything after a second `=` is lost |
| Agent.RunHandler | agent/ipc.go:113 | the handler changes the agent configuration and reports the error as its setter does |
| Agent.ProcessRequest | agent/ipc.go:97-120 | an unknown instruction fails with "unknown instruction: <name>" and a missing `=` panics, both without any change; a call applies the setter, answering "ok" on success and its error otherwise |
| Agent.Daemon.HandleRequest | agent/ipc.go:63-95 | a failed read writes nothing and changes nothing; "ping" replies "pong" and changes nothing; "stop" raises the stop flag and replies "ok"; any other message is processed, and writes nothing on error, crashes on the missing `=`, and replies "ok" on success |
| Agent.TestIpcSocket | agent/ipc.go:122-135 | the socket test succeeds exactly when the daemon replies "pong" |
| Agent.DoConfigInstruction | agent/config.go:24-52 | the message is applied locally, returning no error, exactly when the daemon is unreachable by refusal or a missing socket and the instruction is not "unregister". The message is sent exactly when the ping succeeded. Success comes from the local path, or from a live daemon answering "ok". Other failures give the "failed to start IPC client", "failed to send instruction to daemon" or "unexpected response from daemon" errors |
| Agent.UnregisterStopsDaemon | agent/config.go:28-29 | "unregister" is sent as "stop" |
| Config.ArgCountError | config/agent_live_change.go:12-16 | exactly one argument passes; none gives the setter's own message; two or more give "too many arguments" |
| Config.AgentSet | config/agent_live_change.go:6-69 | the error is the argument-count error; on error nothing changes; otherwise the targeted field holds the argument and every other field is unchanged |
| Config.AgentSetIdempotent | config/agent_live_change.go:18-22 | applying a setter twice equals applying it once |
| Config.AgentConfig.SetServerAddress | config/agent_live_change.go:6-25 | `AgentSetServerAddress` changes the settings and returns the error exactly as `AgentSet` on the server address says ("missing address") |
| Config.AgentConfig.SetAuthToken | config/agent_live_change.go:28-47 | `AgentSetAuthToken` acts as `AgentSet` on the auth token says ("missing token") |
| Config.AgentConfig.SetMachineName | config/agent_live_change.go:50-69 | `AgentSetMachineName` acts as `AgentSet` on the machine name says ("missing machine name") |
| Config.ClientSet | config/client_live_change.go:6-24 | the argument-count error with "missing address"; on error nothing changes; otherwise only the server address changes, to the argument |
| Config.ClientSetIdempotent | config/client_live_change.go:18-22 | applying the client setter twice equals applying it once |
| Config.ClientConfig.SetServerAddress | config/client_live_change.go:6-25 | `ClientSetServerAddress` acts as `ClientSet` says |
| GoStrings.Split | agent/ipc.go:105 | a split has at least one piece, and no piece contains the separator |
| GoStrings.Join | agent/config.go:31 | `strings.Join` on one separator; it has no contract of its own, and `SplitJoin` and `JoinSplit` state that it is the inverse of `Split` |
| GoStrings.SplitNoSeparator | agent/ipc.go:108 | a string without the separator splits into itself |
| GoStrings.SplitAtFirst | agent/ipc.go:105-106 | the text before the first separator is the first piece, and the rest splits on its own |
| GoStrings.SplitJoin | agent/ipc.go:108 | splitting a join of separator-free pieces gives back the pieces |
| GoStrings.JoinSplit | agent/config.go:31 | joining the pieces of a split gives back the string |
| Utils.CleanString | utils/strings.go:9-16 | the result is never longer than the input, and all its characters are graphic |
| Utils.CleanStringAppend | utils/strings.go:10-15 | cleaning works character by character, so it distributes over concatenation |
| Utils.CleanStringDeletesExactlyNonGraphic | utils/strings.go:10-15 | the result is the input with exactly the non-graphic characters deleted: order is preserved, each graphic character keeps its count, and no non-graphic character remains |
| Utils.CleanStringKeepsGraphic | utils/strings.go:11-13 | a string of graphic characters comes back unchanged |
| Utils.CleanStringIdempotent | utils/strings.go:9-16 | cleaning twice is cleaning once |

## Left out

- Concurrency: goroutines, channels, `select`, mutexes and timers are not modelled; events are sequential method calls. This covers the probe's `data` and `stop` channels, `delete`'s channel closing, the probe lock taken at deletion and never released, and the time series lock.
- Duplicate registration: the `LoadOrStore` collision and the failed type assertion in `Handle` cannot occur in the sequential model, so those fatal branches are not modelled.
- `workServices`, the per-service store and its threshold alerts: their source is not part of this model, so `Probe.OnReport` leaves the time series untouched. The caller of `trimTimeSerie` is not part of this model either; `Trim` is a method on its own.
- Wall-clock time: `time.Now`, `time.Since` and the parsing of the inactivity delay are not modelled; times are integer inputs and inactivity is an explicit tick.
- Logging: none of the log output is modelled, including the "still in alertedHigh" warning every tenth tick and the dashboard timer reset.
- Dashboard fan-out and `dashboard.Operator`: `Registry.Snapshot` returns the payload instead of sending it.
- The "trim to empty" branch of `trimTimeSerie`: it cannot be reached with a head, so `Trim` requires a non-empty chain, as the source needs one to run at all.
- `Monitoring.Probe.UpdateStatus`: requires a status below `alertedHigh`, as in every call of the source; `status++` beyond `alertedHigh` would have no name.
- HTTP server, authentication and the agent's report sender are not modelled; the registry receives `Payload` values, with "delete" as the deletion marker.
- PagerDuty network side: the SDK calls, the ping inside `NewInstance`, and the random `DedupKey` and timestamp are not modelled. The last two are parameters of `PagerDuty.SendEvent`, and the ability list's outcome is a parameter of `PagerDuty.Ping`. `GetProvider` is not part of this model; its result is a parameter of `Alerting.AlertingConfig.Init`.
- Send errors in `ServerAlert`: they are logged and swallowed, so the model records the send and has no error path.
- Configuration loading and persistence: viper, environment variables, JSON files and `saveToFile` (whose result the setters ignore) are not modelled, nor are `InitAgent`/`InitClient`, which the setters call when no configuration is loaded. Provider names and PagerDuty keys are parameters of `ConfigV2.Server.CraftAlertProviders`.
- `RefreshClientConfig` and `PrintClientConfig` after a processed request are not modelled.
- Socket I/O in the agent: the accept loop, the 1024-byte read buffer and `sendMessageToDaemon` are not modelled; a received message and the results of the exchanges are parameters. Error matching with `errors.Is` is reduced to an error kind.
- Daemon installation, the CLI wiring and the agent's heartbeat loop are not modelled.
- `Utils.CleanString`: works on characters; the UTF-8 decoding of `strings.Map`, including invalid bytes, is not modelled, and `unicode.IsGraphic` is a parameter.
- Go's fixed-width `int` overflow of the probe counter is not modelled; counters are unbounded.
- The test for a "URL scheme is required" error is not modelled, because no setter returns that error.

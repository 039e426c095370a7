# Liqo Agent tray core — a Dafny model

This project models the decision logic of the Liqo Agent, the desktop tray companion of
the Liqo multi-cluster platform:

- the **peer listeners**, which react to ForeignCluster add/update/delete events and
  decide which peering notifications (outgoing/incoming, on/off) to raise;
- the **cluster-name listener**, which copies the local cluster name into the status;
- **`StartStopOutPeering`**, which sets `Spec.Join` of a cached ForeignCluster and
  submits it;
- the **ClusterConfig controller**, whose ADD and UPDATE handlers forward the
  configured cluster name on the cluster-name channel;
- the **metric registries** for timers and resource samples;
- the **notification level and tray icon** rule of the indicator, stated from the
  behaviour its unit tests require.

Every operation is a pure function over immutable datatypes. A listener returns the
ordered trace of the calls it makes into the peer store and the tray UI, so "nothing
happened" and "the notification came after the count refresh" are statements about that
trace. Whatever the model cannot see is an input: the record the peer store returns,
the outcome of a Kubernetes lookup or `Update`, the client constructor's result, clock
readings, CPU and memory samples.

Modules: `Wrappers` (Option/Result), `Client` (channel ids, resource kinds, payloads),
`Listeners`, `Peerings`, `ClusterConfigController`, `Metrics`, `Notify`.

Points of the code a reader might not expect, which the model keeps as written:

- The peer listeners do not compare old and new record flags. They compare the event
  payload's flag with the flag of the record the store returns
  (`internal/tray-agent/agent/logic/listeners.go:52-60`), and raise On when the event says
  disconnected while the record says connected, Off the other way round
  (`Listeners.DirectionChange`).
- The add/update listener decides "first sight" by whether the peer's *menu child*
  exists, not by whether the store already held the peer.
- `ChanClusterName` is sent on and listened to, but the channel list in
  `internal/tray-agent/agent/client/notifyChannels.go` declares only the two peer channels; the model
  has all three channel ids.

## Model

| member | source | states |
|---|---|---|
| `Listeners.DirectionChange` | internal/tray-agent/agent/logic/listeners.go:52-56 | at most one notification for the direction; one exactly when event and record flags differ; it is On exactly when the record reports connected |
| `Listeners.PeeringChanges` | internal/tray-agent/agent/logic/listeners.go:92-101 | On(dir) iff event false and record true; Off(dir) iff event true and record false; no notification for a direction whose flags agree; at most two, outgoing before incoming, all for the record's peer |
| `Listeners.FirstSightNotifications` | internal/tray-agent/agent/logic/listeners.go:44-50 | an On for each direction the record reports connected, no Off ever, outgoing first |
| `Listeners.AddedOrUpdatedNotifications` | internal/tray-agent/agent/logic/listeners.go:43-62 | with the menu child absent only On notifications (the first-sight rule); with it present the per-direction comparison; never more than two, outgoing first |
| `Listeners.ListenAddedOrUpdatedPeer` | internal/tray-agent/agent/logic/listeners.go:13-63 | a payload that is not a peer event is rejected with no call made; otherwise the store is updated and the status refreshed first; without the PEERS quick node nothing else happens; a peer node is created exactly when the quick node exists and the peer had no child; nothing is removed |
| `Listeners.ListenAddedOrUpdatedPeerNotifications` | internal/tray-agent/agent/logic/listeners.go:28-62 | the notifications in the add/update trace are exactly the step-3 decision when the PEERS quick node is registered, and none otherwise |
| `Listeners.ListenDeletedPeer` | internal/tray-agent/agent/logic/listeners.go:65-103 | a wrong payload is rejected with no call made; otherwise the peer is removed from the store and the status refreshed first; without the PEERS quick node nothing else happens; the menu child is freed exactly when the quick node exists and the child is present; nothing is created |
| `Listeners.ListenDeletedPeerNotifications` | internal/tray-agent/agent/logic/listeners.go:80-101 | the notifications in the delete trace are exactly the per-direction comparison, regardless of whether the child was present, and none without the PEERS quick node |
| `Listeners.ListenAddedOrUpdatedPeerOrder` | internal/tray-agent/agent/logic/listeners.go:21-61 | with the PEERS quick node, the calls open with store update, status refresh, node creation (only when the child was missing), the joined peer refresh and the peer-count refresh, in that order; every later step is a notification and no earlier one is |
| `Listeners.ListenDeletedPeerOrder` | internal/tray-agent/agent/logic/listeners.go:73-101 | with the PEERS quick node, the calls open with store removal, status refresh, the free of the peer's node (only when it is present) and the peer-count refresh, in that order; every later step is a notification and no earlier one is |
| `Listeners.SettledUpdateIsSilent` | internal/tray-agent/agent/logic/listeners.go:51-62 | an update for a peer with a menu child whose record agrees with the event on both directions raises no notification |
| `Listeners.DeleteBothOff` | internal/tray-agent/agent/logic/listeners.go:92-101 | a delete whose event reports both directions connected and whose record reports both disconnected raises exactly outgoing-Off then incoming-Off |
| `Listeners.ListenClusterName` | internal/tray-agent/agent/logic/listeners.go:105-114 | a non-string payload is refused with no call made; a string becomes the status cluster name exactly, the peer count is kept, and the only call made is the status refresh |
| `Peerings.StartStopOutPeering` | internal/tray-agent/agent/client/peerings.go:11-24 | a lookup error is returned unchanged with the cache untouched and no update submitted; an unknown key gives "no such ForeignCluster found" with the cache untouched; a known key submits the stored object with `Join` set to `start` and every other field kept, leaves that same object in the cache and returns the `Update` error; no other key changes and no key is added or removed |
| `Peerings.StartStopOutPeeringIdempotent` | internal/tray-agent/agent/client/peerings.go:21 | a second call with the same `start` leaves the cache as the first left it and submits the same object |
| `Peerings.CacheIgnoresUpdateOutcome` | internal/tray-agent/agent/client/peerings.go:21-23 | the cached `Join` is written before `Update`, so the cache after the call is the same whether `Update` fails or not |
| `ClusterConfigController.CreateClusterConfigController` | internal/tray-agent/agent/client/clusterConfigController.go:8-21 | a client-creation error is returned as is with no controller; on success the controller has the add and update handlers, no delete handler, the new client and the ClusterConfig resource |
| `ClusterConfigController.ClusterConfigAddFunc` | internal/tray-agent/agent/client/clusterConfigController.go:24-38 | a non-ClusterConfig object is refused; otherwise exactly one message, on the cluster-name channel, carrying `Spec.DiscoveryConfig.ClusterName` |
| `ClusterConfigController.ClusterConfigUpdateFunc` | internal/tray-agent/agent/client/clusterConfigController.go:30-33 | refusal depends on the new object only; one cluster-name message carrying the new object's name |
| `ClusterConfigController.AddAndUpdateAgree` | internal/tray-agent/agent/client/clusterConfigController.go:26-32 | updating to an object sends the same messages as adding it, whatever the old object |
| `ClusterConfigController.CreatedControllerDispatch` | internal/tray-agent/agent/client/clusterConfigController.go:9-12 | a controller built from a working client answers an ADD with exactly the add handler's messages, an UPDATE with exactly the update handler's, and a DELETE with none |
| `ClusterConfigController.ClusterNameReachesStatus` | internal/tray-agent/agent/client/clusterConfigController.go:24-38 | the message sent on ADD, received by the cluster-name listener, sets the status name to the configured name |
| `Metrics.Increment` | internal/tray-agent/metrics/metrics.go:101 | `IDCounter++` adds one below the 64-bit maximum and wraps to the minimum at it |
| `Metrics.Sub` | internal/tray-agent/metrics/metrics.go:119 | elapsed time is stop minus start, saturated to the Duration range |
| `Metrics.Milliseconds` | internal/tray-agent/metrics/metrics.go:119 | the millisecond count truncates toward zero: for a non-negative duration `ms*1e6 <= d < (ms+1)*1e6`, for a negative one `(ms-1)*1e6 < d <= ms*1e6` |
| `Metrics.ToMB` | internal/tray-agent/metrics/metrics.go:147-148 | megabytes are the integer quotient by 1048576: `mb*1048576 <= bytes < (mb+1)*1048576`, and never above the byte count |
| `Metrics.InitialRegistry` | internal/tray-agent/metrics/metrics.go:76-94 | both registries start enabled, with counter zero, no timers and no rows, and are well formed; the discovered-peer count starts at zero |
| `Metrics.NewMetricTimer` | internal/tray-agent/metrics/metrics.go:96-112 | disabled: state unchanged and ID 0; enabled: returns the previous counter, advances it by one, stores a timer at that ID tagged with the location and the current peer count, leaves every other timer and the resource registry unchanged |
| `Metrics.NewMetricTimerPreservesWellFormed` | internal/tray-agent/metrics/metrics.go:100-109 | below the counter's maximum, the returned ID was unused and every timer stays stored under its own ID below the counter |
| `Metrics.StopMetricTimer` | internal/tray-agent/metrics/metrics.go:114-121 | needs a started timer when enabled; disabled: no change; enabled: only that timer's duration changes, to the truncated milliseconds of stop minus start |
| `Metrics.StopMetricTimerPreservesWellFormed` | internal/tray-agent/metrics/metrics.go:118-119 | stopping a timer keeps the timer registry well formed |
| `Metrics.NewMetricTimersConsecutive` | internal/tray-agent/metrics/metrics.go:96-112 | successive enabled calls return consecutive IDs from the counter, advance it by the number of calls, and each ID holds its call's tag |
| `Metrics.NewMetricTimersKeep` | internal/tray-agent/metrics/metrics.go:104-109 | later calls never overwrite an earlier timer |
| `Metrics.NewMetricTimersIncreasing` | internal/tray-agent/metrics/metrics.go:100-101 | IDs of successive calls are strictly increasing, hence unique |
| `Metrics.NewMetricTimersDisabled` | internal/tray-agent/metrics/metrics.go:97 | disabled, any number of calls changes nothing and returns only 0 |
| `Metrics.NewMetricResources` | internal/tray-agent/metrics/metrics.go:135-155 | disabled: no change; enabled: exactly one row appended, earlier rows kept, ID the previous counter, location, peer count and CPU as given, memory in MB by integer division, counter advanced; the timer registry untouched |
| `Metrics.NewMetricResourcesPreservesWellFormed` | internal/tray-agent/metrics/metrics.go:151-153 | below the counter's maximum, row IDs stay strictly increasing and below the counter |
| `Notify.NewIndicator` | internal/tray-agent/app-indicator/notify_test.go:33-37 | a fresh indicator shows the main icon |
| `Notify.NotificationSetLevel` | internal/tray-agent/app-indicator/notify_test.go:15-25 | a declared level is stored; an undeclared one leaves the indicator unchanged; the icon never changes |
| `Notify.SetLevelScenario` | internal/tray-agent/app-indicator/notify_test.go:9-26 | Off, Min, Max are stored in turn and a following -1 leaves Max |
| `Notify.Notify` | internal/tray-agent/app-indicator/notify_test.go:34-54 | at level Off nothing changes; an undeclared icon or `IconLiqoNil` changes nothing; otherwise the tray icon becomes the requested one; the level is never changed |
| `Notify.NotifyIdempotent` | internal/tray-agent/app-indicator/notify_test.go:39-48 | repeating a `Notify` call has no further effect |
| `Notify.NotifyIgnoresNotifyIcon` | internal/tray-agent/app-indicator/notify_test.go:36-53 | the notification icon argument never affects the tray icon |
| `Notify.NotifyScenario` | internal/tray-agent/app-indicator/notify_test.go:28-55 | the test's call sequence leaves Main, Orange, Orange, NoConn, NoConn, NoConn |
| `Notify.NotifyNoConnection` | internal/tray-agent/app-indicator/notify_test.go:65-66 | with notifications not off the tray icon becomes the warning icon; the level is kept |
| `Notify.NotifyNoConnectionIsWarningNotify` | internal/tray-agent/app-indicator/notify_test.go:65-66 | a no-connection notification acts on the indicator exactly as a `Notify` with the warning tray icon, whatever the notification icon |
| `Notify.NotifyNoConnectionIdempotent` | internal/tray-agent/app-indicator/notify_test.go:65-66 | a second no-connection notification changes nothing further |
| `Notify.LevelOffSilencesNotify` | internal/tray-agent/app-indicator/notify_test.go:15-16 | after the level is set to Off, neither `Notify` nor `NotifyNoConnection` changes the indicator |
| `Notify.LevelOnShowsIcon` | internal/tray-agent/app-indicator/notify_test.go:18-23 | after the level is set to Min or Max, `Notify` shows any displayable icon and `NotifyNoConnection` shows the warning icon |
| `Notify.NotifyNoConnectionScenario` | internal/tray-agent/app-indicator/notify_test.go:58-67 | a fresh indicator at a level other than Off turns to the warning icon |

## Left out

- The peer store (`AddOrUpdatePeer`, `RemovePeer`) is not part of this model; the record it returns is an input of each peer listener.
- Goroutines, the `sync.WaitGroup` join and every `RLock`/`Lock` pair are concurrency; the two parallel refreshes are one joined step of the trace.
- Menu rendering (`RefreshStatus`, `refreshPeerCount`, `createPeerNode`, `refreshPeerInfo`, `refreshPeeringInfo`, `FreeListChild`, `NotifyPeering`) is UI whose bodies are not part of this model; each appears only as a step in the trace.
- Kubernetes calls (`CreateClusterConfigClient`, `Store.GetByKey`, `Update`, the informer that invokes the handlers) are foreign libraries; their outcomes are inputs, and `ClusterConfigController.HandleEvent` stands for the informer by calling the handler registered for the event's kind.
- `ctrl.Controller(CRForeignCluster)` in `StartStopOutPeering`: the model takes the ForeignCluster cache directly. The cache is typed, so it holds only ForeignClusters, and the panic of the type assertion `obj.(*discovery.ForeignCluster)` (`internal/tray-agent/agent/client/peerings.go:20`) on any other object cannot arise in the model.
- Channel buffering (`notifyBuffLength`, blocking sends) is Go channel behaviour; only the channel ids are kept.
- Metrics: CPU rounding (`math.Round` on a float), `pidusage` and `runtime.ReadMemStats` sampling, `time.Now`, the process id, export file paths and the CSV dumps (`DumpMetricTimers`, `DumpMetricResources`) are floats, OS calls and file I/O; the CPU value, memory counts and clock readings are inputs.
- Metrics: `MetricResourcesCtl` is created without a timer map (nil in Go); the model gives it an empty map, which no operation on that registry reads.
- Metrics: the timer and resource-sample counters are modelled as Go 64-bit `int`; the well-formedness lemmas assume the counter is below its maximum, since wrap-around would reuse IDs.
- The measurement loop and all startup/exit wiring in `internal/tray-agent/agent/logic/managers.go` are UI plumbing.
- Notify: only the tests of the indicator are part of this model, not its implementation, so the rule is the one the tests require; what a notification shows on the desktop (title, message, notification icon, delivery) is not modelled.
- Notify.NotifyNoConnection: the model routes it through the same level-gated icon rule as `Notify`, with the warning notification icon; its body lives in the indicator's implementation, which this model does not cover, and its test only exercises a fresh indicator at the default level.
- Notify.NewIndicator: the default notification level of a fresh indicator is set in the indicator's implementation, which this model does not cover, so it is a parameter.
- The numeric values of the level and icon constants are declared in the indicator's implementation, which this model does not cover; levels and icons are enumerations, and any other value (the tests use -1) is one "undeclared" argument.

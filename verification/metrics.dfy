/** The metric registries of the agent: a timer registry (`MetricTimerCtl`) keyed by
    timer ID and a resource-sample registry (`MetricResourcesCtl`) kept as a list of
    rows. Each registry hands out IDs from its own counter and does nothing while it
    is disabled.

    Go's `int` is 64 bits wide here, so the counters wrap on `++`; `time.Time` is a
    nanosecond reading; the clock, the CPU sample and the memory statistics are inputs. */
module Metrics {

  const MaxInt64: int := 0x7FFF_FFFF_FFFF_FFFF
  const MinInt64: int := -0x8000_0000_0000_0000

  type Int64 = x: int | MinInt64 <= x <= MaxInt64

  type Uint64 = x: int | 0 <= x <= 0xFFFF_FFFF_FFFF_FFFF

  /** A clock reading in nanoseconds. */
  type Time = int

  /** Bytes per megabyte, the divisor of the memory conversion. */
  const BytesPerMB: nat := 1048576

  const NanosPerMilli: nat := 1_000_000

  /** Go's `x++` on a 64-bit `int`. */
  function Increment(x: Int64): (r: Int64)
    ensures x < MaxInt64 ==> r == x + 1
    ensures x == MaxInt64 ==> r == MinInt64
  {
    if x == MaxInt64 then MinInt64 else x + 1
  }

  /** `time.Time.Sub`: the elapsed nanoseconds, saturated to the range of a Duration. */
  function Sub(t: Time, u: Time): (d: Int64)
    ensures MinInt64 <= t - u <= MaxInt64 ==> d == t - u
    ensures t - u > MaxInt64 ==> d == MaxInt64
    ensures t - u < MinInt64 ==> d == MinInt64
  {
    if t - u > MaxInt64 then MaxInt64
    else if t - u < MinInt64 then MinInt64
    else t - u
  }

  /** `time.Duration.Milliseconds`: integer division truncating toward zero. */
  function Milliseconds(d: Int64): (ms: Int64)
    ensures d >= 0 ==> 0 <= ms && ms * NanosPerMilli <= d < (ms + 1) * NanosPerMilli
    ensures d < 0 ==> ms <= 0 && (ms - 1) * NanosPerMilli < d <= ms * NanosPerMilli
  {
    var n: int := d;
    var magnitude := if n >= 0 then n else -n;
    if d >= 0 then magnitude / NanosPerMilli else -(magnitude / NanosPerMilli)
  }

  /** Byte count to megabytes, by integer division. */
  function ToMB(bytes: Uint64): (mb: Uint64)
    ensures mb <= bytes
    ensures mb * BytesPerMB <= bytes < (mb + 1) * BytesPerMB
  {
    bytes / BytesPerMB
  }

  datatype MetricResources = MetricResources(
    id: Int64,
    location: string,
    discoveredPeers: Int64,
    cpu: Uint64,      // cpu% rounded to 3 decimals, times 1000
    memHeap: Uint64,  // MB
    memOS: Uint64)    // MB

  datatype MetricTimer = MetricTimer(
    id: Int64,
    tag: string,
    discoveredPeers: Int64,
    startTime: Time,
    duration: Int64)  // ms

  datatype MetricController = MetricController(
    idCounter: Int64,
    metrics: seq<MetricResources>,
    metricsMap: map<Int64, MetricTimer>,
    enabled: bool)

  /** The process-wide metric state: both registries and the discovered-peer count
      they sample. */
  datatype Registry = Registry(
    timerCtl: MetricController,
    resourcesCtl: MetricController,
    discoveredPeers: Int64)

  /** Both registries as the process starts them: enabled, counters at zero, empty. */
  function InitialRegistry(): (reg: Registry)
    ensures TimersWellFormed(reg.timerCtl) && ResourcesWellFormed(reg.resourcesCtl)
    ensures reg.timerCtl.enabled && reg.resourcesCtl.enabled
    ensures reg.timerCtl.idCounter == 0 && reg.resourcesCtl.idCounter == 0
    ensures reg.timerCtl.metricsMap == map[] && reg.resourcesCtl.metrics == []
    ensures reg.discoveredPeers == 0
  {
    Registry(MetricController(0, [], map[], true), MetricController(0, [], map[], true), 0)
  }

  /** Every timer is stored under its own ID, and every ID is below the counter. */
  predicate TimersWellFormed(ctl: MetricController) {
    && 0 <= ctl.idCounter
    && forall id | id in ctl.metricsMap :: 0 <= id < ctl.idCounter && ctl.metricsMap[id].id == id
  }

  /** Rows carry strictly increasing IDs, all below the counter. */
  predicate ResourcesWellFormed(ctl: MetricController) {
    && 0 <= ctl.idCounter
    && (forall i | 0 <= i < |ctl.metrics| :: 0 <= ctl.metrics[i].id < ctl.idCounter)
    && (forall i, j | 0 <= i < j < |ctl.metrics| :: ctl.metrics[i].id < ctl.metrics[j].id)
  }

  // ---------------------------------------------------------------------------------
  // Timers
  // ---------------------------------------------------------------------------------

  datatype TimerStarted = TimerStarted(registry: Registry, id: Int64)

  /** `NewMetricTimer`: `now` is the clock reading taken for the start time. */
  function NewMetricTimer(reg: Registry, location: string, now: Time): (r: TimerStarted)
    ensures !reg.timerCtl.enabled ==> r.registry == reg && r.id == 0
    ensures reg.timerCtl.enabled ==>
      && r.id == reg.timerCtl.idCounter
      && r.registry.timerCtl.idCounter == Increment(reg.timerCtl.idCounter)
      && r.id in r.registry.timerCtl.metricsMap
      && r.registry.timerCtl.metricsMap[r.id] == MetricTimer(r.id, location, reg.discoveredPeers, now, 0)
      && r.registry.timerCtl.metricsMap.Keys == reg.timerCtl.metricsMap.Keys + {r.id}
      && (forall id | id in reg.timerCtl.metricsMap && id != r.id ::
            r.registry.timerCtl.metricsMap[id] == reg.timerCtl.metricsMap[id])
    ensures r.registry.timerCtl.enabled == reg.timerCtl.enabled
    ensures r.registry.timerCtl.metrics == reg.timerCtl.metrics
    ensures r.registry.resourcesCtl == reg.resourcesCtl
    ensures r.registry.discoveredPeers == reg.discoveredPeers
  {
    if !reg.timerCtl.enabled then TimerStarted(reg, 0)
    else
      var ctl := reg.timerCtl;
      var id := ctl.idCounter;
      var timer := MetricTimer(id, location, reg.discoveredPeers, now, 0);
      var ctl' := ctl.(idCounter := Increment(id), metricsMap := ctl.metricsMap[id := timer]);
      TimerStarted(reg.(timerCtl := ctl'), id)
  }

  /** Starting a timer on a well-formed registry whose counter has room left keeps it
      well formed, and the new ID was not in use. */
  lemma NewMetricTimerPreservesWellFormed(reg: Registry, location: string, now: Time)
    requires TimersWellFormed(reg.timerCtl) && reg.timerCtl.idCounter < MaxInt64
    ensures var r := NewMetricTimer(reg, location, now);
            && TimersWellFormed(r.registry.timerCtl)
            && (reg.timerCtl.enabled ==> r.id !in reg.timerCtl.metricsMap)
  {
  }

  /** `StopMetricTimer`: the ID must name a started timer, since a missing one is a nil
      dereference. */
  function StopMetricTimer(reg: Registry, id: Int64, stop: Time): (r: Registry)
    requires reg.timerCtl.enabled ==> id in reg.timerCtl.metricsMap
    ensures !reg.timerCtl.enabled ==> r == reg
    ensures reg.timerCtl.enabled ==>
      var before := reg.timerCtl.metricsMap[id];
      && r.timerCtl.metricsMap.Keys == reg.timerCtl.metricsMap.Keys
      && r.timerCtl.metricsMap[id] == before.(duration := Milliseconds(Sub(stop, before.startTime)))
      && (forall k | k in reg.timerCtl.metricsMap && k != id ::
            r.timerCtl.metricsMap[k] == reg.timerCtl.metricsMap[k])
      && r.timerCtl.idCounter == reg.timerCtl.idCounter
    ensures r.timerCtl.enabled == reg.timerCtl.enabled
    ensures r.timerCtl.metrics == reg.timerCtl.metrics
    ensures r.resourcesCtl == reg.resourcesCtl
    ensures r.discoveredPeers == reg.discoveredPeers
  {
    if !reg.timerCtl.enabled then reg
    else
      var m := reg.timerCtl.metricsMap[id];
      var m' := m.(duration := Milliseconds(Sub(stop, m.startTime)));
      reg.(timerCtl := reg.timerCtl.(metricsMap := reg.timerCtl.metricsMap[id := m']))
  }

  /** A stopped timer keeps its ID, tag, peer count and start time. */
  lemma StopMetricTimerPreservesWellFormed(reg: Registry, id: Int64, stop: Time)
    requires reg.timerCtl.enabled ==> id in reg.timerCtl.metricsMap
    requires TimersWellFormed(reg.timerCtl)
    ensures TimersWellFormed(StopMetricTimer(reg, id, stop).timerCtl)
  {
  }

  /** One `NewMetricTimer` call: location and clock reading. */
  datatype TimerCall = TimerCall(location: string, now: Time)

  datatype TimersStarted = TimersStarted(registry: Registry, ids: seq<Int64>)

  /** A sequence of `NewMetricTimer` calls, in order, with the IDs they return. */
  function NewMetricTimers(reg: Registry, calls: seq<TimerCall>): (r: TimersStarted)
    ensures |r.ids| == |calls|
    ensures r.registry.timerCtl.enabled == reg.timerCtl.enabled
    ensures r.registry.resourcesCtl == reg.resourcesCtl
    decreases |calls|
  {
    if calls == [] then TimersStarted(reg, [])
    else
      var first := NewMetricTimer(reg, calls[0].location, calls[0].now);
      var rest := NewMetricTimers(first.registry, calls[1..]);
      TimersStarted(rest.registry, [first.id] + rest.ids)
  }

  /** With timers enabled and no wrap-around, successive calls return consecutive IDs
      from the counter (hence strictly increasing and pairwise distinct), and each
      returned ID holds the timer started for its call. */
  lemma {:induction false} NewMetricTimersConsecutive(reg: Registry, calls: seq<TimerCall>)
    requires reg.timerCtl.enabled
    requires 0 <= reg.timerCtl.idCounter && reg.timerCtl.idCounter + |calls| <= MaxInt64
    ensures var r := NewMetricTimers(reg, calls);
            && r.registry.timerCtl.idCounter == reg.timerCtl.idCounter + |calls|
            && (forall i | 0 <= i < |calls| :: r.ids[i] == reg.timerCtl.idCounter + i)
            && (forall i | 0 <= i < |calls| ::
                  r.ids[i] in r.registry.timerCtl.metricsMap
                  && r.registry.timerCtl.metricsMap[r.ids[i]].tag == calls[i].location)
    decreases |calls|
  {
    if calls != [] {
      var first := NewMetricTimer(reg, calls[0].location, calls[0].now);
      NewMetricTimersConsecutive(first.registry, calls[1..]);
      NewMetricTimersKeep(first.registry, calls[1..], first.id);
      var r := NewMetricTimers(reg, calls);
      forall i | 0 <= i < |calls|
        ensures r.ids[i] in r.registry.timerCtl.metricsMap
        ensures r.registry.timerCtl.metricsMap[r.ids[i]].tag == calls[i].location
      {
        if i > 0 {
          assert calls[1..][i - 1] == calls[i];
        }
      }
    }
  }

  /** Later calls with IDs above `id` do not overwrite the timer stored at `id`. */
  lemma {:induction false} NewMetricTimersKeep(reg: Registry, calls: seq<TimerCall>, id: Int64)
    requires reg.timerCtl.enabled
    requires id < reg.timerCtl.idCounter && reg.timerCtl.idCounter + |calls| <= MaxInt64
    requires id in reg.timerCtl.metricsMap
    ensures var r := NewMetricTimers(reg, calls);
            id in r.registry.timerCtl.metricsMap
            && r.registry.timerCtl.metricsMap[id] == reg.timerCtl.metricsMap[id]
    decreases |calls|
  {
    if calls != [] {
      var first := NewMetricTimer(reg, calls[0].location, calls[0].now);
      NewMetricTimersKeep(first.registry, calls[1..], id);
    }
  }

  /** The IDs of consecutive calls are strictly increasing. */
  lemma NewMetricTimersIncreasing(reg: Registry, calls: seq<TimerCall>)
    requires reg.timerCtl.enabled
    requires 0 <= reg.timerCtl.idCounter && reg.timerCtl.idCounter + |calls| <= MaxInt64
    ensures var ids := NewMetricTimers(reg, calls).ids;
            forall i, j | 0 <= i < j < |ids| :: ids[i] < ids[j]
  {
    NewMetricTimersConsecutive(reg, calls);
  }

  /** With timers disabled, any number of calls changes nothing and returns only 0. */
  lemma {:induction false} NewMetricTimersDisabled(reg: Registry, calls: seq<TimerCall>)
    requires !reg.timerCtl.enabled
    ensures var r := NewMetricTimers(reg, calls);
            r.registry == reg && forall i | 0 <= i < |r.ids| :: r.ids[i] == 0
    decreases |calls|
  {
    if calls != [] {
      NewMetricTimersDisabled(reg, calls[1..]);
    }
  }

  // ---------------------------------------------------------------------------------
  // Resource samples
  // ---------------------------------------------------------------------------------

  /** `NewMetricResources`: `cpu` is the already rounded CPU value, `alloc` and `sys`
      the heap and OS memory in bytes. */
  function NewMetricResources(reg: Registry, location: string, cpu: Uint64, alloc: Uint64, sys: Uint64)
    : (r: Registry)
    ensures !reg.resourcesCtl.enabled ==> r == reg
    ensures reg.resourcesCtl.enabled ==>
      var before := reg.resourcesCtl.metrics;
      && |r.resourcesCtl.metrics| == |before| + 1
      && r.resourcesCtl.metrics[..|before|] == before
      && r.resourcesCtl.metrics[|before|].id == reg.resourcesCtl.idCounter
      && r.resourcesCtl.metrics[|before|].location == location
      && r.resourcesCtl.metrics[|before|].discoveredPeers == reg.discoveredPeers
      && r.resourcesCtl.metrics[|before|].cpu == cpu
      && r.resourcesCtl.metrics[|before|].memHeap * BytesPerMB <= alloc
          < (r.resourcesCtl.metrics[|before|].memHeap + 1) * BytesPerMB
      && r.resourcesCtl.metrics[|before|].memOS * BytesPerMB <= sys
          < (r.resourcesCtl.metrics[|before|].memOS + 1) * BytesPerMB
      && r.resourcesCtl.idCounter == Increment(reg.resourcesCtl.idCounter)
      && r.resourcesCtl.metricsMap == reg.resourcesCtl.metricsMap
      && r.resourcesCtl.enabled
    ensures r.timerCtl == reg.timerCtl
    ensures r.discoveredPeers == reg.discoveredPeers
  {
    if !reg.resourcesCtl.enabled then reg
    else
      var ctl := reg.resourcesCtl;
      var metric := MetricResources(ctl.idCounter, location, reg.discoveredPeers, cpu, ToMB(alloc), ToMB(sys));
      reg.(resourcesCtl := ctl.(idCounter := Increment(ctl.idCounter), metrics := ctl.metrics + [metric]))
  }

  /** Sampling on a well-formed registry whose counter has room left keeps the row IDs
      strictly increasing and below the counter. */
  lemma NewMetricResourcesPreservesWellFormed(reg: Registry, location: string, cpu: Uint64, alloc: Uint64, sys: Uint64)
    requires ResourcesWellFormed(reg.resourcesCtl) && reg.resourcesCtl.idCounter < MaxInt64
    ensures ResourcesWellFormed(NewMetricResources(reg, location, cpu, alloc, sys).resourcesCtl)
  {
  }
}

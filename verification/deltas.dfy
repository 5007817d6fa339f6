/**
 * What GatherMetrics publishes for one container that already has a
 * previous snapshot: counter increments between the two snapshots, gauge
 * values of the new one, and per-interface network increments.
 */
module Deltas {
  import opened Docker
  import opened Labeling
  import opened Series

  /** Docker CPU times are divided by this to give the exported figure. */
  const CpuScale: int := 10000000

  /** The nano-CPU quota is divided by this to give the exported figure. */
  const QuotaScale: int := 10000

  /**
   * Go's `cur - prev` on uint64 counters: the plain difference when the
   * counter did not go backwards, otherwise the difference wrapped modulo
   * 2^64. Either way it is the one 64-bit value that carries `prev` to `cur`.
   */
  function Increment(cur: U64, prev: U64): (d: U64)
    ensures (prev + d) % TWO_64 == cur
    ensures cur >= prev ==> d == cur - prev
    ensures cur < prev ==> d > cur
  {
    if cur >= prev then cur - prev else cur - prev + TWO_64
  }

  function CpuSeconds(d: U64): real {
    d as real / CpuScale as real
  }

  /** A CPU time increase of 50,000,000 units is exported as exactly 5.0. */
  lemma CpuSecondsExample()
    ensures CpuSeconds(Increment(150000000, 100000000)) == 5.0
  {
  }

  /** The counter of an interface that a per-interface metric reports. */
  function NetField(m: Metric, s: NetStats): U64 {
    match m
    case NetRxBytes => s.rxBytes
    case NetRxErrors => s.rxErrors
    case NetRxDropped => s.rxDropped
    case NetRxPackets => s.rxPackets
    case NetTxBytes => s.txBytes
    case NetTxErrors => s.txErrors
    case NetTxDropped => s.txDropped
    case NetTxPackets => s.txPackets
    case _ => 0
  }

  /** Interfaces present in both the previous and the current snapshot. */
  function Common(prev: Snapshot, cur: Snapshot): set<string> {
    cur.networks.Keys * prev.networks.Keys
  }

  function NetKey(m: Metric, labels: map<string, string>, n: string): SeriesKey {
    SeriesKey(m, labels[Interface := n])
  }

  /** The per-interface series of a container for the given interfaces. */
  function NetKeys(labels: map<string, string>, ifaces: set<string>): set<SeriesKey> {
    set m, n | m in NetMetrics && n in ifaces :: NetKey(m, labels, n)
  }

  /** The increment a per-interface series receives: its counter's increase on its interface. */
  function NetDelta(k: SeriesKey, prev: Snapshot, cur: Snapshot): real {
    if Interface in k.labels && k.labels[Interface] in prev.networks && k.labels[Interface] in cur.networks then
      var n := k.labels[Interface];
      Increment(NetField(k.metric, cur.networks[n]), NetField(k.metric, prev.networks[n])) as real
    else 0.0
  }

  /** The store once each series of `keys` has been increased by its network increment. */
  function AddDeltas(store: Store, keys: set<SeriesKey>, prev: Snapshot, cur: Snapshot): Store {
    map k | k in store.Keys + keys :: if k in keys then Get(store, k) + NetDelta(k, prev, cur) else Get(store, k)
  }

  /** The store once the network counters of the given interfaces have been increased. */
  function PublishNetworkOn(store: Store, labels: map<string, string>, prev: Snapshot, cur: Snapshot, ifaces: set<string>): Store {
    AddDeltas(store, NetKeys(labels, ifaces), prev, cur)
  }

  lemma AddDeltasNone(store: Store, prev: Snapshot, cur: Snapshot)
    ensures AddDeltas(store, {}, prev, cur) == store
  {
  }

  /** Increasing two disjoint sets of series one after the other is increasing their union. */
  lemma AddDeltasUnion(store: Store, a: set<SeriesKey>, b: set<SeriesKey>, prev: Snapshot, cur: Snapshot)
    requires a !! b
    ensures AddDeltas(store, a + b, prev, cur) == AddDeltas(AddDeltas(store, a, prev, cur), b, prev, cur)
  {
    var lhs := AddDeltas(store, a + b, prev, cur);
    var rhs := AddDeltas(AddDeltas(store, a, prev, cur), b, prev, cur);
    assert lhs.Keys == rhs.Keys;
    forall k | k in lhs ensures lhs[k] == rhs[k] {
    }
  }

  /** One counter update by its network increment extends the set of increased series by one. */
  lemma AddDeltasStep(store: Store, schema: set<string>, keys: set<SeriesKey>, k: SeriesKey, prev: Snapshot, cur: Snapshot)
    requires k !in keys && k.metric.IsCounter() && Accepts(schema, k)
    ensures CounterAdd(AddDeltas(store, keys, prev, cur), schema, k, NetDelta(k, prev, cur)) == AddDeltas(store, keys + {k}, prev, cur)
  {
    var before := AddDeltas(store, keys, prev, cur);
    AddDeltasUnion(store, keys, {k}, prev, cur);
    var one := AddDeltas(before, {k}, prev, cur);
    var add := CounterAdd(before, schema, k, NetDelta(k, prev, cur));
    assert one.Keys == add.Keys;
    assert one == add;
  }

  /** The counter updates for interface `n` of the metrics `ms`, one after the other. */
  function PublishInterfaceMetrics(store: Store, schema: set<string>, labels: map<string, string>, n: string,
                                   prev: Snapshot, cur: Snapshot, ms: seq<Metric>): Store
    requires labels.Keys == schema && n in prev.networks && n in cur.networks
    requires forall m :: m in ms ==> m.PerInterface()
    decreases |ms|
  {
    if ms == [] then store
    else
      var k := SeriesKey(ms[0], labels[Interface := n]);
      var d := Increment(NetField(ms[0], cur.networks[n]), NetField(ms[0], prev.networks[n]));
      PublishInterfaceMetrics(CounterAdd(store, schema, k, d as real), schema, labels, n, prev, cur, ms[1..])
  }

  /** The eight counter updates GatherMetrics makes for one interface present in both snapshots. */
  function PublishInterface(store: Store, schema: set<string>, labels: map<string, string>, n: string, prev: Snapshot, cur: Snapshot): Store
    requires labels.Keys == schema && n in prev.networks && n in cur.networks
  {
    PublishInterfaceMetrics(store, schema, labels, n, prev, cur, NetMetrics)
  }

  /** The series of interface `n` for the metrics `ms`. */
  function InterfaceSeries(labels: map<string, string>, n: string, ms: seq<Metric>): set<SeriesKey> {
    set m | m in ms :: SeriesKey(m, labels[Interface := n])
  }

  /** The series of a non-empty metric list: the first metric's, then the rest's. */
  lemma InterfaceSeriesCons(labels: map<string, string>, n: string, ms: seq<Metric>)
    requires ms != []
    ensures InterfaceSeries(labels, n, ms) == {SeriesKey(ms[0], labels[Interface := n])} + InterfaceSeries(labels, n, ms[1..])
    ensures forall m :: m in ms[1..] ==> m in ms
    ensures (forall i, j :: 0 <= i < j < |ms| ==> ms[i] != ms[j]) ==>
              && SeriesKey(ms[0], labels[Interface := n]) !in InterfaceSeries(labels, n, ms[1..])
              && (forall i, j :: 0 <= i < j < |ms[1..]| ==> ms[1..][i] != ms[1..][j])
  {
    var k := SeriesKey(ms[0], labels[Interface := n]);
    var rest := InterfaceSeries(labels, n, ms[1..]);
    forall m | m in ms[1..] ensures m in ms {
      var i :| 0 <= i < |ms[1..]| && ms[1..][i] == m;
      assert ms[i + 1] == m;
    }
    forall x | x in InterfaceSeries(labels, n, ms) ensures x in {k} + rest {
      var m :| m in ms && x == SeriesKey(m, labels[Interface := n]);
      var i :| 0 <= i < |ms| && ms[i] == m;
      if i > 0 {
        assert ms[1..][i - 1] == m;
        assert m in ms[1..];
      }
    }
    assert ms[0] in ms;
    assert InterfaceSeries(labels, n, ms) == {k} + rest;
    if forall i, j :: 0 <= i < j < |ms| ==> ms[i] != ms[j] {
      forall x | x in rest ensures x != k {
        var m :| m in ms[1..] && x == SeriesKey(m, labels[Interface := n]);
        var i :| 0 <= i < |ms[1..]| && ms[1..][i] == m;
        assert ms[i + 1] == m;
      }
      forall i, j | 0 <= i < j < |ms[1..]| ensures ms[1..][i] != ms[1..][j] {
        assert ms[1..][i] == ms[i + 1] && ms[1..][j] == ms[j + 1];
      }
    }
  }

  lemma {:induction false} PublishInterfaceMetricsIsPointwise(store: Store, schema: set<string>, labels: map<string, string>, n: string,
                                                             prev: Snapshot, cur: Snapshot, ms: seq<Metric>, keys: set<SeriesKey>)
    requires labels.Keys == schema && n in prev.networks && n in cur.networks
    requires forall m :: m in ms ==> m.PerInterface()
    requires forall i, j :: 0 <= i < j < |ms| ==> ms[i] != ms[j]
    requires keys !! InterfaceSeries(labels, n, ms)
    ensures PublishInterfaceMetrics(AddDeltas(store, keys, prev, cur), schema, labels, n, prev, cur, ms)
         == AddDeltas(store, keys + InterfaceSeries(labels, n, ms), prev, cur)
    decreases |ms|
  {
    if ms != [] {
      var k := SeriesKey(ms[0], labels[Interface := n]);
      var rest := InterfaceSeries(labels, n, ms[1..]);
      InterfaceSeriesCons(labels, n, ms);
      assert ms[0] in ms;
      assert NetDelta(k, prev, cur) == Increment(NetField(ms[0], cur.networks[n]), NetField(ms[0], prev.networks[n])) as real;
      AddDeltasStep(store, schema, keys, k, prev, cur);
      var next := AddDeltas(store, keys + {k}, prev, cur);
      assert PublishInterfaceMetrics(AddDeltas(store, keys, prev, cur), schema, labels, n, prev, cur, ms)
          == PublishInterfaceMetrics(next, schema, labels, n, prev, cur, ms[1..]);
      PublishInterfaceMetricsIsPointwise(store, schema, labels, n, prev, cur, ms[1..], keys + {k});
      assert keys + {k} + rest == keys + InterfaceSeries(labels, n, ms);
    }
  }

  /** The per-interface metrics are eight distinct counters. */
  lemma NetMetricsDistinct()
    ensures forall m :: m in NetMetrics ==> m.PerInterface()
    ensures forall i, j :: 0 <= i < j < |NetMetrics| ==> NetMetrics[i] != NetMetrics[j]
  {
  }

  lemma NetKeysOne(labels: map<string, string>, n: string)
    ensures NetKeys(labels, {n}) == InterfaceSeries(labels, n, NetMetrics)
  {
  }

  /** Updating the counters `ms` of one interface, one after the other, adds each its own increment. */
  lemma PublishInterfaceMetricsFromScratch(store: Store, schema: set<string>, labels: map<string, string>, n: string,
                                           prev: Snapshot, cur: Snapshot, ms: seq<Metric>)
    requires labels.Keys == schema && n in prev.networks && n in cur.networks
    requires forall m :: m in ms ==> m.PerInterface()
    requires forall i, j :: 0 <= i < j < |ms| ==> ms[i] != ms[j]
    ensures PublishInterfaceMetrics(store, schema, labels, n, prev, cur, ms) == AddDeltas(store, InterfaceSeries(labels, n, ms), prev, cur)
  {
    AddDeltasNone(store, prev, cur);
    PublishInterfaceMetricsIsPointwise(store, schema, labels, n, prev, cur, ms, {});
    assert {} + InterfaceSeries(labels, n, ms) == InterfaceSeries(labels, n, ms);
  }

  /** The eight updates of one interface are the order-free description for that interface alone. */
  lemma PublishInterfaceIsPointwise(store: Store, schema: set<string>, labels: map<string, string>, prev: Snapshot, cur: Snapshot, n: string)
    requires labels.Keys == schema && n in Common(prev, cur)
    ensures PublishInterface(store, schema, labels, n, prev, cur) == PublishNetworkOn(store, labels, prev, cur, {n})
  {
    NetKeysOne(labels, n);
    NetMetricsDistinct();
    PublishInterfaceMetricsFromScratch(store, schema, labels, n, prev, cur, NetMetrics);
  }

  /** Interfaces touch disjoint series, so publishing one more interface composes. */
  lemma PublishNetworkOnSplit(store: Store, labels: map<string, string>, prev: Snapshot, cur: Snapshot, done: set<string>, n: string)
    requires n !in done
    ensures PublishNetworkOn(store, labels, prev, cur, done + {n})
         == PublishNetworkOn(PublishNetworkOn(store, labels, prev, cur, done), labels, prev, cur, {n})
  {
    var old_, new_ := NetKeys(labels, done), NetKeys(labels, {n});
    assert NetKeys(labels, done + {n}) == old_ + new_ by {
      forall k | k in NetKeys(labels, done + {n}) ensures k in old_ + new_ {
        var m, n' :| m in NetMetrics && n' in done + {n} && k == NetKey(m, labels, n');
        if n' == n {
          assert k in new_;
        } else {
          assert k in old_;
        }
      }
    }
    forall k | k in new_ ensures k !in old_ {
      NetKeysPerInterface(labels, done, k);
      NetKeysPerInterface(labels, {n}, k);
    }
    AddDeltasUnion(store, old_, new_, prev, cur);
  }

  /**
   * Handling the interfaces one at a time, in any order, builds up the
   * order-free description: adding one more interface is its eight updates.
   */
  lemma PublishInterfaceStep(store: Store, schema: set<string>, labels: map<string, string>, prev: Snapshot, cur: Snapshot, done: set<string>, n: string)
    requires labels.Keys == schema && n in Common(prev, cur) && n !in done
    ensures PublishNetworkOn(store, labels, prev, cur, done + {n})
         == PublishInterface(PublishNetworkOn(store, labels, prev, cur, done), schema, labels, n, prev, cur)
  {
    PublishNetworkOnSplit(store, labels, prev, cur, done, n);
    PublishInterfaceIsPointwise(PublishNetworkOn(store, labels, prev, cur, done), schema, labels, prev, cur, n);
  }

  /**
   * The network loop, visiting the interfaces of the new snapshot in the
   * order `order`: each one the previous snapshot also has gets its eight
   * counters increased.
   */
  function NetworkLoop(store: Store, schema: set<string>, labels: map<string, string>, prev: Snapshot, cur: Snapshot,
                       order: seq<string>): Store
    requires labels.Keys == schema && forall i :: 0 <= i < |order| ==> order[i] in cur.networks
    decreases |order|
  {
    if order == [] then store
    else
      var before := NetworkLoop(store, schema, labels, prev, cur, order[..|order| - 1]);
      var n := order[|order| - 1];
      if n in prev.networks then PublishInterface(before, schema, labels, n, prev, cur) else before
  }

  /** One more step of the network loop. */
  lemma NetworkLoopSnoc(store: Store, schema: set<string>, labels: map<string, string>, prev: Snapshot, cur: Snapshot,
                        order: seq<string>, i: int)
    requires labels.Keys == schema && forall j :: 0 <= j < |order| ==> order[j] in cur.networks
    requires 0 <= i < |order|
    ensures order[i] in prev.networks ==>
      NetworkLoop(store, schema, labels, prev, cur, order[..i + 1])
      == PublishInterface(NetworkLoop(store, schema, labels, prev, cur, order[..i]), schema, labels, order[i], prev, cur)
    ensures order[i] !in prev.networks ==>
      NetworkLoop(store, schema, labels, prev, cur, order[..i + 1]) == NetworkLoop(store, schema, labels, prev, cur, order[..i])
  {
    assert order[..i + 1][..i] == order[..i];
  }

  /** The interfaces of `order` that both snapshots have. */
  function Visited(order: seq<string>, prev: Snapshot): set<string> {
    set n | n in order && n in prev.networks
  }

  /** Appending one interface to the visiting order. */
  lemma VisitedSnoc(order: seq<string>, n: string, prev: Snapshot)
    ensures n in prev.networks ==> Visited(order + [n], prev) == Visited(order, prev) + {n}
    ensures n !in prev.networks ==> Visited(order + [n], prev) == Visited(order, prev)
  {
  }

  /**
   * Whatever order the loop visits the interfaces in, each at most once,
   * the result is every common interface's counters increased once: the
   * random iteration order of the snapshot's network map does not matter.
   */
  lemma {:induction false} NetworkLoopIsPublish(store: Store, schema: set<string>, labels: map<string, string>,
                                                prev: Snapshot, cur: Snapshot, order: seq<string>)
    requires labels.Keys == schema && forall i :: 0 <= i < |order| ==> order[i] in cur.networks
    requires forall i, j :: 0 <= i < j < |order| ==> order[i] != order[j]
    ensures NetworkLoop(store, schema, labels, prev, cur, order) == PublishNetworkOn(store, labels, prev, cur, Visited(order, prev))
    decreases |order|
  {
    if order == [] {
      AddDeltasNone(store, prev, cur);
      assert NetKeys(labels, {}) == {};
    } else {
      var init, n := order[..|order| - 1], order[|order| - 1];
      NetworkLoopIsPublish(store, schema, labels, prev, cur, init);
      assert order == init + [n];
      VisitedSnoc(init, n, prev);
      if n in prev.networks {
        assert n !in Visited(init, prev);
        PublishInterfaceStep(store, schema, labels, prev, cur, Visited(init, prev), n);
      }
    }
  }

  /** The host_meta series of a container: node id, the first twelve characters of its id, node name. */
  function HostKey(node: NodeInfo, id: string): SeriesKey
    requires |id| >= 12
  {
    SeriesKey(HostMeta, map[NodeIdLabel := node.nodeId, HostnameLabel := id[..12], NodeNameLabel := node.name])
  }

  /**
   * The per-container vectors GatherMetrics writes for a container with a
   * previous snapshot, in source order: the two CPU counters, the CPU quota
   * when one is configured, last seen, the two memory gauges, the memory
   * limit when one is configured, and the four storage counters.
   */
  function ContainerPlan(info: ContainerInfo): seq<Metric> {
    [CpuUsageSeconds, CpuSystemSeconds] + (if info.nanoCpus > 0 then [CpuQuota] else [])
    + [ContainerLastSeen, MemoryUsage, MemoryWorkingSet] + (if info.memory > 0 then [MemoryLimit] else [])
    + [FsReadBytes, FsReads, FsWriteBytes, FsWrites]
  }

  /**
   * The figure written to a per-container vector: for a counter the
   * increase between the two snapshots (CPU times in seconds), for a gauge
   * the value from the new snapshot or the container's configuration.
   */
  function Sample(m: Metric, info: ContainerInfo, prev: Snapshot, cur: Snapshot): real {
    match m
    case CpuUsageSeconds => CpuSeconds(Increment(cur.cpuTotal, prev.cpuTotal))
    case CpuSystemSeconds => CpuSeconds(Increment(cur.cpuKernel, prev.cpuKernel))
    case CpuQuota => info.nanoCpus as real / QuotaScale as real
    case ContainerLastSeen => cur.read as real
    case MemoryUsage => cur.memCommit as real
    case MemoryWorkingSet => cur.memWorkingSet as real
    case MemoryLimit => info.memory as real
    case FsReadBytes => Increment(cur.fsReadBytes, prev.fsReadBytes) as real
    case FsReads => Increment(cur.fsReads, prev.fsReads) as real
    case FsWriteBytes => Increment(cur.fsWriteBytes, prev.fsWriteBytes) as real
    case FsWrites => Increment(cur.fsWrites, prev.fsWrites) as real
    case _ => 0.0
  }

  /** The value a series holds after its write: a counter grown by the sample, a gauge set to it. */
  function Written(m: Metric, before: real, sample: real): real {
    if m.IsCounter() then before + sample else sample
  }

  /** The call GatherMetrics makes on vector `m` under the container's label map. */
  function WriteOf(m: Metric, labels: map<string, string>, info: ContainerInfo, prev: Snapshot, cur: Snapshot): Write {
    var k := SeriesKey(m, labels);
    if m.IsCounter() then Add(k, Sample(m, info, prev, cur)) else Set(k, Sample(m, info, prev, cur))
  }

  /** The calls for the vectors `ms`, in that order. */
  function Writes(ms: seq<Metric>, labels: map<string, string>, info: ContainerInfo, prev: Snapshot, cur: Snapshot): seq<Write> {
    seq(|ms|, i requires 0 <= i < |ms| => WriteOf(ms[i], labels, info, prev, cur))
  }

  /** Vectors labelled by the container's label map alone: neither per node, nor host_meta, nor per interface. */
  predicate ContainerScoped(ms: seq<Metric>) {
    forall i :: 0 <= i < |ms| ==> !ms[i].PerNode() && !ms[i].HostMeta? && !ms[i].PerInterface()
  }

  predicate Distinct(ms: seq<Metric>) {
    forall i, j :: 0 <= i < j < |ms| ==> ms[i] != ms[j]
  }

  /** The vectors written on every cycle, whatever the container's configuration. */
  const AlwaysWritten: set<Metric> :=
    {CpuUsageSeconds, CpuSystemSeconds, ContainerLastSeen, MemoryUsage, MemoryWorkingSet, FsReadBytes, FsReads, FsWriteBytes, FsWrites}

  lemma ContainerPlanIsScoped(info: ContainerInfo)
    ensures ContainerScoped(ContainerPlan(info))
  {
  }

  /** The position of a vector in the order a container's plan writes them. */
  function PlanRank(m: Metric): nat {
    match m
    case CpuUsageSeconds => 0
    case CpuSystemSeconds => 1
    case CpuQuota => 2
    case ContainerLastSeen => 3
    case MemoryUsage => 4
    case MemoryWorkingSet => 5
    case MemoryLimit => 6
    case FsReadBytes => 7
    case FsReads => 8
    case FsWriteBytes => 9
    case FsWrites => 10
    case _ => 11
  }

  /** `ms` has no repeats and ranks from `lo` up to below `hi`. */
  predicate Ranked(ms: seq<Metric>, lo: nat, hi: nat) {
    Distinct(ms) && forall x :: x in ms ==> lo <= PlanRank(x) < hi
  }

  /** Ranked lists over adjacent ranges concatenate to a ranked list over their union. */
  lemma RankedConcat(a: seq<Metric>, b: seq<Metric>, lo: nat, mid: nat, hi: nat)
    requires Ranked(a, lo, mid) && Ranked(b, mid, hi) && lo <= mid <= hi
    ensures Ranked(a + b, lo, hi)
  {
    forall i, j | 0 <= i < j < |a + b| ensures (a + b)[i] != (a + b)[j] {
      if j < |a| {
        assert (a + b)[i] == a[i] && (a + b)[j] == a[j];
      } else if i >= |a| {
        assert (a + b)[i] == b[i - |a|] && (a + b)[j] == b[j - |a|];
      } else {
        assert (a + b)[i] == a[i] && (a + b)[j] == b[j - |a|];
        assert a[i] in a && b[j - |a|] in b;
      }
    }
    forall x | x in a + b ensures lo <= PlanRank(x) < hi {
      if x !in a {
        assert x in b;
      }
    }
  }

  lemma CpuRanked(info: ContainerInfo)
    ensures Ranked([CpuUsageSeconds, CpuSystemSeconds], 0, 2)
    ensures Ranked(if info.nanoCpus > 0 then [CpuQuota] else [], 2, 3)
  {
  }

  lemma MemoryRanked(info: ContainerInfo)
    ensures Ranked([ContainerLastSeen, MemoryUsage, MemoryWorkingSet], 3, 6)
    ensures Ranked(if info.memory > 0 then [MemoryLimit] else [], 6, 7)
  {
  }

  lemma StorageRanked()
    ensures Ranked([FsReadBytes, FsReads, FsWriteBytes, FsWrites], 7, 11)
  {
  }

  lemma ContainerPlanIsDistinct(info: ContainerInfo)
    ensures Distinct(ContainerPlan(info))
  {
    var cpu: seq<Metric> := if info.nanoCpus > 0 then [CpuQuota] else [];
    var mem: seq<Metric> := if info.memory > 0 then [MemoryLimit] else [];
    var head: seq<Metric> := [CpuUsageSeconds, CpuSystemSeconds];
    var middle: seq<Metric> := [ContainerLastSeen, MemoryUsage, MemoryWorkingSet];
    var fs: seq<Metric> := [FsReadBytes, FsReads, FsWriteBytes, FsWrites];
    CpuRanked(info);
    MemoryRanked(info);
    StorageRanked();
    RankedConcat(head, cpu, 0, 2, 3);
    RankedConcat(head + cpu, middle, 0, 3, 6);
    RankedConcat(head + cpu + middle, mem, 0, 6, 7);
    RankedConcat(head + cpu + middle + mem, fs, 0, 7, 11);
  }

  /** The plan names container-scoped vectors, each at most once. */
  lemma ContainerPlanScoped(info: ContainerInfo)
    ensures ContainerScoped(ContainerPlan(info)) && Distinct(ContainerPlan(info))
  {
    ContainerPlanIsScoped(info);
    ContainerPlanIsDistinct(info);
  }

  /**
   * The plan always holds the CPU, last-seen, memory and storage vectors,
   * the quota exactly when a CPU quota is configured and the limit exactly
   * when a memory limit is.
   */
  lemma ContainerPlanMembers(info: ContainerInfo)
    ensures CpuQuota in ContainerPlan(info) <==> info.nanoCpus > 0
    ensures MemoryLimit in ContainerPlan(info) <==> info.memory > 0
    ensures forall m :: m in AlwaysWritten ==> m in ContainerPlan(info)
  {
  }

  /** Under a label map of the schema, every call of a container-scoped plan is accepted. */
  lemma WritesAllowed(schema: set<string>, ms: seq<Metric>, labels: map<string, string>, info: ContainerInfo, prev: Snapshot, cur: Snapshot)
    requires labels.Keys == schema && ContainerScoped(ms)
    ensures AllAllowed(schema, Writes(ms, labels, info, prev, cur))
  {
    forall i | 0 <= i < |ms| ensures Allowed(schema, Writes(ms, labels, info, prev, cur)[i]) {
      var m := ms[i];
      if m.IsCounter() {
        assert Sample(m, info, prev, cur) >= 0.0;
      }
    }
  }

  /**
   * Everything GatherMetrics writes for a container with a previous snapshot
   * `prev` and a new one `cur`, under its filtered label map `labels`, in
   * source order: the host series, the vectors of `plan`, then the network
   * counters of every interface present in both snapshots.
   */
  function PublishWith(store: Store, schema: set<string>, id: string, labels: map<string, string>, plan: seq<Metric>,
                       info: ContainerInfo, prev: Snapshot, cur: Snapshot, node: NodeInfo): Store
    requires |id| >= 12 && labels.Keys == schema && ContainerScoped(plan)
  {
    WritesAllowed(schema, plan, labels, info, prev, cur);
    var s0 := GaugeSet(store, schema, HostKey(node, id), 1.0);
    var s1 := Apply(s0, schema, Writes(plan, labels, info, prev, cur));
    PublishNetworkOn(s1, labels, prev, cur, Common(prev, cur))
  }

  /** The publication of a container with a previous snapshot, following its plan. */
  function PublishContainer(store: Store, schema: set<string>, id: string, labels: map<string, string>,
                            info: ContainerInfo, prev: Snapshot, cur: Snapshot, node: NodeInfo): Store
    requires |id| >= 12 && labels.Keys == schema
  {
    ContainerPlanScoped(info);
    PublishWith(store, schema, id, labels, ContainerPlan(info), info, prev, cur, node)
  }

  /** Each vector of a distinct plan is written exactly once. */
  lemma WritesEffect(store: Store, schema: set<string>, ms: seq<Metric>, labels: map<string, string>,
                     info: ContainerInfo, prev: Snapshot, cur: Snapshot, k: SeriesKey)
    requires labels.Keys == schema && ContainerScoped(ms) && Distinct(ms)
    ensures AllAllowed(schema, Writes(ms, labels, info, prev, cur))
    ensures k.labels == labels && k.metric in ms ==>
      k in Apply(store, schema, Writes(ms, labels, info, prev, cur))
      && Apply(store, schema, Writes(ms, labels, info, prev, cur))[k] == Written(k.metric, Get(store, k), Sample(k.metric, info, prev, cur))
    ensures k.labels != labels || k.metric !in ms ==> Agree(store, Apply(store, schema, Writes(ms, labels, info, prev, cur)), k)
  {
    WritesAllowed(schema, ms, labels, info, prev, cur);
    var ws := Writes(ms, labels, info, prev, cur);
    if k.labels == labels && k.metric in ms {
      var i :| 0 <= i < |ms| && ms[i] == k.metric;
      if k.metric.IsCounter() {
        ApplyAddOnce(store, schema, ws, i, k, Sample(k.metric, info, prev, cur));
      } else {
        ApplySetLast(store, schema, ws, i, k, Sample(k.metric, info, prev, cur));
      }
    } else {
      ApplyUntouched(store, schema, ws, k);
    }
  }

  /** The series publishing a container touches: its host series, its plan's vectors and its interfaces' counters. */
  function TouchedSeries(id: string, labels: map<string, string>, plan: seq<Metric>, node: NodeInfo, ifaces: set<string>): set<SeriesKey>
    requires |id| >= 12
  {
    {HostKey(node, id)} + (set m | m in plan :: SeriesKey(m, labels)) + NetKeys(labels, ifaces)
  }

  /** Every network series is a per-interface counter labelled with one of the interfaces. */
  lemma NetKeysPerInterface(labels: map<string, string>, ifaces: set<string>, k: SeriesKey)
    ensures k in NetKeys(labels, ifaces) ==> k.metric.PerInterface() && Interface in k.labels && k.labels[Interface] in ifaces
  {
    if k in NetKeys(labels, ifaces) {
      var m, n :| m in NetMetrics && n in ifaces && k == NetKey(m, labels, n);
    }
  }

  lemma PlanScopedMember(plan: seq<Metric>, m: Metric)
    requires ContainerScoped(plan)
    ensures m in plan ==> !m.PerNode() && !m.HostMeta? && !m.PerInterface()
  {
    if m in plan {
      var i :| 0 <= i < |plan| && plan[i] == m;
    }
  }

  /** The network stage adds each selected series' increment and leaves every other series alone. */
  lemma PublishNetworkOnKey(store: Store, labels: map<string, string>, prev: Snapshot, cur: Snapshot, ifaces: set<string>, k: SeriesKey)
    ensures k in NetKeys(labels, ifaces) ==>
      k in PublishNetworkOn(store, labels, prev, cur, ifaces)
      && PublishNetworkOn(store, labels, prev, cur, ifaces)[k] == Get(store, k) + NetDelta(k, prev, cur)
    ensures k !in NetKeys(labels, ifaces) ==> Agree(store, PublishNetworkOn(store, labels, prev, cur, ifaces), k)
  {
  }

  /** The increment of counter `m` on interface `n` is the increase of that counter between the snapshots. */
  lemma NetDeltaOf(m: Metric, labels: map<string, string>, n: string, prev: Snapshot, cur: Snapshot)
    requires n in Common(prev, cur)
    ensures NetDelta(NetKey(m, labels, n), prev, cur) == Increment(NetField(m, cur.networks[n]), NetField(m, prev.networks[n])) as real
  {
    assert NetKey(m, labels, n).labels[Interface] == n;
  }

  /**
   * Publishing sets the host series to 1, writes each vector of the plan
   * once (a counter grows by its sample, a gauge takes it), adds to each
   * network counter of each interface present in both snapshots that
   * counter's increase, and leaves every other series as it was.
   */
  lemma PublishWithEffect(store: Store, schema: set<string>, id: string, labels: map<string, string>, plan: seq<Metric>,
                          info: ContainerInfo, prev: Snapshot, cur: Snapshot, node: NodeInfo, k: SeriesKey)
    requires |id| >= 12 && labels.Keys == schema && ContainerScoped(plan) && Distinct(plan)
    ensures var r := PublishWith(store, schema, id, labels, plan, info, prev, cur, node);
      && (k == HostKey(node, id) ==> k in r && r[k] == 1.0)
      && (k.labels == labels && k.metric in plan ==>
            k in r && r[k] == Written(k.metric, Get(store, k), Sample(k.metric, info, prev, cur)))
      && (k in NetKeys(labels, Common(prev, cur)) ==> k in r && r[k] == Get(store, k) + NetDelta(k, prev, cur))
      && (k !in TouchedSeries(id, labels, plan, node, Common(prev, cur)) ==> Agree(store, r, k))
  {
    var host := HostKey(node, id);
    var ifaces := Common(prev, cur);
    var s0 := GaugeSet(store, schema, host, 1.0);
    WritesAllowed(schema, plan, labels, info, prev, cur);
    var s1 := Apply(s0, schema, Writes(plan, labels, info, prev, cur));
    var r := PublishNetworkOn(s1, labels, prev, cur, ifaces);
    assert r == PublishWith(store, schema, id, labels, plan, info, prev, cur, node);
    WritesEffect(s0, schema, plan, labels, info, prev, cur, k);
    PublishNetworkOnKey(s1, labels, prev, cur, ifaces, k);
    NetKeysPerInterface(labels, ifaces, k);
    PlanScopedMember(plan, k.metric);
    if k == host {
      assert k.metric !in plan && k !in NetKeys(labels, ifaces);
    } else if k.labels == labels && k.metric in plan {
      assert k !in NetKeys(labels, ifaces);
      assert Get(s0, k) == Get(store, k);
    } else if k in NetKeys(labels, ifaces) {
      assert k.metric !in plan;
      assert Get(s1, k) == Get(store, k);
    } else {
      assert k !in (set m | m in plan :: SeriesKey(m, labels));
    }
  }

  /**
   * Publishing a container sets its host series to 1; each CPU, last-seen,
   * memory and storage vector takes its sample (counters grow by it), the
   * quota and the limit only when configured; each network counter of each
   * interface in both snapshots grows by that counter's increase; every
   * other series keeps its value.
   */
  lemma PublishContainerEffect(store: Store, schema: set<string>, id: string, labels: map<string, string>,
                               info: ContainerInfo, prev: Snapshot, cur: Snapshot, node: NodeInfo, k: SeriesKey)
    requires |id| >= 12 && labels.Keys == schema
    ensures var r := PublishContainer(store, schema, id, labels, info, prev, cur, node);
      && (k == HostKey(node, id) ==> k in r && r[k] == 1.0)
      && (k.labels == labels && k.metric in ContainerPlan(info) ==>
            k in r && r[k] == Written(k.metric, Get(store, k), Sample(k.metric, info, prev, cur)))
      && (k in NetKeys(labels, Common(prev, cur)) ==> k in r && r[k] == Get(store, k) + NetDelta(k, prev, cur))
      && (k !in TouchedSeries(id, labels, ContainerPlan(info), node, Common(prev, cur)) ==> Agree(store, r, k))
  {
    ContainerPlanScoped(info);
    PublishWithEffect(store, schema, id, labels, ContainerPlan(info), info, prev, cur, node, k);
  }

  lemma SampleNonNegative(m: Metric, info: ContainerInfo, prev: Snapshot, cur: Snapshot)
    requires m.IsCounter()
    ensures Sample(m, info, prev, cur) >= 0.0
  {
  }

  /** Publishing a container never lowers a counter series. */
  lemma PublishContainerMonotonic(store: Store, schema: set<string>, id: string, labels: map<string, string>,
                                  info: ContainerInfo, prev: Snapshot, cur: Snapshot, node: NodeInfo, k: SeriesKey)
    requires |id| >= 12 && labels.Keys == schema && k.metric.IsCounter()
    ensures Get(PublishContainer(store, schema, id, labels, info, prev, cur, node), k) >= Get(store, k)
  {
    PublishContainerEffect(store, schema, id, labels, info, prev, cur, node, k);
    SampleNonNegative(k.metric, info, prev, cur);
  }

  lemma HostAccepted(schema: set<string>, node: NodeInfo, id: string)
    requires |id| >= 12
    ensures Accepts(schema, HostKey(node, id))
  {
    assert HostKey(node, id).labels.Keys == HostLabelNames;
  }

  lemma NetKeyAccepted(schema: set<string>, labels: map<string, string>, m: Metric, n: string)
    requires labels.Keys == schema && m.PerInterface()
    ensures Accepts(schema, NetKey(m, labels, n))
  {
  }

  lemma PlanKeyAccepted(schema: set<string>, labels: map<string, string>, m: Metric)
    requires labels.Keys == schema && !m.PerNode() && !m.HostMeta? && !m.PerInterface()
    ensures Accepts(schema, SeriesKey(m, labels))
  {
  }

  /** The series publishing touches are each accepted by their vector. */
  lemma TouchedAccepted(schema: set<string>, id: string, labels: map<string, string>, plan: seq<Metric>, node: NodeInfo,
                        ifaces: set<string>, k: SeriesKey)
    requires |id| >= 12 && labels.Keys == schema && ContainerScoped(plan)
    requires k in TouchedSeries(id, labels, plan, node, ifaces)
    ensures Accepts(schema, k)
  {
    if k in NetKeys(labels, ifaces) {
      var m, n :| m in NetMetrics && n in ifaces && k == NetKey(m, labels, n);
      NetKeysPerInterface(labels, ifaces, k);
      NetKeyAccepted(schema, labels, m, n);
    } else if k == HostKey(node, id) {
      HostAccepted(schema, node, id);
    } else {
      var m :| m in plan && k == SeriesKey(m, labels);
      PlanScopedMember(plan, m);
      PlanKeyAccepted(schema, labels, m);
    }
  }

  /** Every series publishing a container creates is accepted by its vector, so a conforming store stays conforming. */
  lemma PublishContainerConforming(store: Store, schema: set<string>, id: string, labels: map<string, string>,
                                   info: ContainerInfo, prev: Snapshot, cur: Snapshot, node: NodeInfo)
    requires |id| >= 12 && labels.Keys == schema && Conforming(store, schema)
    ensures Conforming(PublishContainer(store, schema, id, labels, info, prev, cur, node), schema)
  {
    ContainerPlanScoped(info);
    forall k | k in PublishWith(store, schema, id, labels, ContainerPlan(info), info, prev, cur, node)
      ensures Accepts(schema, k)
    {
      PublishWithEffect(store, schema, id, labels, ContainerPlan(info), info, prev, cur, node, k);
      if k !in store {
        TouchedAccepted(schema, id, labels, ContainerPlan(info), node, Common(prev, cur), k);
      }
    }
  }
}

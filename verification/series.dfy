/**
 * An abstract view of the Prometheus metric vectors the exporter writes to:
 * every published series is a (metric, label map) key holding a value. A
 * vector accepts a write only under exactly its declared label names.
 */
module Series {
  import opened Labeling

  const NodeIdLabel: string := "node_id"
  const NodeNameLabel: string := "node_name"
  const HostnameLabel: string := "host"
  const SwarmNodeIdLabel: string := "container_label_com_docker_swarm_node_id"

  /** The label names of the three per-node gauges. */
  const NodeLabelNames: set<string> := {NodeIdLabel, SwarmNodeIdLabel, NodeNameLabel}

  /** The label names of the host_meta gauge. */
  const HostLabelNames: set<string> := {NodeIdLabel, HostnameLabel, NodeNameLabel}

  /** Every metric vector the exporter creates. */
  datatype Metric =
    | NodeMeta | MachineCpuCores | MachineMemory
    | HostMeta
    | ContainerLastSeen | CpuUsageSeconds | CpuSystemSeconds | CpuQuota
    | MemoryUsage | MemoryWorkingSet | MemoryLimit
    | NetRxBytes | NetRxErrors | NetRxDropped | NetRxPackets
    | NetTxBytes | NetTxErrors | NetTxDropped | NetTxPackets
    | FsReadBytes | FsReads | FsWriteBytes | FsWrites
  {
    predicate PerNode() {
      NodeMeta? || MachineCpuCores? || MachineMemory?
    }

    predicate PerInterface() {
      NetRxBytes? || NetRxErrors? || NetRxDropped? || NetRxPackets?
      || NetTxBytes? || NetTxErrors? || NetTxDropped? || NetTxPackets?
    }

    predicate IsCounter() {
      CpuUsageSeconds? || CpuSystemSeconds? || PerInterface()
      || FsReadBytes? || FsReads? || FsWriteBytes? || FsWrites?
    }
  }

  /** The per-interface counters, in the order GatherMetrics updates them. */
  const NetMetrics: seq<Metric> :=
    [NetRxBytes, NetRxErrors, NetRxDropped, NetRxPackets, NetTxBytes, NetTxErrors, NetTxDropped, NetTxPackets]

  /** The vectors DeleteMetrics visits: every per-container vector except host_meta, in creation order. */
  const ContainerMetrics: seq<Metric> :=
    [ContainerLastSeen, CpuUsageSeconds, CpuSystemSeconds, CpuQuota,
     MemoryUsage, MemoryWorkingSet, MemoryLimit,
     NetRxBytes, NetRxErrors, NetRxDropped, NetRxPackets,
     NetTxBytes, NetTxErrors, NetTxDropped, NetTxPackets,
     FsReadBytes, FsReads, FsWriteBytes, FsWrites]

  /** The label names a vector is created with, given the frozen container schema. */
  function Declared(m: Metric, schema: set<string>): set<string> {
    if m.PerNode() then NodeLabelNames
    else if m.HostMeta? then HostLabelNames
    else if m.PerInterface() then schema + {Interface}
    else schema
  }

  datatype SeriesKey = SeriesKey(metric: Metric, labels: map<string, string>)

  type Store = map<SeriesKey, real>

  /** The vector of `k.metric` accepts the label map of `k`. */
  predicate Accepts(schema: set<string>, k: SeriesKey) {
    k.labels.Keys == Declared(k.metric, schema)
  }

  /** Every series in the store was written through a vector that accepted its labels. */
  predicate Conforming(store: Store, schema: set<string>) {
    forall k :: k in store ==> Accepts(schema, k)
  }

  /** The value of a series; a series never written reads as 0. */
  function Get(store: Store, k: SeriesKey): real {
    if k in store then store[k] else 0.0
  }

  /**
   * `Add` on a counter of a vector: the label map must carry exactly the
   * vector's label names and the increment must not be negative (the client
   * library panics otherwise); the series grows by `d`.
   */
  function CounterAdd(store: Store, schema: set<string>, k: SeriesKey, d: real): (r: Store)
    requires k.metric.IsCounter() && Accepts(schema, k) && d >= 0.0
    ensures k in r && r[k] == Get(store, k) + d >= Get(store, k)
  {
    store[k := Get(store, k) + d]
  }

  /**
   * `Set` on a gauge of a vector: the label map must carry exactly the
   * vector's label names; the series takes value `v`.
   */
  function GaugeSet(store: Store, schema: set<string>, k: SeriesKey, v: real): (r: Store)
    requires !k.metric.IsCounter() && Accepts(schema, k)
    ensures k in r && r[k] == v
  {
    store[k := v]
  }

  /** The series DeleteMetrics removes for one label map: that map in every vector of the list. */
  function MetricsKeys(labels: map<string, string>): set<SeriesKey> {
    set m | m in ContainerMetrics :: SeriesKey(m, labels)
  }

  /** `a` and `b` hold the same value, or both nothing, under `k`. */
  predicate Agree(a: Store, b: Store, k: SeriesKey) {
    (k in a <==> k in b) && (k in a ==> a[k] == b[k])
  }

  /** One call on a vector: `Add` on a counter or `Set` on a gauge, with the series it addresses. */
  datatype Write = Add(key: SeriesKey, delta: real) | Set(key: SeriesKey, value: real)

  /** A write the vector performs without panicking. */
  predicate Allowed(schema: set<string>, w: Write) {
    match w
    case Add(k, d) => k.metric.IsCounter() && Accepts(schema, k) && d >= 0.0
    case Set(k, _) => !k.metric.IsCounter() && Accepts(schema, k)
  }

  /** Every write of `ws` is allowed. */
  predicate AllAllowed(schema: set<string>, ws: seq<Write>) {
    forall i :: 0 <= i < |ws| ==> Allowed(schema, ws[i])
  }

  function Perform(store: Store, schema: set<string>, w: Write): Store
    requires Allowed(schema, w)
  {
    match w
    case Add(k, d) => CounterAdd(store, schema, k, d)
    case Set(k, v) => GaugeSet(store, schema, k, v)
  }

  /** The series addressed by some write of `ws`. */
  function Addressed(ws: seq<Write>): set<SeriesKey> {
    set i | 0 <= i < |ws| :: ws[i].key
  }

  /** The store after the writes `ws`, performed one after the other. */
  function Apply(store: Store, schema: set<string>, ws: seq<Write>): Store
    requires AllAllowed(schema, ws)
    decreases |ws|
  {
    if ws == [] then store else Apply(Perform(store, schema, ws[0]), schema, ws[1..])
  }

  /** The writes create exactly the series they address and remove none. */
  lemma {:induction false} ApplyKeys(store: Store, schema: set<string>, ws: seq<Write>)
    requires AllAllowed(schema, ws)
    ensures Apply(store, schema, ws).Keys == store.Keys + Addressed(ws)
    decreases |ws|
  {
    if ws != [] {
      ApplyKeys(Perform(store, schema, ws[0]), schema, ws[1..]);
      assert Addressed(ws) == {ws[0].key} + Addressed(ws[1..]) by {
        forall k | k in Addressed(ws) ensures k in {ws[0].key} + Addressed(ws[1..]) {
          var i :| 0 <= i < |ws| && ws[i].key == k;
          if i > 0 {
            assert ws[1..][i - 1].key == k;
          }
        }
        forall k | k in Addressed(ws[1..]) ensures k in Addressed(ws) {
          var i :| 0 <= i < |ws[1..]| && ws[1..][i].key == k;
          assert ws[i + 1].key == k;
        }
      }
    }
  }

  /** A series no write addresses is left as it was. */
  lemma {:induction false} ApplyUntouched(store: Store, schema: set<string>, ws: seq<Write>, k: SeriesKey)
    requires AllAllowed(schema, ws)
    requires forall i :: 0 <= i < |ws| ==> ws[i].key != k
    ensures Agree(store, Apply(store, schema, ws), k)
    decreases |ws|
  {
    if ws != [] {
      ApplyUntouched(Perform(store, schema, ws[0]), schema, ws[1..], k);
    }
  }

  /** A counter addressed by exactly one write, `Add(k, d)`, ends up `d` higher. */
  lemma {:induction false} ApplyAddOnce(store: Store, schema: set<string>, ws: seq<Write>, i: int, k: SeriesKey, d: real)
    requires AllAllowed(schema, ws)
    requires 0 <= i < |ws| && ws[i] == Add(k, d)
    requires forall j :: 0 <= j < |ws| && j != i ==> ws[j].key != k
    ensures k in Apply(store, schema, ws) && Apply(store, schema, ws)[k] == Get(store, k) + d
    decreases |ws|
  {
    var s1 := Perform(store, schema, ws[0]);
    if i == 0 {
      ApplyUntouched(s1, schema, ws[1..], k);
    } else {
      ApplyAddOnce(s1, schema, ws[1..], i - 1, k, d);
    }
  }

  /** A gauge whose last write is `Set(k, v)` ends up holding `v`. */
  lemma {:induction false} ApplySetLast(store: Store, schema: set<string>, ws: seq<Write>, i: int, k: SeriesKey, v: real)
    requires AllAllowed(schema, ws)
    requires 0 <= i < |ws| && ws[i] == Set(k, v)
    requires forall j :: i < j < |ws| ==> ws[j].key != k
    ensures k in Apply(store, schema, ws) && Apply(store, schema, ws)[k] == v
    decreases |ws|
  {
    var s1 := Perform(store, schema, ws[0]);
    if i == 0 {
      ApplyUntouched(s1, schema, ws[1..], k);
    } else {
      ApplySetLast(s1, schema, ws[1..], i - 1, k, v);
    }
  }

  /** Counters only grow: no sequence of allowed writes lowers a counter series. */
  lemma {:induction false} ApplyMonotonic(store: Store, schema: set<string>, ws: seq<Write>, k: SeriesKey)
    requires AllAllowed(schema, ws) && k.metric.IsCounter()
    ensures Get(Apply(store, schema, ws), k) >= Get(store, k)
    decreases |ws|
  {
    if ws != [] {
      ApplyMonotonic(Perform(store, schema, ws[0]), schema, ws[1..], k);
    }
  }

  /** Allowed writes keep a conforming store conforming. */
  lemma {:induction false} ApplyConforming(store: Store, schema: set<string>, ws: seq<Write>)
    requires AllAllowed(schema, ws) && Conforming(store, schema)
    ensures Conforming(Apply(store, schema, ws), schema)
    decreases |ws|
  {
    if ws != [] {
      ApplyConforming(Perform(store, schema, ws[0]), schema, ws[1..]);
    }
  }

  /** No two writes of `ws` address the same series. */
  predicate DistinctSeries(ws: seq<Write>) {
    forall i, j :: 0 <= i < j < |ws| ==> ws[i].key != ws[j].key
  }

  /** Among writes to distinct series, the counter of an `Add(k, d)` ends up `d` higher. */
  lemma ApplyAdd(store: Store, schema: set<string>, ws: seq<Write>, k: SeriesKey, d: real)
    requires AllAllowed(schema, ws) && DistinctSeries(ws) && Add(k, d) in ws
    ensures Get(Apply(store, schema, ws), k) == Get(store, k) + d
  {
    var i :| 0 <= i < |ws| && ws[i] == Add(k, d);
    ApplyAddOnce(store, schema, ws, i, k, d);
  }

  /** Among writes to distinct series, the gauge of a `Set(k, v)` ends up holding `v`. */
  lemma ApplySet(store: Store, schema: set<string>, ws: seq<Write>, k: SeriesKey, v: real)
    requires AllAllowed(schema, ws) && DistinctSeries(ws) && Set(k, v) in ws
    ensures k in Apply(store, schema, ws) && Apply(store, schema, ws)[k] == v
  {
    var i :| 0 <= i < |ws| && ws[i] == Set(k, v);
    ApplySetLast(store, schema, ws, i, k, v);
  }
}

/**
 * One gathering cycle as a function of the exporter's state: the node
 * gauges, the pass over the listed containers (metadata for new ids,
 * publication against the previous snapshot, the new snapshot stored) and
 * the eviction of every tracked container that is no longer listed.
 */
module Cycle {
  import opened Docker
  import opened Labeling
  import opened Schema
  import opened Series
  import opened Deltas

  /** What the exporter keeps between cycles: metadata and last snapshot per container id, and the series. */
  datatype State = State(infos: map<string, ContainerInfo>, stats: map<string, Snapshot>, store: Store)

  /** Every tracked container has its metadata, and every tracked id is long enough to be shortened to twelve characters. */
  predicate Coherent(st: State) {
    st.stats.Keys == st.infos.Keys && forall id :: id in st.stats ==> |id| >= 12
  }

  /**
   * What the Docker daemon supplies for the listed ids: ids of at least
   * twelve characters, a snapshot for each, and metadata for each id the
   * exporter does not already know.
   */
  predicate Listed(infos: map<string, ContainerInfo>, live: seq<string>, inspect: map<string, ContainerInfo>, snaps: map<string, Snapshot>) {
    forall i :: 0 <= i < |live| ==> |live[i]| >= 12 && live[i] in snaps && (live[i] in infos || live[i] in inspect)
  }

  /** The daemon lists each container once. */
  predicate UniqueIds(live: seq<string>) {
    forall i, j :: 0 <= i < j < |live| ==> live[i] != live[j]
  }

  /** Either the schema fits the label maps, or no listed container has a previous snapshot, so nothing is published. */
  predicate Ready(cfg: Config, schema: set<string>, stats: map<string, Snapshot>, live: seq<string>) {
    Fits(cfg, schema) || forall i :: 0 <= i < |live| ==> live[i] !in stats
  }

  function NodeKey(m: Metric, node: NodeInfo): SeriesKey {
    SeriesKey(m, map[NodeIdLabel := node.nodeId, SwarmNodeIdLabel := node.nodeId, NodeNameLabel := node.name])
  }

  lemma NodeKeyAccepted(schema: set<string>, m: Metric, node: NodeInfo)
    requires m.PerNode()
    ensures Accepts(schema, NodeKey(m, node)) && !m.IsCounter()
  {
    assert NodeKey(m, node).labels.Keys == NodeLabelNames;
  }

  /** The node gauges: presence 1, the CPU count and the memory size. */
  function PublishNode(store: Store, schema: set<string>, node: NodeInfo): Store {
    NodeKeyAccepted(schema, NodeMeta, node);
    NodeKeyAccepted(schema, MachineCpuCores, node);
    NodeKeyAccepted(schema, MachineMemory, node);
    var s0 := GaugeSet(store, schema, NodeKey(NodeMeta, node), 1.0);
    var s1 := GaugeSet(s0, schema, NodeKey(MachineCpuCores, node), node.cpus as real);
    GaugeSet(s1, schema, NodeKey(MachineMemory, node), node.memTotal as real)
  }

  /** The node gauges take the node's figures; no other series changes. */
  lemma PublishNodeEffect(store: Store, schema: set<string>, node: NodeInfo, k: SeriesKey)
    ensures var r := PublishNode(store, schema, node);
      && r[NodeKey(NodeMeta, node)] == 1.0
      && r[NodeKey(MachineCpuCores, node)] == node.cpus as real
      && r[NodeKey(MachineMemory, node)] == node.memTotal as real
      && (k != NodeKey(NodeMeta, node) && k != NodeKey(MachineCpuCores, node) && k != NodeKey(MachineMemory, node) ==> Agree(store, r, k))
  {
  }

  /** The metadata the loop uses for a listed id: the stored one, or a fresh inspection for a new id. */
  function KnownInfos(infos: map<string, ContainerInfo>, id: string, inspect: map<string, ContainerInfo>): (r: map<string, ContainerInfo>)
    requires id in infos || id in inspect
    ensures r.Keys == infos.Keys + {id}
    ensures forall x :: x in infos ==> r[x] == infos[x]
    ensures id !in infos ==> r[id] == inspect[id]
  {
    if id in infos then infos else infos[id := inspect[id]]
  }

  /**
   * One pass of the container loop: inspect a new id, publish against the
   * previous snapshot when there is one, then store the new snapshot.
   */
  function Observe(st: State, cfg: Config, schema: set<string>, node: NodeInfo, id: string,
                   inspect: map<string, ContainerInfo>, snaps: map<string, Snapshot>): (r: State)
    requires |id| >= 12 && id in snaps && (id in st.infos || id in inspect)
    requires id in st.stats ==> Fits(cfg, schema)
    ensures r.stats == st.stats[id := snaps[id]]
    ensures r.infos == KnownInfos(st.infos, id, inspect)
  {
    var infos := KnownInfos(st.infos, id, inspect);
    var store :=
      if id in st.stats then
        FitsLabels(cfg, schema, id, infos[id]);
        PublishContainer(st.store, schema, id, Labels(cfg, schema, id, infos[id], true), infos[id], st.stats[id], snaps[id], node)
      else st.store;
    State(infos, st.stats[id := snaps[id]], store)
  }

  /**
   * The container loop over `live`, in order. Afterwards every listed id
   * has its new snapshot and its metadata, metadata already known is kept
   * as it was, and unlisted ids keep their snapshot.
   */
  function ObserveAll(st: State, cfg: Config, schema: set<string>, node: NodeInfo, live: seq<string>,
                      inspect: map<string, ContainerInfo>, snaps: map<string, Snapshot>): (r: State)
    requires Listed(st.infos, live, inspect, snaps) && UniqueIds(live) && Ready(cfg, schema, st.stats, live)
    ensures forall id :: id in r.stats <==> id in st.stats || id in live
    ensures forall id :: id in r.infos <==> id in st.infos || id in live
    decreases |live|
  {
    if live == [] then st
    else
      var init, id := live[..|live| - 1], live[|live| - 1];
      LastOfListed(st.infos, st.stats, cfg, schema, live, inspect, snaps);
      var mid := ObserveAll(st, cfg, schema, node, init, inspect, snaps);
      Observe(mid, cfg, schema, node, id, inspect, snaps)
  }

  /** A prefix of the container list is listed, duplicate-free and ready as well. */
  lemma PrefixListed(infos: map<string, ContainerInfo>, stats: map<string, Snapshot>, cfg: Config, schema: set<string>,
                     live: seq<string>, inspect: map<string, ContainerInfo>, snaps: map<string, Snapshot>, i: int)
    requires Listed(infos, live, inspect, snaps) && UniqueIds(live) && Ready(cfg, schema, stats, live) && 0 <= i <= |live|
    ensures Listed(infos, live[..i], inspect, snaps) && UniqueIds(live[..i]) && Ready(cfg, schema, stats, live[..i])
  {
  }

  /** `st` is where the container loop over `live`, started in `s0`, stands after its first `i` passes. */
  predicate LoopReached(st: State, s0: State, cfg: Config, schema: set<string>, node: NodeInfo, live: seq<string>,
                        inspect: map<string, ContainerInfo>, snaps: map<string, Snapshot>, i: int)
    requires Listed(s0.infos, live, inspect, snaps) && UniqueIds(live) && Ready(cfg, schema, s0.stats, live) && 0 <= i <= |live|
  {
    PrefixListed(s0.infos, s0.stats, cfg, schema, live, inspect, snaps, i);
    st == ObserveAll(s0, cfg, schema, node, live[..i], inspect, snaps)
  }

  /** One more pass of the container loop, over the next listed id. */
  lemma ObserveAllSnoc(st: State, cfg: Config, schema: set<string>, node: NodeInfo, live: seq<string>,
                       inspect: map<string, ContainerInfo>, snaps: map<string, Snapshot>, i: int)
    requires Listed(st.infos, live, inspect, snaps) && UniqueIds(live) && Ready(cfg, schema, st.stats, live) && 0 <= i < |live|
    ensures Listed(st.infos, live[..i], inspect, snaps) && UniqueIds(live[..i]) && Ready(cfg, schema, st.stats, live[..i])
    ensures Listed(st.infos, live[..i + 1], inspect, snaps) && UniqueIds(live[..i + 1]) && Ready(cfg, schema, st.stats, live[..i + 1])
    ensures var mid := ObserveAll(st, cfg, schema, node, live[..i], inspect, snaps);
      && |live[i]| >= 12 && live[i] in snaps && (live[i] in mid.infos || live[i] in inspect)
      && (live[i] in mid.stats ==> Fits(cfg, schema))
      && ObserveAll(st, cfg, schema, node, live[..i + 1], inspect, snaps) == Observe(mid, cfg, schema, node, live[i], inspect, snaps)
  {
    PrefixListed(st.infos, st.stats, cfg, schema, live, inspect, snaps, i + 1);
    LastOfListed(st.infos, st.stats, cfg, schema, live[..i + 1], inspect, snaps);
    assert live[..i + 1][..i] == live[..i];
  }

  /** Splitting off the last listed id: the rest is listed as well and does not contain it. */
  lemma LastOfListed(infos: map<string, ContainerInfo>, stats: map<string, Snapshot>, cfg: Config, schema: set<string>,
                     live: seq<string>, inspect: map<string, ContainerInfo>, snaps: map<string, Snapshot>)
    requires live != [] && Listed(infos, live, inspect, snaps) && UniqueIds(live) && Ready(cfg, schema, stats, live)
    ensures var init, id := live[..|live| - 1], live[|live| - 1];
      && Listed(infos, init, inspect, snaps) && UniqueIds(init) && Ready(cfg, schema, stats, init)
      && id !in init && (forall x :: x in live <==> x in init || x == id)
      && (id in stats ==> Fits(cfg, schema))
  {
    var init, id := live[..|live| - 1], live[|live| - 1];
    assert live == init + [id];
    forall j | 0 <= j < |init| ensures init[j] != id {
      assert init[j] == live[j];
    }
  }

  /**
   * After the container loop every listed id has its new snapshot, unlisted
   * ids keep theirs, metadata already known is never refetched or
   * overwritten, and a new id carries the metadata its inspection returned.
   */
  lemma {:induction false} ObserveAllTracks(st: State, cfg: Config, schema: set<string>, node: NodeInfo, live: seq<string>,
                                            inspect: map<string, ContainerInfo>, snaps: map<string, Snapshot>)
    requires Listed(st.infos, live, inspect, snaps) && UniqueIds(live) && Ready(cfg, schema, st.stats, live)
    ensures var r := ObserveAll(st, cfg, schema, node, live, inspect, snaps);
      && (forall id :: id in live ==> r.stats[id] == snaps[id])
      && (forall id :: id in st.stats && id !in live ==> r.stats[id] == st.stats[id])
      && (forall id :: id in st.infos ==> r.infos[id] == st.infos[id])
      && (forall id :: id in live && id !in st.infos ==> r.infos[id] == inspect[id])
    decreases |live|
  {
    if live != [] {
      LastOfListed(st.infos, st.stats, cfg, schema, live, inspect, snaps);
      ObserveAllTracks(st, cfg, schema, node, live[..|live| - 1], inspect, snaps);
    }
  }

  /** A loop over containers none of which has a previous snapshot publishes nothing. */
  lemma {:induction false} ObserveAllSilent(st: State, cfg: Config, schema: set<string>, node: NodeInfo, live: seq<string>,
                                            inspect: map<string, ContainerInfo>, snaps: map<string, Snapshot>)
    requires Listed(st.infos, live, inspect, snaps) && UniqueIds(live) && Ready(cfg, schema, st.stats, live)
    requires forall i :: 0 <= i < |live| ==> live[i] !in st.stats
    ensures ObserveAll(st, cfg, schema, node, live, inspect, snaps).store == st.store
    decreases |live|
  {
    if live != [] {
      LastOfListed(st.infos, st.stats, cfg, schema, live, inspect, snaps);
      ObserveAllSilent(st, cfg, schema, node, live[..|live| - 1], inspect, snaps);
    }
  }

  /** The container loop never lowers a counter series. */
  lemma {:induction false} ObserveAllMonotonic(st: State, cfg: Config, schema: set<string>, node: NodeInfo, live: seq<string>,
                                               inspect: map<string, ContainerInfo>, snaps: map<string, Snapshot>, k: SeriesKey)
    requires Listed(st.infos, live, inspect, snaps) && UniqueIds(live) && Ready(cfg, schema, st.stats, live)
    requires k.metric.IsCounter()
    ensures Get(ObserveAll(st, cfg, schema, node, live, inspect, snaps).store, k) >= Get(st.store, k)
    decreases |live|
  {
    if live != [] {
      var init, id := live[..|live| - 1], live[|live| - 1];
      LastOfListed(st.infos, st.stats, cfg, schema, live, inspect, snaps);
      ObserveAllMonotonic(st, cfg, schema, node, init, inspect, snaps, k);
      var mid := ObserveAll(st, cfg, schema, node, init, inspect, snaps);
      if id in mid.stats {
        var info := KnownInfos(mid.infos, id, inspect)[id];
        FitsLabels(cfg, schema, id, info);
        PublishContainerMonotonic(mid.store, schema, id, Labels(cfg, schema, id, info, true), info, mid.stats[id], snaps[id], node, k);
      }
    }
  }

  /** The container loop only creates series their vectors accept. */
  lemma {:induction false} ObserveAllConforming(st: State, cfg: Config, schema: set<string>, node: NodeInfo, live: seq<string>,
                                                inspect: map<string, ContainerInfo>, snaps: map<string, Snapshot>)
    requires Listed(st.infos, live, inspect, snaps) && UniqueIds(live) && Ready(cfg, schema, st.stats, live)
    requires Conforming(st.store, schema)
    ensures Conforming(ObserveAll(st, cfg, schema, node, live, inspect, snaps).store, schema)
    decreases |live|
  {
    if live != [] {
      var init, id := live[..|live| - 1], live[|live| - 1];
      LastOfListed(st.infos, st.stats, cfg, schema, live, inspect, snaps);
      ObserveAllConforming(st, cfg, schema, node, init, inspect, snaps);
      var mid := ObserveAll(st, cfg, schema, node, init, inspect, snaps);
      if id in mid.stats {
        var info := KnownInfos(mid.infos, id, inspect)[id];
        FitsLabels(cfg, schema, id, info);
        PublishContainerConforming(mid.store, schema, id, Labels(cfg, schema, id, info, true), info, mid.stats[id], snaps[id], node);
      }
    }
  }

  /**
   * A host_meta series naming a container by its short id `short`, under
   * whatever node identity the cycle that wrote it had.
   */
  predicate HostOf(k: SeriesKey, short: string) {
    k.metric == HostMeta && HostnameLabel in k.labels && k.labels[HostnameLabel] == short
  }

  /**
   * The series the exporter writes for a container with label map `base`
   * and short id `short`: its host series, and every per-container vector
   * under `base` with or without an `interface` label.
   */
  predicate Owned(k: SeriesKey, base: map<string, string>, short: string) {
    HostOf(k, short) || (k.metric in ContainerMetrics && k.labels - {Interface} == base)
  }

  /** The stored host series of the container with short id `short`. */
  function HostSeries(store: Store, short: string): set<SeriesKey> {
    set k | k in store && HostOf(k, short)
  }

  /** The series under `base` with an `interface` label naming one of `ifaces`, in every vector DeleteMetrics visits. */
  function InterfaceKeys(base: map<string, string>, ifaces: set<string>): set<SeriesKey> {
    set m, n | m in ContainerMetrics && n in ifaces :: SeriesKey(m, base[Interface := n])
  }

  /** One more interface deleted: its series in every vector DeleteMetrics visits. */
  lemma InterfaceKeysStep(base: map<string, string>, ifaces: set<string>, n: string)
    ensures InterfaceKeys(base, ifaces + {n}) == InterfaceKeys(base, ifaces) + MetricsKeys(base[Interface := n])
  {
  }

  /**
   * Eviction of one container as written: DeleteMetrics under its label
   * map, again once per interface of its last snapshot, then its host
   * series.
   */
  function EvictAsWritten(store: Store, base: map<string, string>, last: Snapshot, host: SeriesKey): Store {
    map k | k in store && k !in MetricsKeys(base) && k !in InterfaceKeys(base, last.networks.Keys) && k != host :: store[k]
  }

  /**
   * Eviction of one container that removes everything it owns, whatever
   * interfaces its series name and whatever node identity its host series
   * carry.
   */
  function Purge(store: Store, base: map<string, string>, short: string): Store {
    map k | k in store && !Owned(k, base, short) :: store[k]
  }

  /** Removing the `interface` label recovers the container's label map. */
  lemma StripInterface(base: map<string, string>, n: string)
    requires Interface !in base
    ensures base[Interface := n] - {Interface} == base
  {
  }

  /** Every per-interface counter is a vector DeleteMetrics visits. */
  lemma NetMetricIsContainerMetric(m: Metric)
    requires m in NetMetrics
    ensures m in ContainerMetrics
  {
  }

  /**
   * As written, eviction leaves behind the network series of an interface
   * the container had once but not in its last snapshot.
   */
  lemma StaleInterfaceSurvives(store: Store, base: map<string, string>, last: Snapshot, node: NodeInfo, id: string, m: Metric, n: string)
    requires m in NetMetrics && n !in last.networks && Interface !in base && |id| >= 12
    requires NetKey(m, base, n) in store
    ensures Owned(NetKey(m, base, n), base, id[..12])
    ensures NetKey(m, base, n) in EvictAsWritten(store, base, last, HostKey(node, id))
  {
    var k := NetKey(m, base, n);
    StripInterface(base, n);
    NetMetricIsContainerMetric(m);
    forall m' | m' in ContainerMetrics ensures SeriesKey(m', base) != k {
      assert Interface in k.labels;
    }
    forall m', n' | m' in ContainerMetrics && n' in last.networks ensures SeriesKey(m', base[Interface := n']) != k {
      assert base[Interface := n'][Interface] == n';
    }
  }

  /**
   * As written, eviction deletes the host series under the evicting
   * cycle's node identity only: one the container got in a cycle whose
   * node id or name differed (an engine query that failed and left them
   * empty, a renamed node) stays behind.
   */
  lemma StaleHostSurvives(store: Store, base: map<string, string>, last: Snapshot, node: NodeInfo, earlier: NodeInfo, id: string)
    requires |id| >= 12 && HostKey(earlier, id) in store
    requires earlier.nodeId != node.nodeId || earlier.name != node.name
    ensures Owned(HostKey(earlier, id), base, id[..12])
    ensures HostKey(earlier, id) in EvictAsWritten(store, base, last, HostKey(node, id))
  {
    HostKeysDiffer(node, earlier, id);
    HostMetaIsNoContainerMetric();
  }

  /** Host series under different node identities are different series. */
  lemma HostKeysDiffer(node: NodeInfo, earlier: NodeInfo, id: string)
    requires |id| >= 12 && (earlier.nodeId != node.nodeId || earlier.name != node.name)
    ensures HostKey(earlier, id) != HostKey(node, id)
  {
    assert HostKey(earlier, id).labels[NodeIdLabel] == earlier.nodeId && HostKey(earlier, id).labels[NodeNameLabel] == earlier.name;
    assert HostKey(node, id).labels[NodeIdLabel] == node.nodeId && HostKey(node, id).labels[NodeNameLabel] == node.name;
  }

  /** DeleteMetrics never visits host_meta. */
  lemma HostMetaIsNoContainerMetric()
    ensures HostMeta !in ContainerMetrics
  {
  }

  /**
   * In Docker mode with no container at startup, evicting a gone container as
   * written also deletes every live container's series: both carry the empty
   * label map.
   */
  lemma SharedSeriesEvicted(cfg: Config, gone: string, ig: ContainerInfo, live: string, il: ContainerInfo,
                            store: Store, last: Snapshot, host: SeriesKey, m: Metric)
    requires !cfg.kubernetes && m in ContainerMetrics
    ensures var schema := FrozenSchema(cfg, map[]);
      SeriesKey(m, Labels(cfg, schema, live, il, true)) !in EvictAsWritten(store, Labels(cfg, schema, gone, ig, true), last, host)
  {
    DockerEmptyStartupMerges(cfg, gone, ig, live, il);
  }

  /**
   * Under the corrected schema, purging a container keeps every
   * per-container series of any other container, with its value.
   */
  lemma PurgeSparesOthers(cfg: Config, infos: map<string, ContainerInfo>, gone: string, ig: ContainerInfo,
                          other: string, io: ContainerInfo, store: Store, short: string, k: SeriesKey)
    requires gone != other && k in store && k.metric in ContainerMetrics
    requires k.labels - {Interface} == Labels(cfg, FixedSchema(cfg, infos), other, io, true)
    ensures k in Purge(store, Labels(cfg, FixedSchema(cfg, infos), gone, ig, true), short)
    ensures Purge(store, Labels(cfg, FixedSchema(cfg, infos), gone, ig, true), short)[k] == store[k]
  {
    FixedSchemaSeparates(cfg, infos, gone, ig, other, io);
    HostMetaIsNoContainerMetric();
  }

  /**
   * Purging leaves no series of the container behind, keeps every other
   * series, and removes everything eviction as written removes.
   */
  lemma PurgeLeavesNothing(store: Store, base: map<string, string>, last: Snapshot, node: NodeInfo, id: string)
    requires Interface !in base && |id| >= 12
    ensures forall k :: k in Purge(store, base, id[..12]) ==> !Owned(k, base, id[..12])
    ensures forall k :: k in store && !Owned(k, base, id[..12]) ==> k in Purge(store, base, id[..12]) && Purge(store, base, id[..12])[k] == store[k]
    ensures Purge(store, base, id[..12]).Keys <= EvictAsWritten(store, base, last, HostKey(node, id)).Keys
  {
    forall k | k in store && k !in EvictAsWritten(store, base, last, HostKey(node, id)) ensures Owned(k, base, id[..12]) {
      DeletedIsOwned(k, base, last.networks.Keys, node, id);
    }
  }

  /** A series eviction as written deletes is one the container owns. */
  lemma DeletedIsOwned(k: SeriesKey, base: map<string, string>, ifaces: set<string>, node: NodeInfo, id: string)
    requires Interface !in base && |id| >= 12
    requires k in MetricsKeys(base) || k in InterfaceKeys(base, ifaces) || k == HostKey(node, id)
    ensures Owned(k, base, id[..12])
  {
    if k in MetricsKeys(base) {
      var m :| m in ContainerMetrics && k == SeriesKey(m, base);
      assert k.labels - {Interface} == base;
    } else if k in InterfaceKeys(base, ifaces) {
      var m, n :| m in ContainerMetrics && n in ifaces && k == SeriesKey(m, base[Interface := n]);
      StripInterface(base, n);
    }
  }

  /** The interfaces named by the stored series a container owns under `base`. */
  function OwnedInterfaces(store: Store, base: map<string, string>): set<string> {
    set k | k in store && k.metric in ContainerMetrics && Interface in k.labels && k.labels - {Interface} == base :: k.labels[Interface]
  }

  /**
   * Purging is eviction as written with the interfaces taken from the
   * container's stored series instead of its last snapshot, and every host
   * series naming its short id instead of the one under the current node:
   * DeleteMetrics under `base`, again for each such interface, then the
   * host series.
   */
  lemma PurgeByDeletes(store: Store, base: map<string, string>, short: string)
    requires Interface !in base
    ensures Purge(store, base, short) == store - MetricsKeys(base) - InterfaceKeys(base, OwnedInterfaces(store, base)) - HostSeries(store, short)
  {
    var rhs := store - MetricsKeys(base) - InterfaceKeys(base, OwnedInterfaces(store, base)) - HostSeries(store, short);
    forall k | k in store ensures k in rhs <==> !Owned(k, base, short) {
      if Owned(k, base, short) {
        OwnedIsDeleted(store, base, short, k);
      } else {
        UnownedIsKept(store, base, short, k);
      }
    }
    assert Purge(store, base, short).Keys == rhs.Keys;
  }

  /** A stored series the container owns is one of the deletions. */
  lemma OwnedIsDeleted(store: Store, base: map<string, string>, short: string, k: SeriesKey)
    requires Interface !in base && k in store && Owned(k, base, short)
    ensures k in MetricsKeys(base) || k in InterfaceKeys(base, OwnedInterfaces(store, base)) || k in HostSeries(store, short)
  {
    if HostOf(k, short) {
      assert k in HostSeries(store, short);
    } else if Interface in k.labels {
      var n := k.labels[Interface];
      assert n in OwnedInterfaces(store, base);
      assert k.labels == base[Interface := n];
      assert k in InterfaceKeys(base, OwnedInterfaces(store, base));
    } else {
      assert k.labels == base;
      assert k in MetricsKeys(base);
    }
  }

  /** A stored series the container does not own is none of the deletions. */
  lemma UnownedIsKept(store: Store, base: map<string, string>, short: string, k: SeriesKey)
    requires Interface !in base && k in store && !Owned(k, base, short)
    ensures k !in MetricsKeys(base) && k !in InterfaceKeys(base, OwnedInterfaces(store, base)) && k !in HostSeries(store, short)
  {
    forall m | m in ContainerMetrics ensures SeriesKey(m, base) != k {
      assert base - {Interface} == base;
    }
    forall m, n | m in ContainerMetrics && n in OwnedInterfaces(store, base) ensures SeriesKey(m, base[Interface := n]) != k {
      StripInterface(base, n);
    }
  }

  /**
   * What one pass of the container loop does to the series: a container
   * seen for the first time publishes nothing; one with a previous snapshot
   * has its host series set, each vector of its plan written, each network
   * counter of each interface in both snapshots increased, and nothing else
   * changed.
   */
  lemma ObserveEffect(st: State, cfg: Config, schema: set<string>, node: NodeInfo, id: string,
                      inspect: map<string, ContainerInfo>, snaps: map<string, Snapshot>, k: SeriesKey)
    requires |id| >= 12 && id in snaps && (id in st.infos || id in inspect)
    requires id in st.stats ==> Fits(cfg, schema)
    ensures var r := Observe(st, cfg, schema, node, id, inspect, snaps);
      var info := KnownInfos(st.infos, id, inspect)[id];
      var labels := Labels(cfg, schema, id, info, true);
      && (id !in st.stats ==> r.store == st.store)
      && (id in st.stats ==>
            && (k == HostKey(node, id) ==> k in r.store && r.store[k] == 1.0)
            && (k.labels == labels && k.metric in ContainerPlan(info) ==>
                  k in r.store && r.store[k] == Written(k.metric, Get(st.store, k), Sample(k.metric, info, st.stats[id], snaps[id])))
            && (k in NetKeys(labels, Common(st.stats[id], snaps[id])) ==>
                  k in r.store && r.store[k] == Get(st.store, k) + NetDelta(k, st.stats[id], snaps[id]))
            && (k !in TouchedSeries(id, labels, ContainerPlan(info), node, Common(st.stats[id], snaps[id])) ==> Agree(st.store, r.store, k)))
  {
    if id in st.stats {
      var info := KnownInfos(st.infos, id, inspect)[id];
      FitsLabels(cfg, schema, id, info);
      PublishContainerEffect(st.store, schema, id, Labels(cfg, schema, id, info, true), info, st.stats[id], snaps[id], node, k);
    }
  }

  /**
   * Every series a container publishes in a pass of the loop is one it
   * owns: its host series, its plan's vectors under its label map, and its
   * per-interface counters.
   */
  lemma PublishedIsOwned(id: string, labels: map<string, string>, info: ContainerInfo, node: NodeInfo, ifaces: set<string>, k: SeriesKey)
    requires |id| >= 12 && Interface !in labels
    requires k in TouchedSeries(id, labels, ContainerPlan(info), node, ifaces)
    ensures Owned(k, labels, id[..12])
  {
    if k == HostKey(node, id) {
      HostKeyOwned(node, id);
    } else if k in NetKeys(labels, ifaces) {
      var m, n :| m in NetMetrics && n in ifaces && k == NetKey(m, labels, n);
      NetKeyOwned(m, labels, n, id[..12]);
    } else {
      var m :| m in ContainerPlan(info) && k == SeriesKey(m, labels);
      PlanKeyOwned(info, m, labels, id[..12]);
    }
  }

  /** The host series a pass of the loop sets names the container's short id. */
  lemma HostKeyOwned(node: NodeInfo, id: string)
    requires |id| >= 12
    ensures HostOf(HostKey(node, id), id[..12])
  {
    assert HostKey(node, id).labels[HostnameLabel] == id[..12];
  }

  /** A vector of the container's plan under its label map is the container's. */
  lemma PlanKeyOwned(info: ContainerInfo, m: Metric, labels: map<string, string>, short: string)
    requires m in ContainerPlan(info) && Interface !in labels
    ensures Owned(SeriesKey(m, labels), labels, short)
  {
    PlanIsContainerMetric(info, m);
    assert labels - {Interface} == labels;
  }

  /** A per-interface counter under the container's label map is the container's. */
  lemma NetKeyOwned(m: Metric, labels: map<string, string>, n: string, short: string)
    requires m in NetMetrics && Interface !in labels
    ensures Owned(NetKey(m, labels, n), labels, short)
  {
    NetMetricIsContainerMetric(m);
    StripInterface(labels, n);
  }

  /** Every vector of a container's plan is one DeleteMetrics visits. */
  lemma PlanIsContainerMetric(info: ContainerInfo, m: Metric)
    requires m in ContainerPlan(info)
    ensures m in ContainerMetrics
  {
    ContainerPlanIsScoped(info);
    PlanScopedMember(ContainerPlan(info), m);
    ScopedIsContainerMetric(m);
  }

  /** A vector that is neither per node nor host_meta is one DeleteMetrics visits. */
  lemma ScopedIsContainerMetric(m: Metric)
    requires !m.PerNode() && !m.HostMeta?
    ensures m in ContainerMetrics
  {
  }

  /** The tracked containers that are no longer listed. */
  function Gone(st: State, live: seq<string>): set<string> {
    set id | id in st.stats && id !in live
  }

  /** The label map and short id of each container being purged, by id. */
  type Owners = map<string, (map<string, string>, string)>

  /** A series owned by one of `owners`. */
  predicate OwnedBy(owners: Owners, k: SeriesKey) {
    exists id :: id in owners && Owned(k, owners[id].0, owners[id].1)
  }

  /** The series left once every container of `owners` is purged. */
  function Remaining(store: Store, owners: Owners): Store {
    map k | k in store && !OwnedBy(owners, k) :: store[k]
  }

  /** The tracked containers `ids` with the label map BuildLabels gives each and its short id. */
  function OwnersOf(st: State, cfg: Config, schema: set<string>, ids: set<string>): Owners
    requires Coherent(st) && ids <= st.stats.Keys
  {
    map id | id in ids :: (Labels(cfg, schema, id, st.infos[id], true), id[..12])
  }

  /** Adding one container to those being purged. */
  lemma OwnersOfStep(st: State, cfg: Config, schema: set<string>, ids: set<string>, id: string)
    requires Coherent(st) && ids <= st.stats.Keys && id in st.stats && id !in ids
    ensures id !in OwnersOf(st, cfg, schema, ids)
    ensures OwnersOf(st, cfg, schema, ids + {id})
         == OwnersOf(st, cfg, schema, ids)[id := (Labels(cfg, schema, id, st.infos[id], true), id[..12])]
  {
  }

  /** The eviction loop: every gone container is purged and forgotten. */
  function Evict(st: State, cfg: Config, schema: set<string>, live: seq<string>): State
    requires Coherent(st)
  {
    var gone := Gone(st, live);
    State(st.infos - gone, st.stats - gone, Remaining(st.store, OwnersOf(st, cfg, schema, gone)))
  }

  /** Purging nobody leaves every series. */
  lemma RemainingNone(store: Store)
    ensures Remaining(store, map[]) == store
  {
  }

  /** Purging the containers one at a time: one more container purged is one more Purge. */
  lemma RemainingStep(store: Store, owners: Owners, id: string, base: map<string, string>, short: string)
    requires id !in owners
    ensures Remaining(store, owners[id := (base, short)]) == Purge(Remaining(store, owners), base, short)
  {
    var more := owners[id := (base, short)];
    forall k | k in store && OwnedBy(more, k) && !Owned(k, base, short) ensures OwnedBy(owners, k) {
      var x :| x in more && Owned(k, more[x].0, more[x].1);
      assert x in owners && more[x] == owners[x];
    }
    forall k | k in store && OwnedBy(owners, k) ensures OwnedBy(more, k) {
      var x :| x in owners && Owned(k, owners[x].0, owners[x].1);
      assert x in more && more[x] == owners[x];
    }
    forall k | k in store && Owned(k, base, short) ensures OwnedBy(more, k) {
      assert id in more && more[id] == (base, short);
    }
    assert Remaining(store, more).Keys == Purge(Remaining(store, owners), base, short).Keys;
  }

  /** Adding listed ids to both maps keeps them coherent. */
  lemma KeysCoherent(before: State, after: State, live: seq<string>)
    requires Coherent(before) && forall i :: 0 <= i < |live| ==> |live[i]| >= 12
    requires forall id :: id in after.stats <==> id in before.stats || id in live
    requires forall id :: id in after.infos <==> id in before.infos || id in live
    ensures Coherent(after)
  {
    forall id | id in after.stats ensures |id| >= 12 {
      if id !in before.stats {
        var i :| 0 <= i < |live| && live[i] == id;
      }
    }
  }

  /** The bookkeeping stays coherent through the container loop. */
  lemma ObserveAllCoherent(st: State, cfg: Config, schema: set<string>, node: NodeInfo, live: seq<string>,
                           inspect: map<string, ContainerInfo>, snaps: map<string, Snapshot>)
    requires Coherent(st) && Listed(st.infos, live, inspect, snaps) && UniqueIds(live) && Ready(cfg, schema, st.stats, live)
    ensures Coherent(ObserveAll(st, cfg, schema, node, live, inspect, snaps))
  {
    KeysCoherent(st, ObserveAll(st, cfg, schema, node, live, inspect, snaps), live);
  }

  /** The node gauges, written only once the vectors exist. */
  function NodeStage(st: State, frozen: bool, schema: set<string>, node: NodeInfo): State {
    if frozen then st.(store := PublishNode(st.store, schema, node)) else st
  }

  /** The node stage touches neither the bookkeeping nor any counter. */
  lemma NodeStageEffect(st: State, frozen: bool, schema: set<string>, node: NodeInfo, k: SeriesKey)
    ensures NodeStage(st, frozen, schema, node).infos == st.infos
    ensures NodeStage(st, frozen, schema, node).stats == st.stats
    ensures k.metric.IsCounter() ==> Get(NodeStage(st, frozen, schema, node).store, k) == Get(st.store, k)
  {
    if frozen {
      PublishNodeEffect(st.store, schema, node, k);
    }
  }

  /** The state before eviction: node gauges once the vectors exist, then the container loop. */
  function Observed(st: State, frozen: bool, cfg: Config, schema: set<string>, node: NodeInfo, live: seq<string>,
                    inspect: map<string, ContainerInfo>, snaps: map<string, Snapshot>): State
    requires Listed(st.infos, live, inspect, snaps) && UniqueIds(live) && Ready(cfg, schema, st.stats, live)
  {
    var s0 := NodeStage(st, frozen, schema, node);
    ObserveAll(s0, cfg, schema, node, live, inspect, snaps)
  }

  /**
   * One GatherMetrics cycle: the node gauges (only once the vectors exist),
   * the container loop, then the eviction of every container no longer
   * listed.
   */
  function Gather(st: State, frozen: bool, cfg: Config, schema: set<string>, node: NodeInfo, live: seq<string>,
                  inspect: map<string, ContainerInfo>, snaps: map<string, Snapshot>): State
    requires Coherent(st) && Listed(st.infos, live, inspect, snaps) && UniqueIds(live) && Ready(cfg, schema, st.stats, live)
  {
    var s0 := NodeStage(st, frozen, schema, node);
    ObserveAllCoherent(s0, cfg, schema, node, live, inspect, snaps);
    Evict(Observed(st, frozen, cfg, schema, node, live, inspect, snaps), cfg, schema, live)
  }

  /** Eviction forgets exactly the gone containers and keeps every series no gone container owns. */
  lemma EvictEffect(st: State, cfg: Config, schema: set<string>, live: seq<string>)
    requires Coherent(st)
    ensures var r := Evict(st, cfg, schema, live);
      && (forall id :: id in r.stats <==> id in st.stats && id in live)
      && (forall id :: id in r.infos <==> id in st.infos && id in live)
      && (forall id :: id in r.stats ==> r.stats[id] == st.stats[id] && r.infos[id] == st.infos[id])
      && (forall k :: k in r.store <==> k in st.store && !OwnedBy(OwnersOf(st, cfg, schema, Gone(st, live)), k))
      && (forall k :: k in r.store ==> r.store[k] == st.store[k])
  {
  }

  /** A series left after eviction was there before, with the same value. */
  lemma EvictKeeps(st: State, cfg: Config, schema: set<string>, live: seq<string>, k: SeriesKey)
    requires Coherent(st) && k in Evict(st, cfg, schema, live).store
    ensures k in st.store && Evict(st, cfg, schema, live).store[k] == st.store[k]
  {
  }

  /** With no container gone, eviction leaves the series alone. */
  lemma EvictNoneGone(st: State, cfg: Config, schema: set<string>, live: seq<string>)
    requires Coherent(st) && forall id :: id in st.stats ==> id in live
    ensures Evict(st, cfg, schema, live).store == st.store
  {
    assert Gone(st, live) == {};
    var r := Evict(st, cfg, schema, live);
    assert forall k :: k in r.store <==> k in st.store;
  }

  /** A gone container owns none of the series left after eviction, host series of any node identity included. */
  lemma EvictLeavesNothing(st: State, cfg: Config, schema: set<string>, live: seq<string>, id: string, k: SeriesKey)
    requires Coherent(st) && id in st.stats && id !in live
    requires k in Evict(st, cfg, schema, live).store
    ensures !Owned(k, Labels(cfg, schema, id, st.infos[id], true), id[..12])
  {
    var owners := OwnersOf(st, cfg, schema, Gone(st, live));
    assert id in owners && owners[id] == (Labels(cfg, schema, id, st.infos[id], true), id[..12]);
  }

  /**
   * After a cycle exactly the listed containers are tracked, each with its
   * new snapshot; metadata of a container known before is the same as
   * before, and a new container's is what its inspection returned.
   */
  lemma GatherTracks(st: State, frozen: bool, cfg: Config, schema: set<string>, node: NodeInfo, live: seq<string>,
                     inspect: map<string, ContainerInfo>, snaps: map<string, Snapshot>)
    requires Coherent(st) && Listed(st.infos, live, inspect, snaps) && UniqueIds(live) && Ready(cfg, schema, st.stats, live)
    ensures var r := Gather(st, frozen, cfg, schema, node, live, inspect, snaps);
      && Coherent(r)
      && (forall id :: id in r.stats <==> id in live)
      && (forall id :: id in live ==> r.stats[id] == snaps[id])
      && (forall id :: id in live && id in st.infos ==> r.infos[id] == st.infos[id])
      && (forall id :: id in live && id !in st.infos ==> r.infos[id] == inspect[id])
  {
    var s0 := NodeStage(st, frozen, schema, node);
    ObserveAllCoherent(s0, cfg, schema, node, live, inspect, snaps);
    ObserveAllTracks(s0, cfg, schema, node, live, inspect, snaps);
    var s1 := Observed(st, frozen, cfg, schema, node, live, inspect, snaps);
    EvictEffect(s1, cfg, schema, live);
  }

  /**
   * A tracked container that is no longer listed leaves no series behind:
   * none under its label map, with or without an interface, and no host
   * series naming its short id, whatever node identity it carries.
   */
  lemma GatherEvicts(st: State, frozen: bool, cfg: Config, schema: set<string>, node: NodeInfo, live: seq<string>,
                     inspect: map<string, ContainerInfo>, snaps: map<string, Snapshot>, id: string, k: SeriesKey)
    requires Coherent(st) && Listed(st.infos, live, inspect, snaps) && UniqueIds(live) && Ready(cfg, schema, st.stats, live)
    requires id in st.stats && id !in live
    requires k in Gather(st, frozen, cfg, schema, node, live, inspect, snaps).store
    ensures !Owned(k, Labels(cfg, schema, id, st.infos[id], true), id[..12])
  {
    var s0 := NodeStage(st, frozen, schema, node);
    ObserveAllCoherent(s0, cfg, schema, node, live, inspect, snaps);
    ObserveAllTracks(s0, cfg, schema, node, live, inspect, snaps);
    var s1 := Observed(st, frozen, cfg, schema, node, live, inspect, snaps);
    EvictLeavesNothing(s1, cfg, schema, live, id, k);
  }

  /** Counters only grow between cycles: a counter series still present after a cycle is at least its old value. */
  lemma GatherMonotonic(st: State, frozen: bool, cfg: Config, schema: set<string>, node: NodeInfo, live: seq<string>,
                        inspect: map<string, ContainerInfo>, snaps: map<string, Snapshot>, k: SeriesKey)
    requires Coherent(st) && Listed(st.infos, live, inspect, snaps) && UniqueIds(live) && Ready(cfg, schema, st.stats, live)
    requires k.metric.IsCounter() && k in Gather(st, frozen, cfg, schema, node, live, inspect, snaps).store
    ensures Gather(st, frozen, cfg, schema, node, live, inspect, snaps).store[k] >= Get(st.store, k)
  {
    var s0 := NodeStage(st, frozen, schema, node);
    NodeStageEffect(st, frozen, schema, node, k);
    ObserveAllMonotonic(s0, cfg, schema, node, live, inspect, snaps, k);
    ObserveAllCoherent(s0, cfg, schema, node, live, inspect, snaps);
    EvictKeeps(Observed(st, frozen, cfg, schema, node, live, inspect, snaps), cfg, schema, live, k);
  }

  lemma PublishNodeConforming(store: Store, schema: set<string>, node: NodeInfo)
    requires Conforming(store, schema)
    ensures Conforming(PublishNode(store, schema, node), schema)
  {
    NodeKeyAccepted(schema, NodeMeta, node);
    NodeKeyAccepted(schema, MachineCpuCores, node);
    NodeKeyAccepted(schema, MachineMemory, node);
  }

  /** A cycle only ever creates series their vectors accept. */
  lemma GatherConforming(st: State, frozen: bool, cfg: Config, schema: set<string>, node: NodeInfo, live: seq<string>,
                         inspect: map<string, ContainerInfo>, snaps: map<string, Snapshot>)
    requires Coherent(st) && Listed(st.infos, live, inspect, snaps) && UniqueIds(live) && Ready(cfg, schema, st.stats, live)
    requires Conforming(st.store, schema)
    ensures Conforming(Gather(st, frozen, cfg, schema, node, live, inspect, snaps).store, schema)
  {
    var s0 := NodeStage(st, frozen, schema, node);
    if frozen {
      PublishNodeConforming(st.store, schema, node);
    }
    ObserveAllConforming(s0, cfg, schema, node, live, inspect, snaps);
    ObserveAllCoherent(s0, cfg, schema, node, live, inspect, snaps);
    var s1 := Observed(st, frozen, cfg, schema, node, live, inspect, snaps);
    EvictEffect(s1, cfg, schema, live);
  }

  /**
   * The startup cycle, before the vectors exist and with nothing tracked,
   * writes no series: it only records metadata and first snapshots.
   */
  lemma GatherStartup(st: State, cfg: Config, schema: set<string>, node: NodeInfo, live: seq<string>,
                      inspect: map<string, ContainerInfo>, snaps: map<string, Snapshot>)
    requires Coherent(st) && Listed(st.infos, live, inspect, snaps) && UniqueIds(live) && st.stats == map[]
    ensures Gather(st, false, cfg, schema, node, live, inspect, snaps).store == st.store
  {
    ObserveAllSilent(st, cfg, schema, node, live, inspect, snaps);
    ObserveAllCoherent(st, cfg, schema, node, live, inspect, snaps);
    EvictNoneGone(Observed(st, false, cfg, schema, node, live, inspect, snaps), cfg, schema, live);
  }

  /**
   * Every stored series is a node gauge or belongs to a tracked container:
   * its host series, or a per-container series under its filtered label
   * map. Eviction can only remove what it knows to be the container's, so
   * this is what lets it leave no orphan behind.
   */
  predicate NoOrphans(st: State, cfg: Config, schema: set<string>)
    requires Coherent(st)
  {
    forall k :: k in st.store ==>
      (k.metric.PerNode() || exists id :: id in st.stats && Owned(k, Labels(cfg, schema, id, st.infos[id], true), id[..12]))
  }

  /**
   * The freeze, with nothing published yet: the corrected schema fits every
   * filtered label map, holds no `interface`, and the (empty) store has no
   * orphan and breaks no vector.
   */
  lemma FreezeReady(st: State, cfg: Config)
    requires Coherent(st) && st.store == map[]
    ensures var schema := FixedSchema(cfg, st.infos);
      Interface !in schema && Fits(cfg, schema) && Conforming(st.store, schema) && NoOrphans(st, cfg, schema)
  {
    FixedSchemaValid(cfg, st.infos);
  }

  /** The node gauges are no container's series. */
  lemma NodeStageNoOrphans(st: State, frozen: bool, cfg: Config, schema: set<string>, node: NodeInfo)
    requires Coherent(st) && NoOrphans(st, cfg, schema)
    ensures Coherent(NodeStage(st, frozen, schema, node))
    ensures NoOrphans(NodeStage(st, frozen, schema, node), cfg, schema)
  {
    var r := NodeStage(st, frozen, schema, node);
    forall k | k in r.store && !k.metric.PerNode() ensures k in st.store {
      if frozen {
        PublishNodeEffect(st.store, schema, node, k);
      }
    }
  }

  /** One pass of the container loop writes only series of the container it visits. */
  lemma ObserveNoOrphans(st: State, cfg: Config, schema: set<string>, node: NodeInfo, id: string,
                         inspect: map<string, ContainerInfo>, snaps: map<string, Snapshot>)
    requires Coherent(st) && NoOrphans(st, cfg, schema) && Interface !in schema
    requires |id| >= 12 && id in snaps && (id in st.infos || id in inspect)
    requires id in st.stats ==> Fits(cfg, schema)
    ensures Coherent(Observe(st, cfg, schema, node, id, inspect, snaps))
    ensures NoOrphans(Observe(st, cfg, schema, node, id, inspect, snaps), cfg, schema)
  {
    ObserveKeepsTracked(st, cfg, schema, node, id, inspect, snaps);
    ObserveAddsOwn(st, cfg, schema, node, id, inspect, snaps);
    NoOrphansGrow(st, Observe(st, cfg, schema, node, id, inspect, snaps), cfg, schema, id);
  }

  /** One pass of the container loop keeps every tracked container with its metadata, and tracks the one it visits. */
  lemma ObserveKeepsTracked(st: State, cfg: Config, schema: set<string>, node: NodeInfo, id: string,
                            inspect: map<string, ContainerInfo>, snaps: map<string, Snapshot>)
    requires Coherent(st)
    requires |id| >= 12 && id in snaps && (id in st.infos || id in inspect)
    requires id in st.stats ==> Fits(cfg, schema)
    ensures var r := Observe(st, cfg, schema, node, id, inspect, snaps);
      && Coherent(r) && id in r.stats
      && (forall x :: x in st.stats ==> x in r.stats && r.infos[x] == st.infos[x])
  {
  }

  /** Every series one pass of the container loop adds belongs to the container it visits. */
  lemma ObserveAddsOwn(st: State, cfg: Config, schema: set<string>, node: NodeInfo, id: string,
                       inspect: map<string, ContainerInfo>, snaps: map<string, Snapshot>)
    requires Interface !in schema
    requires |id| >= 12 && id in snaps && (id in st.infos || id in inspect)
    requires id in st.stats ==> Fits(cfg, schema)
    ensures var r := Observe(st, cfg, schema, node, id, inspect, snaps);
      id in r.infos
      && forall k :: k in r.store && !k.metric.PerNode() ==>
           k in st.store || Owned(k, Labels(cfg, schema, id, r.infos[id], true), id[..12])
  {
    var r := Observe(st, cfg, schema, node, id, inspect, snaps);
    forall k | k in r.store && !k.metric.PerNode()
      ensures k in st.store || Owned(k, Labels(cfg, schema, id, r.infos[id], true), id[..12])
    {
      ObserveKeyFrom(st, cfg, schema, node, id, inspect, snaps, k);
    }
  }

  /** A series a pass of the loop leaves in the store was there before or belongs to the container it visits. */
  lemma ObserveKeyFrom(st: State, cfg: Config, schema: set<string>, node: NodeInfo, id: string,
                       inspect: map<string, ContainerInfo>, snaps: map<string, Snapshot>, k: SeriesKey)
    requires Interface !in schema
    requires |id| >= 12 && id in snaps && (id in st.infos || id in inspect)
    requires id in st.stats ==> Fits(cfg, schema)
    requires k in Observe(st, cfg, schema, node, id, inspect, snaps).store
    ensures var r := Observe(st, cfg, schema, node, id, inspect, snaps);
      k in st.store || Owned(k, Labels(cfg, schema, id, r.infos[id], true), id[..12])
  {
    var info := KnownInfos(st.infos, id, inspect)[id];
    if id in st.stats && k in TouchedSeries(id, Labels(cfg, schema, id, info, true), ContainerPlan(info), node, Common(st.stats[id], snaps[id])) {
      ObserveTouchedOwned(st, cfg, schema, node, id, inspect, snaps, k);
    } else {
      ObserveEffect(st, cfg, schema, node, id, inspect, snaps, k);
    }
  }

  /**
   * A step that keeps every tracked container with its metadata, and adds
   * only series of one tracked container, keeps the store invariant.
   */
  lemma NoOrphansGrow(st: State, r: State, cfg: Config, schema: set<string>, id: string)
    requires Coherent(st) && NoOrphans(st, cfg, schema) && Coherent(r) && id in r.stats
    requires forall x :: x in st.stats ==> x in r.stats && r.infos[x] == st.infos[x]
    requires forall k :: k in r.store && !k.metric.PerNode() ==>
      k in st.store || Owned(k, Labels(cfg, schema, id, r.infos[id], true), id[..12])
    ensures NoOrphans(r, cfg, schema)
  {
    forall k | k in r.store && !k.metric.PerNode()
      ensures exists x :: x in r.stats && Owned(k, Labels(cfg, schema, x, r.infos[x], true), x[..12])
    {
      if !Owned(k, Labels(cfg, schema, id, r.infos[id], true), id[..12]) {
        var x :| x in st.stats && Owned(k, Labels(cfg, schema, x, st.infos[x], true), x[..12]);
        assert x in r.stats && r.infos[x] == st.infos[x];
      }
    }
  }

  /** A series a pass of the loop writes belongs to the container it visits. */
  lemma ObserveTouchedOwned(st: State, cfg: Config, schema: set<string>, node: NodeInfo, id: string,
                            inspect: map<string, ContainerInfo>, snaps: map<string, Snapshot>, k: SeriesKey)
    requires Interface !in schema
    requires |id| >= 12 && id in snaps && (id in st.infos || id in inspect)
    requires id in st.stats && Fits(cfg, schema)
    requires var info := KnownInfos(st.infos, id, inspect)[id];
      k in TouchedSeries(id, Labels(cfg, schema, id, info, true), ContainerPlan(info), node, Common(st.stats[id], snaps[id]))
    ensures var r := Observe(st, cfg, schema, node, id, inspect, snaps);
      id in r.stats && Owned(k, Labels(cfg, schema, id, r.infos[id], true), id[..12])
  {
    var info := KnownInfos(st.infos, id, inspect)[id];
    FilteredWithoutInterface(cfg, schema, id, info);
    PublishedIsOwned(id, Labels(cfg, schema, id, info, true), info, node, Common(st.stats[id], snaps[id]), k);
  }

  /** The container loop writes only series of the containers it visits. */
  lemma {:induction false} ObserveAllNoOrphans(st: State, cfg: Config, schema: set<string>, node: NodeInfo, live: seq<string>,
                                               inspect: map<string, ContainerInfo>, snaps: map<string, Snapshot>)
    requires Coherent(st) && NoOrphans(st, cfg, schema) && Interface !in schema
    requires Listed(st.infos, live, inspect, snaps) && UniqueIds(live) && Ready(cfg, schema, st.stats, live)
    ensures Coherent(ObserveAll(st, cfg, schema, node, live, inspect, snaps))
    ensures NoOrphans(ObserveAll(st, cfg, schema, node, live, inspect, snaps), cfg, schema)
    decreases |live|
  {
    if live != [] {
      var init, id := live[..|live| - 1], live[|live| - 1];
      LastOfListed(st.infos, st.stats, cfg, schema, live, inspect, snaps);
      ObserveAllNoOrphans(st, cfg, schema, node, init, inspect, snaps);
      ObserveAllTracks(st, cfg, schema, node, init, inspect, snaps);
      ObserveNoOrphans(ObserveAll(st, cfg, schema, node, init, inspect, snaps), cfg, schema, node, id, inspect, snaps);
    }
  }

  /** A series left after eviction belongs to a container that is still tracked. */
  lemma EvictNoOrphans(st: State, cfg: Config, schema: set<string>, live: seq<string>)
    requires Coherent(st) && NoOrphans(st, cfg, schema)
    ensures Coherent(Evict(st, cfg, schema, live))
    ensures NoOrphans(Evict(st, cfg, schema, live), cfg, schema)
  {
    var r := Evict(st, cfg, schema, live);
    forall k | k in r.store && !k.metric.PerNode()
      ensures exists x :: x in r.stats && Owned(k, Labels(cfg, schema, x, r.infos[x], true), x[..12])
    {
      var x :| x in st.stats && Owned(k, Labels(cfg, schema, x, st.infos[x], true), x[..12]);
      if x !in live {
        EvictLeavesNothing(st, cfg, schema, live, x, k);
        assert false;
      }
      assert x in r.stats && r.infos[x] == st.infos[x];
    }
  }

  /**
   * After a cycle every series is a node gauge or belongs to a listed
   * container, so every series of a container that disappears is one
   * eviction removes.
   */
  lemma GatherNoOrphans(st: State, frozen: bool, cfg: Config, schema: set<string>, node: NodeInfo, live: seq<string>,
                        inspect: map<string, ContainerInfo>, snaps: map<string, Snapshot>)
    requires Coherent(st) && Listed(st.infos, live, inspect, snaps) && UniqueIds(live) && Ready(cfg, schema, st.stats, live)
    requires NoOrphans(st, cfg, schema) && Interface !in schema
    ensures var r := Gather(st, frozen, cfg, schema, node, live, inspect, snaps);
      && Coherent(r) && NoOrphans(r, cfg, schema)
      && forall k :: k in r.store && !k.metric.PerNode() ==>
           exists id :: id in live && id in r.infos && Owned(k, Labels(cfg, schema, id, r.infos[id], true), id[..12])
  {
    var s0 := NodeStage(st, frozen, schema, node);
    NodeStageNoOrphans(st, frozen, cfg, schema, node);
    ObserveAllNoOrphans(s0, cfg, schema, node, live, inspect, snaps);
    var s1 := Observed(st, frozen, cfg, schema, node, live, inspect, snaps);
    EvictNoOrphans(s1, cfg, schema, live);
    GatherTracks(st, frozen, cfg, schema, node, live, inspect, snaps);
  }
}

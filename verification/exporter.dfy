/**
 * The exporter's mutable state and the procedures that change it step by
 * step: the label map of a container, the schema freeze at startup, the
 * deletion of a container's series and the gathering cycle. Each method is
 * proved against the functions of the Labeling, Schema and Cycle modules.
 */
module Exporter {
  import opened Docker
  import opened Labeling
  import opened Schema
  import opened Series
  import opened Deltas
  import opened Cycle

  /** Whether `id` is in the container list: the linear search of the eviction loop. */
  method Contains(live: seq<string>, id: string) returns (found: bool)
    ensures found <==> id in live
  {
    found := false;
    var j := 0;
    while j < |live|
      invariant 0 <= j <= |live| && !found && id !in live[..j]
    {
      if live[j] == id {
        found := true;
        break;
      }
      assert live[..j + 1] == live[..j] + [live[j]];
      j := j + 1;
    }
    assert found || live[..j] == live;
  }

  /** Writes each container label under its normalised name, in order, over `base`. */
  method AddContainerLabels(base: map<string, string>, ls: seq<(string, string)>) returns (labels: map<string, string>)
    ensures labels == WithContainerLabels(base, ls)
  {
    labels := base;
    var i := 0;
    while i < |ls|
      invariant 0 <= i <= |ls|
      invariant labels == WithContainerLabels(base, ls[..i])
    {
      assert ls[..i + 1][..i] == ls[..i];
      labels := labels[NormalizeLabel(ls[i].0) := ls[i].1];
      i := i + 1;
    }
    assert ls[..i] == ls;
  }

  /** Adds "" for every schema name `raw` lacks. */
  method AddMissing(raw: map<string, string>, schema: set<string>) returns (labels: map<string, string>)
    ensures labels.Keys == raw.Keys + schema
    ensures forall k :: k in labels ==> labels[k] == (if k in raw then raw[k] else "")
  {
    labels := raw;
    var missing := schema;
    while missing != {}
      invariant missing <= schema
      invariant labels.Keys == raw.Keys + (schema - missing)
      invariant forall k :: k in labels ==> labels[k] == (if k in raw then raw[k] else "")
      decreases missing
    {
      var k :| k in missing;
      if k !in labels {
        labels := labels[k := ""];
      }
      missing := missing - {k};
    }
  }

  /** Removes every name the schema does not know. */
  method DropUnknown(full: map<string, string>, schema: set<string>) returns (labels: map<string, string>)
    ensures labels.Keys == full.Keys * schema
    ensures forall k :: k in labels ==> labels[k] == full[k]
  {
    labels := full;
    var keys := full.Keys;
    while keys != {}
      invariant keys <= full.Keys
      invariant labels.Keys == full.Keys * (schema + keys)
      invariant forall k :: k in labels ==> labels[k] == full[k]
      decreases keys
    {
      var k :| k in keys;
      if k !in schema {
        labels := labels - {k};
      }
      keys := keys - {k};
    }
  }

  /** The filtering step of BuildLabels: pad to the schema, then cut to it. */
  method FilterLabels(raw: map<string, string>, schema: set<string>) returns (labels: map<string, string>)
    ensures labels.Keys == schema
    ensures forall k :: k in labels ==> labels[k] == (if k in raw then raw[k] else "")
    ensures labels == Filter(raw, schema)
  {
    var full := AddMissing(raw, schema);
    labels := DropUnknown(full, schema);
    assert labels.Keys == Filter(raw, schema).Keys;
  }

  /** Adds every key of `labels` to `names`. */
  method AddKeys(names: set<string>, labels: map<string, string>) returns (r: set<string>)
    ensures r == names + labels.Keys
  {
    r := names;
    var rest := labels.Keys;
    while rest != {}
      invariant rest <= labels.Keys
      invariant r == names + (labels.Keys - rest)
      decreases rest
    {
      var k :| k in rest;
      r := r + {k};
      rest := rest - {k};
    }
  }

  /** Moving one element from the pending part of `all` to the visited part. */
  lemma TakeOne<T>(all: set<T>, pending: set<T>, x: T)
    requires x in pending && pending <= all
    ensures (all - pending) + {x} == all - (pending - {x})
  {
  }

  /**
   * The network loop of a container: for every interface of the new
   * snapshot that the previous one also has, its eight counters grow by
   * the interface's increments.
   */
  method PublishNetworks(store: Store, schema: set<string>, labels: map<string, string>, prev: Snapshot, cur: Snapshot)
    returns (r: Store)
    requires labels.Keys == schema
    ensures r == PublishNetworkOn(store, labels, prev, cur, Common(prev, cur))
  {
    var order := GetKeys(cur.networks);
    r := RunNetworkLoop(store, schema, labels, prev, cur, order);
    NetworkLoopIsPublish(store, schema, labels, prev, cur, order);
    assert Visited(order, prev) == Common(prev, cur);
  }

  /** The network loop over the interfaces of `cur` in the visiting order `order`. */
  method RunNetworkLoop(store: Store, schema: set<string>, labels: map<string, string>, prev: Snapshot, cur: Snapshot,
                        order: seq<string>) returns (r: Store)
    requires labels.Keys == schema && forall j :: 0 <= j < |order| ==> order[j] in cur.networks
    ensures r == NetworkLoop(store, schema, labels, prev, cur, order)
  {
    r := store;
    var i := 0;
    while i < |order|
      invariant 0 <= i <= |order|
      invariant r == NetworkLoop(store, schema, labels, prev, cur, order[..i])
    {
      NetworkLoopSnoc(store, schema, labels, prev, cur, order, i);
      var n := order[i];
      if n in prev.networks {
        r := PublishInterface(r, schema, labels, n, prev, cur);
      }
      i := i + 1;
    }
    assert order[..i] == order;
  }

  /** Removing one more key from a map. */
  lemma RemoveOne<K, V>(m: map<K, V>, gone: set<K>, x: K)
    ensures (m - gone) - {x} == m - (gone + {x})
  {
  }

  class Exporter {
    /** The configuration: Kubernetes mode and the node name. */
    const cfg: Config
    /** Container metadata by id, inspected once per container. */
    var infos: map<string, ContainerInfo>
    /** The last snapshot per container id. */
    var stats: map<string, Snapshot>
    /** Every series of every metric vector. */
    var store: Store
    /** The label names the per-container vectors are created with. */
    var labelNames: set<string>
    /** Whether the vectors exist, that is, whether the schema has been frozen. */
    var frozen: bool

    /**
     * The bookkeeping is coherent and the schema never holds `interface`;
     * before the freeze nothing is published and the schema is empty;
     * afterwards the filtered label maps fit the schema, every series was
     * accepted by its vector, and every series is a node gauge or belongs
     * to a tracked container.
     */
    ghost predicate Valid()
      reads this
    {
      && Coherent(State(infos, stats, store))
      && Interface !in labelNames
      && (frozen ==> Fits(cfg, labelNames) && Conforming(store, labelNames) && NoOrphans(State(infos, stats, store), cfg, labelNames))
      && (!frozen ==> labelNames == {} && store == map[])
    }

    constructor (cfg: Config)
      ensures Valid() && this.cfg == cfg && !frozen
      ensures infos == map[] && stats == map[] && store == map[] && labelNames == {}
    {
      this.cfg := cfg;
      infos := map[];
      stats := map[];
      store := map[];
      labelNames := {};
      frozen := false;
    }

    /**
     * The label map of a known container: the Kubernetes map, or the
     * built-ins plus the normalised container labels, restricted to the
     * schema (with "" for missing names) when `filter` is set.
     */
    method BuildLabels(id: string, filter: bool) returns (labels: map<string, string>)
      requires id in infos
      ensures labels == Labels(cfg, labelNames, id, infos[id], filter)
    {
      var info := infos[id];
      if cfg.kubernetes {
        labels := KubernetesLabels(cfg, id, info);
        return;
      }
      labels := AddContainerLabels(BuiltinLabels(id, info), info.labels);
      if filter {
        labels := FilterLabels(labels, labelNames);
      }
    }

    /** Adds the names of a container's unfiltered label map to the schema being collected. */
    method CollectNames(id: string)
      requires id in infos
      modifies this
      ensures labelNames == old(labelNames) + LabelKeys(cfg, {}, old(infos)[id], false)
      ensures infos == old(infos) && stats == old(stats) && store == old(store) && frozen == old(frozen)
    {
      var labels := BuildLabels(id, false);
      LabelsKeys(cfg, labelNames, id, infos[id], false);
      labelNames := AddKeys(labelNames, labels);
    }

    /** The startup loop over the known containers: the union of their unfiltered label names. */
    method CollectAllNames()
      requires labelNames == {}
      modifies this
      ensures labelNames == NamesOf(cfg, infos, infos.Keys)
      ensures infos == old(infos) && stats == old(stats) && store == old(store) && frozen == old(frozen)
    {
      var known := infos;
      var ids := known.Keys;
      assert NamesOf(cfg, known, known.Keys - ids) == {};
      while ids != {}
        invariant ids <= known.Keys
        invariant labelNames == NamesOf(cfg, known, known.Keys - ids)
        invariant infos == known && stats == old(stats) && store == old(store) && frozen == old(frozen)
        decreases ids
      {
        var id :| id in ids;
        CollectNames(id);
        NamesOfStep(cfg, known, known.Keys - ids, id);
        TakeOne(known.Keys, ids, id);
        ids := ids - {id};
      }
    }

    /**
     * The startup freeze: the union of the unfiltered label names of every
     * container known after the first cycle, together with the built-ins, except
     * that in Kubernetes mode the seven fixed names are taken whatever was
     * known. The vectors are created with the result.
     */
    method Freeze()
      requires Valid() && !frozen
      modifies this
      ensures Valid() && frozen
      ensures labelNames == FixedSchema(cfg, infos)
      ensures infos == old(infos) && stats == old(stats) && store == old(store)
    {
      CollectAllNames();
      if cfg.kubernetes {
        labelNames := KubernetesKeys;
      } else {
        labelNames := Builtins + labelNames;
      }
      assert labelNames == FixedSchema(cfg, infos);
      assert store == map[];
      FreezeReady(State(infos, stats, store), cfg);
      frozen := true;
    }

    /** Removes the series under `labels` from every per-container vector. */
    method DeleteMetrics(labels: map<string, string>)
      modifies this
      ensures store == old(store) - MetricsKeys(labels)
      ensures infos == old(infos) && stats == old(stats) && labelNames == old(labelNames) && frozen == old(frozen)
    {
      var i := 0;
      while i < |ContainerMetrics|
        invariant 0 <= i <= |ContainerMetrics|
        invariant store == old(store) - (set m | m in ContainerMetrics[..i] :: SeriesKey(m, labels))
        invariant infos == old(infos) && stats == old(stats) && labelNames == old(labelNames) && frozen == old(frozen)
      {
        assert ContainerMetrics[..i + 1] == ContainerMetrics[..i] + [ContainerMetrics[i]];
        store := store - {SeriesKey(ContainerMetrics[i], labels)};
        i := i + 1;
      }
      assert ContainerMetrics[..i] == ContainerMetrics;
    }

    /** The node gauges, written only once the vectors exist. */
    method PublishNodeGauges(node: NodeInfo)
      modifies this
      ensures State(infos, stats, store) == NodeStage(old(State(infos, stats, store)), frozen, labelNames, node)
      ensures labelNames == old(labelNames) && frozen == old(frozen)
    {
      if frozen {
        store := PublishNode(store, labelNames, node);
      }
    }

    /**
     * The publication for a container with a previous snapshot: its host
     * series, the CPU, memory and filesystem vectors of its plan in order,
     * then the network loop.
     */
    method PublishContainerSeries(id: string, labels: map<string, string>, info: ContainerInfo,
                                  prev: Snapshot, cur: Snapshot, node: NodeInfo)
      requires |id| >= 12 && labels.Keys == labelNames
      modifies this
      ensures infos == old(infos) && stats == old(stats) && labelNames == old(labelNames) && frozen == old(frozen)
      ensures store == PublishContainer(old(store), labelNames, id, labels, info, prev, cur, node)
    {
      ContainerPlanScoped(info);
      WritesAllowed(labelNames, ContainerPlan(info), labels, info, prev, cur);
      HostAccepted(labelNames, node, id);
      store := GaugeSet(store, labelNames, HostKey(node, id), 1.0);
      store := Apply(store, labelNames, Writes(ContainerPlan(info), labels, info, prev, cur));
      store := PublishNetworks(store, labelNames, labels, prev, cur);
    }

    /**
     * One pass of the container loop: inspect a new id, build its filtered
     * label map, publish against the previous snapshot when there is one,
     * then store the new snapshot.
     */
    method ObserveContainer(id: string, inspect: map<string, ContainerInfo>, snaps: map<string, Snapshot>, node: NodeInfo)
      requires |id| >= 12 && id in snaps && (id in infos || id in inspect)
      requires id in stats ==> Fits(cfg, labelNames)
      modifies this
      ensures labelNames == old(labelNames) && frozen == old(frozen)
      ensures State(infos, stats, store) == Observe(old(State(infos, stats, store)), cfg, labelNames, node, id, inspect, snaps)
    {
      if id !in infos {
        infos := infos[id := inspect[id]];
      }
      var labels := BuildLabels(id, true);
      if id in stats {
        FitsLabels(cfg, labelNames, id, infos[id]);
        PublishContainerSeries(id, labels, infos[id], stats[id], snaps[id], node);
      }
      stats := stats[id := snaps[id]];
    }

    /** The pass of the container loop for `live[i]`, continuing the cycle started in `s0`. */
    method ObserveNext(ghost s0: State, live: seq<string>, inspect: map<string, ContainerInfo>, snaps: map<string, Snapshot>,
                       node: NodeInfo, i: nat)
      requires i < |live| && Listed(s0.infos, live, inspect, snaps) && UniqueIds(live) && Ready(cfg, labelNames, s0.stats, live)
      requires LoopReached(State(infos, stats, store), s0, cfg, labelNames, node, live, inspect, snaps, i)
      modifies this
      ensures labelNames == old(labelNames) && frozen == old(frozen)
      ensures LoopReached(State(infos, stats, store), s0, cfg, labelNames, node, live, inspect, snaps, i + 1)
    {
      ObserveAllSnoc(s0, cfg, labelNames, node, live, inspect, snaps, i);
      ObserveContainer(live[i], inspect, snaps, node);
    }

    /** The container loop, over the listed ids in order. */
    method ObserveContainers(live: seq<string>, inspect: map<string, ContainerInfo>, snaps: map<string, Snapshot>, node: NodeInfo)
      requires Listed(infos, live, inspect, snaps) && UniqueIds(live) && Ready(cfg, labelNames, stats, live)
      modifies this
      ensures labelNames == old(labelNames) && frozen == old(frozen)
      ensures State(infos, stats, store) == ObserveAll(old(State(infos, stats, store)), cfg, labelNames, node, live, inspect, snaps)
    {
      ghost var s0 := State(infos, stats, store);
      var i := 0;
      while i < |live|
        invariant 0 <= i <= |live|
        invariant labelNames == old(labelNames) && frozen == old(frozen)
        invariant LoopReached(State(infos, stats, store), s0, cfg, labelNames, node, live, inspect, snaps, i)
      {
        ObserveNext(s0, live, inspect, snaps, node, i);
        i := i + 1;
      }
      assert live[..i] == live;
    }
  
    /** DeleteMetrics under `base` with an `interface` label, once per interface of `ifaces`. */
    method DeleteInterfaceMetrics(base: map<string, string>, ifaces: set<string>)
      modifies this
      ensures store == old(store) - InterfaceKeys(base, ifaces)
      ensures infos == old(infos) && stats == old(stats) && labelNames == old(labelNames) && frozen == old(frozen)
    {
      var rest := ifaces;
      assert InterfaceKeys(base, ifaces - rest) == {};
      while rest != {}
        invariant rest <= ifaces
        invariant store == old(store) - InterfaceKeys(base, ifaces - rest)
        invariant infos == old(infos) && stats == old(stats) && labelNames == old(labelNames) && frozen == old(frozen)
        decreases rest
      {
        var n :| n in rest;
        DeleteMetrics(base[Interface := n]);
        InterfaceKeysStep(base, ifaces - rest, n);
        TakeOne(ifaces, rest, n);
        rest := rest - {n};
      }
      assert ifaces - rest == ifaces;
    }

    /**
     * The eviction of one container: DeleteMetrics under its filtered label
     * map, again with an `interface` label for each interface its stored
     * series name, then every host series naming its short id (a partial
     * match on the `host` label, so that a series written under another
     * node identity goes too); its snapshot and metadata are forgotten.
     */
    method EvictContainer(id: string)
      requires id in infos && id in stats && |id| >= 12 && Interface !in labelNames
      modifies this
      ensures labelNames == old(labelNames) && frozen == old(frozen)
      ensures infos == old(infos) - {id} && stats == old(stats) - {id}
      ensures store == Purge(old(store), Labels(cfg, labelNames, id, old(infos)[id], true), id[..12])
    {
      var base := BuildLabels(id, true);
      FilteredWithoutInterface(cfg, labelNames, id, infos[id]);
      ghost var s := store;
      var ifaces := OwnedInterfaces(store, base);
      var hosts := HostSeries(store, id[..12]);
      DeleteMetrics(base);
      DeleteInterfaceMetrics(base, ifaces);
      store := store - hosts;
      stats := stats - {id};
      infos := infos - {id};
      PurgeByDeletes(s, base, id[..12]);
    }

    /**
     * The eviction loop: every tracked container missing from the listing
     * is evicted, the others are left alone.
     */
    method EvictGone(live: seq<string>)
      requires Coherent(State(infos, stats, store)) && Interface !in labelNames
      modifies this
      ensures labelNames == old(labelNames) && frozen == old(frozen)
      ensures State(infos, stats, store) == Evict(old(State(infos, stats, store)), cfg, labelNames, live)
    {
      ghost var s1 := State(infos, stats, store);
      ghost var gone: set<string> := {};
      var ids := stats.Keys;
      RemainingNone(s1.store);
      while ids != {}
        invariant labelNames == old(labelNames) && frozen == old(frozen)
        invariant ids <= s1.stats.Keys && gone <= s1.stats.Keys && gone !! ids
        invariant forall id :: id in gone ==> id !in live
        invariant forall id :: id in s1.stats && id !in ids && id !in live ==> id in gone
        invariant infos == s1.infos - gone && stats == s1.stats - gone
        invariant store == Remaining(s1.store, OwnersOf(s1, cfg, labelNames, gone))
        decreases ids
      {
        var id :| id in ids;
        var found := Contains(live, id);
        if !found {
          ghost var base := Labels(cfg, labelNames, id, s1.infos[id], true);
          EvictContainer(id);
          RemoveOne(s1.infos, gone, id);
          RemoveOne(s1.stats, gone, id);
          OwnersOfStep(s1, cfg, labelNames, gone, id);
          RemainingStep(s1.store, OwnersOf(s1, cfg, labelNames, gone), id, base, id[..12]);
          gone := gone + {id};
        }
        ids := ids - {id};
      }
      assert gone == Gone(s1, live);
    }

    /**
     * One gathering cycle: the node gauges once the vectors exist, the
     * container loop, then the eviction loop. It is run once before the
     * freeze, with nothing tracked, and then periodically.
     */
    method GatherMetrics(live: seq<string>, inspect: map<string, ContainerInfo>, snaps: map<string, Snapshot>, node: NodeInfo)
      requires Valid() && (frozen || stats == map[])
      requires Listed(infos, live, inspect, snaps) && UniqueIds(live)
      modifies this
      ensures Valid() && labelNames == old(labelNames) && frozen == old(frozen)
      ensures State(infos, stats, store) == Gather(old(State(infos, stats, store)), frozen, cfg, labelNames, node, live, inspect, snaps)
    {
      ghost var st := State(infos, stats, store);
      assert Ready(cfg, labelNames, stats, live);
      PublishNodeGauges(node);
      ObserveContainers(live, inspect, snaps, node);
      ObserveAllCoherent(NodeStage(st, frozen, labelNames, node), cfg, labelNames, node, live, inspect, snaps);
      EvictGone(live);
      GatherTracks(st, frozen, cfg, labelNames, node, live, inspect, snaps);
      if frozen {
        GatherNoOrphans(st, frozen, cfg, labelNames, node, live, inspect, snaps);
        GatherConforming(st, frozen, cfg, labelNames, node, live, inspect, snaps);
      } else {
        GatherStartup(st, cfg, labelNames, node, live, inspect, snaps);
      }
    }
}
}

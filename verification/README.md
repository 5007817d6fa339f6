# cStatsExporter metric engine in Dafny

cStatsExporter is a Prometheus exporter for Docker containers on Windows
hosts. Every scrape interval it runs one gathering cycle. The cycle does
the following:

- It publishes three per-node gauges.
- It lists the running containers.
- It inspects each container the first time it sees it.
- Against the container's previous stats snapshot, it publishes:
  - the host gauge;
  - the CPU, memory and storage series;
  - the per-interface network counters, increased by the difference of the two cumulative readings.
- It stores the new snapshot.
- For each tracked container that is no longer listed, it deletes:
  - the series under the container's label map;
  - the series of the interfaces in its last snapshot;
  - its `host_meta` series under the current node identity.

  It then forgets the container. Findings rows 2 and 3 show that this can
  leave some of the container's series behind.

The per-container vectors are created once, after the first cycle. Their
label names are the *schema*: the union of the unfiltered label names of the
containers known at that point. The per-interface counters add `interface`
to it. The three node gauges and `host_meta` have fixed label names of their
own (main.go:141-153).

In Docker mode, a container's label map is then filtered to exactly the
schema. Names it lacks are added with an empty value, and names outside the
schema are dropped. In Kubernetes mode the map is always the seven fixed
names, and no filter is applied. A write whose label names differ from the
vector's makes `GetCounter` or `GetGauge` panic.

The project models this engine as follows.

| Module | File | What it holds |
|---|---|---|
| `Docker` | `docker.dfy` | The engine records the code reads: snapshot, container metadata, node information and configuration. Counters are unsigned 64-bit integers. |
| `Labeling` | `labels.dfy` | `NormalizeLabel`, the label map `BuildLabels` returns in either mode (filtered or not), and the iteration helper `GetKeys`. |
| `Schema` | `schema.dfy` | The frozen schema as the startup loop computes it, its shape in each mode, the Kubernetes-mode mismatch, and the corrected schema. |
| `Series` | `series.dfy` | The metric vectors as one store of `(metric, label map)` keys. `CounterAdd` and `GaugeSet` can be applied only when the label names match the vector's declared names, which models `GetCounter`/`GetGauge` panicking otherwise. `Apply` folds a sequence of such writes. |
| `Deltas` | `deltas.dfy` | What one container publishes against its previous snapshot: the unsigned wrap-around deltas, the fixed metric plan with its two optional gauges, and the per-interface loop. |
| `Cycle` | `cycle.dfy` | One gathering cycle as functions on `State(infos, stats, store)`: node stage, container loop, eviction. It also holds the properties of the cycle and both eviction variants. |
| `Exporter` | `exporter.dfy` | The exporter's mutable globals as a class with the procedures that update them: `BuildLabels` with its loops, the schema freeze, `DeleteMetrics`, per-container publishing, eviction and `GatherMetrics`. Each method is proved equal to the function in `Labeling`, `Schema`, `Deltas` or `Cycle` that specifies it. |

Counter values are modelled as exact reals. A delta is
`(cur - prev) mod 2^64`, because Go subtracts `uint64` values before converting
to `float64`. CPU time is divided by 10,000,000 and the CPU quota by 10,000,
as the code does.

With no container running at startup the frozen schema is empty, because
the startup loop over `infos` adds nothing (`Schema.FrozenSchemaShape`). In
Docker mode every later container's filtered label map is then the empty
map, so all containers write into one series per vector. The counters sum
over all containers, each gauge holds the figure of the container visited
last, and evicting any container deletes the series of the live ones
(Findings row 4). The corrected schema always holds the built-ins `id`,
`image` and `name`, so different containers keep different series.

Where the code is wrong (see "## Findings"), the cycle the class runs is
the corrected one. Each row of the table below that describes corrected
behaviour starts with "Corrected:". The code as written is kept beside it,
in `Schema.FrozenSchema` and `Cycle.EvictAsWritten`.

Eviction removes the series a container *owns* (`Cycle.Owned`). Two facts tie
that notion to what the exporter writes:

- Every series a container publishes is one it owns (`Cycle.PublishedIsOwned`).
- Every stored series is a node gauge or is owned by a tracked container
  (`Cycle.NoOrphans`). Each step of a cycle keeps this, and the class
  invariant includes it.

## Model

| member | source | states |
|---|---|---|
| Labeling.NormalizeLabel | main.go:103-105 | The result is `container_label_` followed by the key, with `.` and `-` replaced by `_` and upper-case ASCII letters lowered, character by character. It is 16 characters longer than the key and contains no `.`, no `-` and no upper-case letter. |
| Labeling.NormalizedNeverReserved | main.go:103-105 | A normalised name is never one of the built-in names (`id`, `image`, `name`), a Kubernetes-mode name or `interface`. |
| Labeling.NormalizeCollides | main.go:103-105 | Normalisation is not injective: `a.b` and `A-b` both become `container_label_a_b`. |
| Labeling.ContainerLabelsKeys | main.go:418-420 | Adding the container labels gives exactly the base names plus the normalised names. |
| Labeling.ContainerLabelsKeep | main.go:418-420 | A base label that no container label normalises to keeps its value. |
| Labeling.LastLabelWins | main.go:418-420 | Under a normalised name, the value is the one from the last container label that normalises to it. |
| Labeling.RawLabelsShape | main.go:417-420 | An unfiltered Docker-mode map has the built-ins plus the normalised names. `id` is `/docker/<id>`, and `image` and `name` come from the inspection; container labels never overwrite them. |
| Labeling.KubernetesLabelsShape | main.go:409-415 | A Kubernetes-mode map has exactly the seven fixed names, whether filtered or not. |
| Labeling.KubernetesLabelValues | main.go:409-415 | In a Kubernetes-mode map, `id` is `/docker/<id>` and `image` comes from the inspection. Pod and namespace come from the two well-known labels, with an empty value when the label is absent. The hostname is NODE_NAME, the OS is `windows` and the role is `node`. |
| Labeling.LabelValueAbsent | main.go:411-412 | Reading a label the container does not carry gives the empty string, as a Go map index does. |
| Labeling.LabelValueLast | main.go:411-412 | Reading a label gives the value of the last entry carrying that key. |
| Labeling.Labels | main.go:406-439 | Definition of `BuildLabels`. In Kubernetes mode it is the Kubernetes map, whatever `filter` says. Otherwise it is the unfiltered Docker map, passed through `Filter` when `filter` is set. |
| Labeling.Filter | main.go:422-435 | Definition: exactly the schema's names. Each carries the original value, or the empty value where the name was missing. |
| Labeling.KubernetesLabels | main.go:409-415 | Definition: the seven fixed names with the values listed under `Labeling.KubernetesLabelValues`. |
| Labeling.RawLabels | main.go:417-420 | Definition: the built-ins `id`, `image` and `name` are written first. Then each container label is written under its normalised name, in visiting order. |
| Labeling.LabelsKeys | main.go:406-439 | The names of a `BuildLabels` map: the seven fixed names in Kubernetes mode, the schema when filtering, and otherwise the built-ins plus the normalised names. |
| Labeling.GetKeys | main.go:107-113 | Returns every key of the map exactly once. |
| Series.CounterAdd | main.go:441-447 | A counter update is allowed only under the vector's declared label names and with a non-negative increment. The series grows by exactly that increment. |
| Series.GaugeSet | main.go:449-455 | A gauge update is allowed only under the vector's declared label names. The series takes the value. |
| Series.ApplyKeys | main.go:320-339 | A write sequence adds exactly the series it addresses. |
| Series.ApplyUntouched | main.go:320-339 | A series that no write addresses keeps its value or its absence. |
| Series.ApplyAddOnce | main.go:320-339 | A counter addressed once grows by its increment. |
| Series.ApplySetLast | main.go:320-339 | A gauge holds the value of the last write to it. |
| Series.ApplyMonotonic | main.go:441-447 | No write sequence decreases a counter. |
| Series.ApplyConforming | main.go:441-455 | Allowed writes keep every stored series under its vector's declared names. |
| Series.ApplyAdd | main.go:320-339 | In a sequence that addresses each series once, an added counter grows by its increment. |
| Series.ApplySet | main.go:320-339 | In a sequence that addresses each series once, a set gauge holds its value. |
| Schema.FrozenSchema | main.go:128-133 | Definition, as written: the union, over every known container, of the names of its unfiltered label map. |
| Schema.DockerEmptyStartupMerges | main.go:128-133 | As written, in Docker mode with no container at startup: the schema is empty, and any two containers get the same filtered label map, the empty map. |
| Schema.FixedSchema | main.go:128-138 | Corrected definition: the seven fixed names in Kubernetes mode. In Docker mode it is the built-ins together with the frozen schema. |
| Schema.FixedSchemaSeparates | main.go:406-439 | Corrected: under the corrected schema, the filtered label maps of two different containers both carry `id`, with different values. |
| Schema.NamesOfStep | main.go:128-133 | Collecting one more container adds exactly that container's unfiltered label names. |
| Schema.FrozenSchemaByLabels | main.go:128-133 | The frozen schema is the union of the names of the unfiltered label maps of all known containers. |
| Schema.FrozenSchemaKubernetes | main.go:128-133 | In Kubernetes mode, with at least one container known, the frozen schema is the seven fixed names. |
| Schema.FrozenSchemaDocker | main.go:128-133 | In Docker mode, with at least one container known, the frozen schema is the built-ins plus every normalised container label name. |
| Schema.FrozenSchemaShape | main.go:124-138 | The frozen schema by mode: empty with no container at startup, otherwise as the two lemmas above. It never holds `interface`. |
| Schema.KubernetesEmptyStartupMismatch | main.go:124-138 | In Kubernetes mode with no container at startup, the schema is empty, yet a filtered label map has seven names. The two differ, so the first counter update would panic. |
| Schema.FixedSchemaFits | main.go:409-438 | The corrected schema holds exactly the names of every filtered label map, in both modes. It equals the frozen schema whenever a container was known. In Docker mode with none known it is the built-ins. It never holds `interface`. |
| Schema.FixedSchemaValid | main.go:128-138 | The corrected schema fits every label map and never holds `interface`. |
| Schema.FitsLabels | main.go:422-435 | Under a fitting schema, a filtered label map has exactly the schema's names. |
| Schema.FilteredWithoutInterface | main.go:406-439 | A filtered label map never holds `interface` when the schema does not. |
| Deltas.HostKey | main.go:318 | Definition: the `host_meta` series under the node id, the container's twelve-character short id and the node name. |
| Deltas.ContainerPlan | main.go:320-339 | Definition: the vectors one container writes, in source order. The CPU quota is included only with positive nano-CPUs, and the memory limit only with a positive limit. |
| Deltas.Sample | main.go:320-339 | Definition of each vector's figure. The CPU deltas are divided by 10,000,000 and the quota by 10,000. The read time, commit size, working set and memory limit are taken as they are, and the storage deltas are the wrap-around differences. |
| Deltas.NetworkLoop | main.go:341-353 | Definition: the loop over the new snapshot's interfaces in a given order. Each interface the previous snapshot also has gets its eight counters increased. |
| Deltas.PublishContainer | main.go:317-353 | Definition of one container's publication. The host gauge is set to 1, then the plan's vectors are written, then the network counters of every common interface are increased. |
| Deltas.Increment | main.go:320-351 | Adding the delta to the previous reading gives the current one modulo 2^64. The delta is the plain difference when the counter did not go down. |
| Deltas.CpuSecondsExample | main.go:320-321 | A CPU delta of 50,000,000 units of 100 ns is 5 seconds. |
| Deltas.PublishInterfaceIsPointwise | main.go:342-351 | The eight counter updates of one common interface increase each of its eight series by its own delta. |
| Deltas.PublishInterfaceStep | main.go:341-353 | Publishing one more common interface extends the set of interfaces published. |
| Deltas.NetworkLoopIsPublish | main.go:341-353 | The network loop, in any visiting order with no repeats, increases each common interface's counters exactly once. The random order of Go's map iteration does not change the result. |
| Deltas.NetDeltaOf | main.go:344-351 | The delta of a per-interface series is the wrap-around difference of that interface's field in the two snapshots. |
| Deltas.PublishNetworkOnKey | main.go:341-353 | A per-interface series of a common interface grows by its delta. Every other series is left alone. |
| Deltas.ContainerPlanIsDistinct | main.go:320-339 | The per-container plan never names a vector twice. |
| Deltas.ContainerPlanMembers | main.go:322-333 | The CPU quota is written exactly when the nano-CPUs are positive, and the memory limit exactly when the limit is positive. The other nine vectors are always written. |
| Deltas.WritesAllowed | main.go:320-339 | Under a label map holding exactly the schema, every planned write is accepted by its vector. |
| Deltas.WritesEffect | main.go:320-339 | Each planned series takes its gauge value or grows by its counter delta. No other series changes. |
| Deltas.PublishWithEffect | main.go:317-353 | One container's publication sets the host gauge to 1, writes each planned series, and increases each common interface's counters by their deltas. Nothing else changes. |
| Deltas.PublishContainerEffect | main.go:317-353 | The same, for the plan the container's metadata selects. |
| Deltas.SampleNonNegative | main.go:320-339 | A counter sample is never negative, so `Add` never panics. |
| Deltas.PublishContainerMonotonic | main.go:317-353 | Publishing a container never decreases any counter. |
| Deltas.TouchedAccepted | main.go:441-455 | Every series a container's publication writes is accepted by its vector. |
| Deltas.PublishContainerConforming | main.go:441-455 | Publishing a container keeps every stored series under its vector's declared names. |
| Cycle.PublishNode | main.go:279-284 | Definition: the three node gauges, under the node's id and name, take presence 1, the CPU count and the memory size. |
| Cycle.NodeKeyAccepted | main.go:281-283 | The node series carry exactly the node label names, and the node vectors are gauges. |
| Cycle.PublishNodeEffect | main.go:279-284 | The node gauges take presence 1, the CPU count and the memory size. No other series changes. |
| Cycle.KnownInfos | main.go:294-301 | A new id gets its inspection. Metadata already known is kept. |
| Cycle.Observe | main.go:291-356 | One pass of the container loop. The id gets its new snapshot, and its metadata is kept or taken from the inspection, as `Cycle.KnownInfos` states. The store changes as `Cycle.ObserveEffect` states. |
| Cycle.ObserveAll | main.go:291-357 | The container loop in list order. Afterwards the tracked ids are the old ones plus the listed ones, in both `infos` and `stats`. |
| Cycle.ObserveEffect | main.go:291-356 | A container seen for the first time publishes nothing. Otherwise its host, plan and interface series change as `Deltas.PublishContainerEffect` states, and nothing else changes. |
| Cycle.ObserveAllTracks | main.go:291-357 | After the container loop, every listed id holds its new snapshot. An unlisted id keeps its snapshot. Known metadata is kept, and each new id holds its inspection. |
| Cycle.ObserveAllSilent | main.go:317-354 | A loop over containers that have no previous snapshot changes no series. |
| Cycle.ObserveAllMonotonic | main.go:291-357 | The container loop never decreases a counter. |
| Cycle.ObserveAllConforming | main.go:291-357 | The container loop keeps every stored series under its vector's declared names. |
| Cycle.ObserveAllCoherent | main.go:291-357 | The loop keeps the tracked ids of `infos` and `stats` consistent. |
| Cycle.Owned | main.go:318-351 | Definition: a series belongs to a container when it is a `host_meta` series naming its short id, whatever the node identity. It also belongs when it is a per-container vector under its label map, with or without an `interface` label. |
| Cycle.PublishedIsOwned | main.go:317-353 | Every series a container's publication writes belongs to it: the host series, the plan's vectors and the per-interface counters. |
| Cycle.EvictAsWritten | main.go:373-382 | Definition, as written. It removes the series under the label map and those under the label map plus each interface of the last snapshot. It also removes the one `host_meta` series under the evicting cycle's node identity. |
| Cycle.Purge | main.go:368-386 | Corrected definition: removes every series the container owns and keeps every other series with its value. |
| Cycle.SharedSeriesEvicted | main.go:373-374 | As written, in Docker mode with no container at startup: evicting a gone container deletes every per-container series of a live container, because both carry the empty label map. |
| Cycle.PurgeSparesOthers | main.go:368-386 | Corrected: under the corrected schema, evicting a container keeps every per-container series of any other container, with its value. |
| Cycle.StaleInterfaceSurvives | main.go:373-380 | Eviction as written keeps the counters of an interface the container had earlier but not in its last snapshot, although they belong to the container. |
| Cycle.StaleHostSurvives | main.go:318-382 | Eviction as written keeps a container's `host_meta` series that an earlier cycle wrote under a different node id or node name, although it belongs to the container. `Info`'s error is ignored at main.go:280, so one failed call gives empty node labels. |
| Cycle.DeletedIsOwned | main.go:373-382 | Every series that eviction as written deletes belongs to the evicted container. |
| Cycle.PurgeLeavesNothing | main.go:368-386 | Corrected: eviction of one container leaves none of its series behind, including `host_meta` series under any node identity. Every other series keeps its value, and everything eviction as written deletes is deleted too. |
| Cycle.PurgeByDeletes | main.go:372-382 | Corrected: eviction is `DeleteMetrics` under the label map, again for each interface named in the container's stored series, then deletion of every `host_meta` series whose `host` label is the container's short id. |
| Cycle.Evict | main.go:359-387 | Corrected definition of the eviction loop. Every tracked id that is not listed is forgotten, and every series such a container owns is removed. |
| Cycle.RemainingStep | main.go:360-386 | Corrected: evicting one more container purges its series from what the earlier evictions left. |
| Cycle.EvictEffect | main.go:359-387 | Corrected: after eviction exactly the listed ids stay tracked, with unchanged data. The series left are those that no evicted container owns, with unchanged values. |
| Cycle.EvictKeeps | main.go:359-387 | Corrected: every series left after eviction was there before, with the same value. |
| Cycle.EvictNoneGone | main.go:359-387 | Corrected: with no container gone, eviction changes nothing. |
| Cycle.EvictLeavesNothing | main.go:359-387 | Corrected: no series of an unlisted, tracked container survives eviction, whatever interfaces and node identities its series carry. |
| Cycle.NodeStageEffect | main.go:279-284 | The node stage changes no tracked metadata, no snapshot and no counter. |
| Cycle.Gather | main.go:271-391 | Corrected definition of one cycle: the node gauges once the vectors exist, then the container loop, then eviction. |
| Cycle.GatherTracks | main.go:271-391 | Corrected: after a cycle, exactly the listed containers are tracked, with their new snapshots and their metadata, and `infos` and `stats` agree. |
| Cycle.GatherEvicts | main.go:359-387 | Corrected: after a cycle, no series of a container that disappeared remains, whatever interfaces and node identities its series carry. |
| Cycle.GatherMonotonic | main.go:271-391 | Corrected: a counter that survives a cycle was not decreased. |
| Cycle.PublishNodeConforming | main.go:279-284 | The node gauges keep every stored series under its vector's declared names. |
| Cycle.GatherConforming | main.go:271-391 | Corrected: a cycle keeps every stored series under its vector's declared names, so no update panics. |
| Cycle.GatherStartup | main.go:124 | Corrected: the first cycle, before any snapshot exists, publishes nothing. |
| Cycle.NoOrphans | main.go:271-391 | Definition of the store invariant: every stored series is a node gauge or belongs to a tracked container. |
| Cycle.NodeStageNoOrphans | main.go:279-284 | The node gauges keep the invariant. |
| Cycle.ObserveKeepsTracked | main.go:291-356 | One pass of the container loop keeps every tracked container with its metadata and tracks the container it visits. |
| Cycle.ObserveAddsOwn | main.go:317-353 | Every series one pass of the container loop adds belongs to the container it visits. |
| Cycle.NoOrphansGrow | main.go:291-356 | A step that keeps every tracked container with its metadata, and adds only series of one tracked container, keeps the invariant. |
| Cycle.ObserveNoOrphans | main.go:291-356 | One pass of the container loop keeps the invariant, because it writes only series of the container it visits. |
| Cycle.ObserveAllNoOrphans | main.go:291-357 | The container loop keeps the invariant. |
| Cycle.EvictNoOrphans | main.go:359-387 | Corrected: eviction keeps the invariant. Every series left belongs to a container that is still tracked. |
| Cycle.GatherNoOrphans | main.go:271-391 | Corrected: a cycle keeps the invariant. Afterwards every series is a node gauge or belongs to a listed container, so every series of a container that later disappears is one eviction removes. |
| Cycle.FreezeReady | main.go:128-138 | Corrected: at the freeze nothing is published yet. The corrected schema fits every label map and holds no `interface`, and the store breaks no vector and has no orphan. |
| Exporter.Contains | main.go:361-367 | The search finds the id exactly when it is listed. |
| Exporter.AddContainerLabels | main.go:418-420 | The loop over the container labels builds `Labeling.WithContainerLabels`. |
| Exporter.AddMissing | main.go:424-428 | Afterwards the map holds the original names plus the schema. Missing names get the empty value, and existing values are kept. |
| Exporter.DropUnknown | main.go:431-435 | Afterwards the map holds exactly the names shared with the schema, with unchanged values. |
| Exporter.FilterLabels | main.go:422-435 | The filtered map has exactly the schema's names. Each value is the original one, or empty where the name was missing. |
| Exporter.AddKeys | main.go:130-132 | The name set grows by exactly the map's names. |
| Exporter.PublishNetworks | main.go:341-353 | The network loop in the snapshot's map order increases the counters of each common interface exactly once. |
| Exporter.RunNetworkLoop | main.go:341-353 | The loop over a given visiting order computes `Deltas.NetworkLoop`. |
| Exporter.Exporter.constructor | main.go:63-68 | The exporter starts with no metadata, no snapshot, no series and an empty, unfrozen schema. |
| Exporter.Exporter.BuildLabels | main.go:406-439 | Builds the label map of `Labeling.Labels` for the current schema. |
| Exporter.Exporter.CollectNames | main.go:129-132 | Adds one container's unfiltered label names to the schema and changes nothing else. |
| Exporter.Exporter.CollectAllNames | main.go:128-133 | Collects the union of all known containers' names. |
| Exporter.Exporter.Freeze | main.go:128-138 | Freezes the corrected schema, `Schema.FixedSchema`, and changes nothing else. |
| Exporter.Exporter.DeleteMetrics | main.go:393-404 | Removes the series under exactly this label map from every per-container vector and changes nothing else. |
| Exporter.Exporter.PublishNodeGauges | main.go:279-284 | Writes the node gauges only after the freeze, as `Cycle.NodeStage`. |
| Exporter.Exporter.PublishContainerSeries | main.go:317-353 | Updates the store as `Deltas.PublishContainer`. |
| Exporter.Exporter.ObserveContainer | main.go:291-356 | One pass of the container loop, as `Cycle.Observe`. |
| Exporter.Exporter.ObserveContainers | main.go:291-357 | The whole container loop, as `Cycle.ObserveAll`. |
| Exporter.Exporter.DeleteInterfaceMetrics | main.go:376-380 | Removes the per-interface series of the given interfaces under the label map. |
| Exporter.Exporter.EvictContainer | main.go:368-386 | Corrected: forgets the container and removes its series as `Cycle.Purge`. That includes every `host_meta` series naming its short id, as a partial-match delete on the `host` label. |
| Exporter.Exporter.EvictGone | main.go:359-387 | Corrected: the eviction loop, as `Cycle.Evict`. |
| Exporter.Exporter.GatherMetrics | main.go:271-391 | Corrected: a whole cycle, as `Cycle.Gather`. It keeps the class invariant, which includes `Cycle.NoOrphans` once the vectors exist. |

## Left out

- The Docker client calls are not modelled: `Info`, `ContainerList`, `ContainerInspect`, `ContainerStats` and the JSON decoding of the stats stream. Their results are the inputs `node`, `live`, `inspect` and `snaps`.
- The HTTP endpoint, `promhttp`, the signal handling, the goroutine that repeats the cycle, the sleep and the configuration loading (`GetConfig`, viper) are not modelled. They are I/O or scheduling.
- The console output is not modelled.
- The `NODE_NAME` environment variable is the field `Config.nodeName`.
- Counter values are exact reals, not `float64`. The rounding of large deltas is not modelled.
- Labeling.NormalizeLabel: lowers ASCII letters only. Go's `strings.ToLower` also maps other Unicode letters.
- Container labels are a sequence in the order Go's map iteration happens to visit them. When two raw labels normalise to the same name, which value wins depends on that order, which Go randomises. Network interfaces are visited in the order `Labeling.GetKeys` returns. Containers are evicted in an unspecified set order. None of these orders changes any stated result, except two cases. The first is the label collision. The second is two containers with the same label map, as in Findings row 4: there the container list order decides which container's figure each gauge holds.
- Exporter.Exporter.GatherMetrics: requires `frozen` or no snapshot yet. `main` calls it once before the freeze and only afterwards from the periodic loop.
- Container ids must have at least 12 characters, because Go's `id[:12]` panics otherwise. The container list must have no duplicate ids, as the engine guarantees.
- A `GetCounter`/`GetGauge` panic is modelled as a precondition (`Series.Accepts`) that the model proves is always met under the corrected schema.
- The in-place mutation of the label map by the network loop (`labels[InterfaceLabel] = ...`) is modelled as a fresh map per interface.
- Exporter.Exporter.Freeze: models the corrected schema (Findings rows 1 and 4), not the frozen schema as written. `Schema.FrozenSchema`, `Schema.KubernetesEmptyStartupMismatch` and `Schema.DockerEmptyStartupMerges` model the code as written.
- Exporter.Exporter.EvictContainer: models corrected eviction (Findings rows 2 and 3). It deletes the series of every interface its stored series name, not only those of the last snapshot, and every `host_meta` series naming its short id, not only the one under the current node. `Cycle.EvictAsWritten` models the code as written.
- Cycle.Evict: the eviction loop with corrected eviction (Findings rows 2 and 3), not the code as written.
- Cycle.Gather: a cycle with corrected eviction. Its callers supply a schema that fits every label map (`Cycle.Ready`), which is what the corrected schema of `Exporter.Exporter.Freeze` provides (Findings row 1).
- Cycle.EvictEffect: states corrected eviction, not the code as written.
- Cycle.EvictLeavesNothing: holds for corrected eviction only. As written, stale interface and host series survive (`Cycle.StaleInterfaceSurvives`, `Cycle.StaleHostSurvives`).
- Cycle.GatherEvicts: holds for corrected eviction only, for the same reason.
- Exporter.Exporter.EvictGone: runs corrected eviction, as `Cycle.Evict`.
- Exporter.Exporter.GatherMetrics: runs `Cycle.Gather`, with corrected eviction and the corrected schema from `Exporter.Exporter.Freeze`.
- The vectors' creation options are not modelled: help texts and Prometheus names. Each constructor of `Series.Metric` stands for the vector registered at main.go:141-249.
- Cycle.EvictNoOrphans: holds for corrected eviction only. As written, the stale series of Findings rows 2 and 3 remain after their container is forgotten, so they belong to no tracked container.
- Cycle.GatherNoOrphans: holds for corrected eviction only, for the same reason.

## Findings

| source | as written | input that shows it | evidently intended | confidence | as-written member | corrected member |
|---|---|---|---|---|---|---|
| main.go:128-138 | The schema is the union of the label names of the containers known after the first cycle. In Kubernetes mode with no container running at startup, it is empty. | Kubernetes mode, no container at startup, one container started later: its filtered label map has seven names, the counter vectors declare none, and `GetCounter` panics on the second cycle that sees it. | In Kubernetes mode the seven fixed names are the schema, whether or not a container was known. | not executed | Schema.KubernetesEmptyStartupMismatch | Schema.FixedSchemaFits |
| main.go:375-380 | A gone container's per-interface series are deleted only for the interfaces in its last snapshot. | `eth0` is in two consecutive snapshots of a container, so its counters are published, and then only `eth1` is. Its `eth0` counters stay in the store after it is evicted. | Every series the container owns is deleted, including those of interfaces that are no longer present. | not executed | Cycle.StaleInterfaceSurvives | Cycle.PurgeLeavesNothing |
| main.go:382 | A gone container's `host_meta` series is deleted only under the node id and node name of the evicting cycle, although main.go:318 wrote it under the node identity of each earlier cycle. The error of `cli.Info` is ignored at main.go:280. | `cli.Info` fails in one cycle, so `host_meta{node_id="", host=<short id>, node_name=""}` is set. The next `Info` succeeds, the container then stops, and its eviction deletes only the series under the real node id, so the empty-labelled series stays. A renamed node does the same. | Every `host_meta` series of the container is deleted, whatever node identity it carries. | not executed | Cycle.StaleHostSurvives | Cycle.EvictLeavesNothing |
| main.go:128-133 | In Docker mode the schema is only the label names of the containers known at startup. With none known it is empty, and the filter at main.go:422-435 then maps every container to the empty label map. | Docker mode, no container at startup, containers `a` and `b` started later: both write to the same series of each vector. The counters add up both containers, the gauges hold whichever was listed last, and when `a` stops, `DeleteMetrics` at main.go:373-374 also deletes `b`'s series. | The schema always holds the built-ins `id`, `image` and `name`, so containers keep separate series. | not executed | Cycle.SharedSeriesEvicted | Cycle.PurgeSparesOthers |

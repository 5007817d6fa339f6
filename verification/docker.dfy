/**
 * The records the exporter receives from the Docker engine, reduced to the
 * fields the metric engine reads.
 */
module Docker {

  const TWO_64: int := 0x1_0000_0000_0000_0000

  /** Docker reports every cumulative counter and every memory figure as an unsigned 64-bit integer. */
  type U64 = x: int | 0 <= x < 0x1_0000_0000_0000_0000

  /** Cumulative counters of one network interface of a container. */
  datatype NetStats = NetStats(
    rxBytes: U64, rxErrors: U64, rxDropped: U64, rxPackets: U64,
    txBytes: U64, txErrors: U64, txDropped: U64, txPackets: U64)

  /**
   * One decoded stats record of a container: the capture time (Unix seconds),
   * cumulative CPU time in 100 ns units, memory gauges, cumulative storage
   * counters and the per-interface network counters.
   */
  datatype Snapshot = Snapshot(
    read: int,
    cpuTotal: U64, cpuKernel: U64,
    memCommit: U64, memWorkingSet: U64,
    fsReadBytes: U64, fsReads: U64, fsWriteBytes: U64, fsWrites: U64,
    networks: map<string, NetStats>)

  /**
   * What an inspection of a container yields: its name, image reference,
   * free-form labels (in the order they are visited), CPU quota in
   * nano-CPUs and memory limit in bytes (both 0 when unset).
   */
  datatype ContainerInfo = ContainerInfo(
    name: string, image: string, labels: seq<(string, string)>,
    nanoCpus: int, memory: int)

  /** Engine-level information: swarm node id, node name, CPU count, total memory. */
  datatype NodeInfo = NodeInfo(nodeId: string, name: string, cpus: int, memTotal: int)

  /** Read-only configuration: Kubernetes label mode and the NODE_NAME environment value. */
  datatype Config = Config(kubernetes: bool, nodeName: string)
}

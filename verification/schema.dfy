/**
 * The label schema: the set of label names every per-container metric
 * vector is created with, frozen once after the first gathering cycle.
 */
module Schema {
  import opened Docker
  import opened Labeling

  /** The unfiltered label names of the known containers `ids`. */
  function NamesOf(cfg: Config, infos: map<string, ContainerInfo>, ids: set<string>): set<string>
    requires ids <= infos.Keys
  {
    set id, k | id in ids && k in LabelKeys(cfg, {}, infos[id], false) :: k
  }

  /** Collecting the names one container at a time. */
  lemma NamesOfStep(cfg: Config, infos: map<string, ContainerInfo>, ids: set<string>, id: string)
    requires ids <= infos.Keys && id in infos
    ensures NamesOf(cfg, infos, ids + {id}) == NamesOf(cfg, infos, ids) + LabelKeys(cfg, {}, infos[id], false)
  {
    var lhs := NamesOf(cfg, infos, ids + {id});
    var rhs := NamesOf(cfg, infos, ids) + LabelKeys(cfg, {}, infos[id], false);
    forall k | k in lhs ensures k in rhs {
      var x :| x in ids + {id} && k in LabelKeys(cfg, {}, infos[x], false);
    }
  }

  /** The union of the unfiltered label names of every known container (the startup loop of `main`). */
  function FrozenSchema(cfg: Config, infos: map<string, ContainerInfo>): set<string> {
    NamesOf(cfg, infos, infos.Keys)
  }

  /** Every normalised label name of every known container. */
  function ContainerLabelNames(infos: map<string, ContainerInfo>): set<string> {
    set id, k | id in infos && k in NormalizedKeys(infos[id].labels) :: k
  }

  /** The frozen schema is exactly the set of names occurring in the unfiltered label maps BuildLabels returns. */
  lemma FrozenSchemaByLabels(cfg: Config, infos: map<string, ContainerInfo>)
    ensures FrozenSchema(cfg, infos) == set id, k | id in infos && k in Labels(cfg, {}, id, infos[id], false) :: k
  {
    forall id | id in infos {
      LabelsKeys(cfg, {}, id, infos[id], false);
    }
  }

  lemma FrozenSchemaKubernetes(cfg: Config, infos: map<string, ContainerInfo>)
    requires cfg.kubernetes && infos != map[]
    ensures FrozenSchema(cfg, infos) == KubernetesKeys
  {
    var id0 :| id0 in infos;
    assert forall k :: k in KubernetesKeys ==> k in LabelKeys(cfg, {}, infos[id0], false);
  }

  lemma FrozenSchemaDocker(cfg: Config, infos: map<string, ContainerInfo>)
    requires !cfg.kubernetes && infos != map[]
    ensures FrozenSchema(cfg, infos) == Builtins + ContainerLabelNames(infos)
  {
    var u := FrozenSchema(cfg, infos);
    var own := ContainerLabelNames(infos);
    var id0 :| id0 in infos;
    forall k | k in u ensures k in Builtins + own {
      var id :| id in infos && k in LabelKeys(cfg, {}, infos[id], false);
    }
    forall k | k in own ensures k in u {
      var id :| id in infos && k in NormalizedKeys(infos[id].labels);
      assert k in LabelKeys(cfg, {}, infos[id], false);
    }
    forall k | k in Builtins ensures k in u {
      assert k in LabelKeys(cfg, {}, infos[id0], false);
    }
  }

  /**
   * The frozen schema by mode: empty when no container was known, the seven
   * fixed names in Kubernetes mode, otherwise the built-ins plus every
   * normalised container label name; never the `interface` label.
   */
  lemma FrozenSchemaShape(cfg: Config, infos: map<string, ContainerInfo>)
    ensures infos == map[] ==> FrozenSchema(cfg, infos) == {}
    ensures infos != map[] && cfg.kubernetes ==> FrozenSchema(cfg, infos) == KubernetesKeys
    ensures infos != map[] && !cfg.kubernetes ==> FrozenSchema(cfg, infos) == Builtins + ContainerLabelNames(infos)
    ensures Interface !in FrozenSchema(cfg, infos)
  {
    if infos != map[] && cfg.kubernetes {
      FrozenSchemaKubernetes(cfg, infos);
    } else if infos != map[] {
      FrozenSchemaDocker(cfg, infos);
      forall id, p | id in infos && p in infos[id].labels ensures NormalizeLabel(p.0) != Interface {
        NormalizedNeverReserved(p.0);
      }
    }
  }

  /**
   * In Kubernetes mode with no container at startup the frozen schema is
   * empty, yet every later container's filtered label map has seven names:
   * the map does not fit the vectors, and the first counter update panics.
   */
  lemma KubernetesEmptyStartupMismatch(cfg: Config, id: string, info: ContainerInfo)
    requires cfg.kubernetes
    ensures FrozenSchema(cfg, map[]) == {}
    ensures Labels(cfg, FrozenSchema(cfg, map[]), id, info, true).Keys != FrozenSchema(cfg, map[])
  {
    FrozenSchemaShape(cfg, map[]);
    KubernetesLabelsShape(cfg, {}, id, info, true);
  }

  /**
   * In Docker mode with no container at startup the frozen schema is empty,
   * so every later container's filtered label map is the empty map: all
   * containers share one series per vector.
   */
  lemma DockerEmptyStartupMerges(cfg: Config, a: string, ia: ContainerInfo, b: string, ib: ContainerInfo)
    requires !cfg.kubernetes
    ensures FrozenSchema(cfg, map[]) == {}
    ensures Labels(cfg, FrozenSchema(cfg, map[]), a, ia, true) == Labels(cfg, FrozenSchema(cfg, map[]), b, ib, true) == map[]
  {
    FrozenSchemaShape(cfg, map[]);
  }

  /**
   * The schema with the label names every container carries fixed up front:
   * the seven names in Kubernetes mode, and in Docker mode the built-ins
   * together with the discovered names.
   */
  function FixedSchema(cfg: Config, infos: map<string, ContainerInfo>): set<string> {
    if cfg.kubernetes then KubernetesKeys else Builtins + FrozenSchema(cfg, infos)
  }

  /** Under the corrected schema, the filtered label maps of two different containers differ in their `id` label. */
  lemma FixedSchemaSeparates(cfg: Config, infos: map<string, ContainerInfo>, a: string, ia: ContainerInfo, b: string, ib: ContainerInfo)
    requires a != b
    ensures "id" in Labels(cfg, FixedSchema(cfg, infos), a, ia, true)
    ensures "id" in Labels(cfg, FixedSchema(cfg, infos), b, ib, true)
    ensures Labels(cfg, FixedSchema(cfg, infos), a, ia, true)["id"] != Labels(cfg, FixedSchema(cfg, infos), b, ib, true)["id"]
  {
    var schema := FixedSchema(cfg, infos);
    FixedSchemaValid(cfg, infos);
    LabelsKeys(cfg, schema, a, ia, true);
    LabelsKeys(cfg, schema, b, ib, true);
    if !cfg.kubernetes {
      RawLabelsShape(a, ia);
      RawLabelsShape(b, ib);
    }
    assert ("/docker/" + a)[8..] == a && ("/docker/" + b)[8..] == b;
  }

  /**
   * The corrected schema accepts the filtered label map of every container in
   * both modes, agrees with the discovered one whenever a container was known
   * at startup, is the built-ins in Docker mode otherwise, and never holds
   * `interface`.
   */
  lemma FixedSchemaFits(cfg: Config, infos: map<string, ContainerInfo>, id: string, info: ContainerInfo)
    ensures Labels(cfg, FixedSchema(cfg, infos), id, info, true).Keys == FixedSchema(cfg, infos)
    ensures infos != map[] ==> FixedSchema(cfg, infos) == FrozenSchema(cfg, infos)
    ensures infos == map[] && !cfg.kubernetes ==> FixedSchema(cfg, infos) == Builtins
    ensures Interface !in FixedSchema(cfg, infos)
    ensures Fits(cfg, FixedSchema(cfg, infos))
  {
    FixedSchemaValid(cfg, infos);
    LabelsKeys(cfg, FixedSchema(cfg, infos), id, info, true);
  }

  /** The corrected schema fits the label maps and never holds `interface`. */
  lemma FixedSchemaValid(cfg: Config, infos: map<string, ContainerInfo>)
    ensures infos != map[] ==> FixedSchema(cfg, infos) == FrozenSchema(cfg, infos)
    ensures infos == map[] && !cfg.kubernetes ==> FixedSchema(cfg, infos) == Builtins
    ensures Interface !in FixedSchema(cfg, infos)
    ensures Fits(cfg, FixedSchema(cfg, infos))
  {
    FrozenSchemaShape(cfg, infos);
  }

  /** A schema the filtered label maps fit: in Kubernetes mode it must be the seven fixed names. */
  predicate Fits(cfg: Config, schema: set<string>) {
    cfg.kubernetes ==> schema == KubernetesKeys
  }

  /** Under a fitting schema, every container's filtered label map carries exactly the schema's names. */
  lemma FitsLabels(cfg: Config, schema: set<string>, id: string, info: ContainerInfo)
    requires Fits(cfg, schema)
    ensures Labels(cfg, schema, id, info, true).Keys == schema
  {
    LabelsKeys(cfg, schema, id, info, true);
  }

  /** A filtered label map never carries `interface` when the schema does not. */
  lemma FilteredWithoutInterface(cfg: Config, schema: set<string>, id: string, info: ContainerInfo)
    requires Interface !in schema
    ensures Interface !in Labels(cfg, schema, id, info, true)
  {
    LabelsKeys(cfg, schema, id, info, true);
    if cfg.kubernetes {
      FixedSchemaValid(cfg, map[]);
    }
  }
}

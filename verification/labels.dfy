/**
 * Label names and label maps: the label names BuildLabels derives from
 * Docker label keys and the label maps it produces for a container in each
 * of its three modes.
 */
module Labeling {
  import opened Docker

  const Prefix: string := "container_label_"
  const Interface: string := "interface"
  const PodNameKey: string := "io.kubernetes.pod.name"
  const PodNamespaceKey: string := "io.kubernetes.pod.namespace"

  /** The label names every container carries outside Kubernetes mode. */
  const Builtins: set<string> := {"id", "image", "name"}

  /** The seven label names of Kubernetes mode. */
  const KubernetesKeys: set<string> :=
    {"id", "image", "pod", "namespace", "kubernetes_io_hostname", "beta_kubernetes_io_os", "kubernetes_io_role"}

  predicate IsUpper(c: char) {
    'A' <= c <= 'Z'
  }

  /** One character of a label key: `.` and `-` become `_`, ASCII letters are lower-cased. */
  function NormalizeChar(c: char): char {
    if c == '.' || c == '-' then '_'
    else if IsUpper(c) then (c as int + 32) as char
    else c
  }

  /**
   * The label name BuildLabels uses for a Docker label key: the prefix
   * `container_label_` followed by the key with `.` and `-` replaced by `_`
   * and lower-cased. No other character is replaced.
   */
  function NormalizeLabel(key: string): (r: string)
    ensures |r| == |key| + |Prefix|
    ensures r[..|Prefix|] == Prefix
    ensures forall i :: 0 <= i < |key| ==> r[|Prefix| + i] == NormalizeChar(key[i])
    ensures '.' !in r && '-' !in r
    ensures forall i :: 0 <= i < |r| ==> !IsUpper(r[i])
  {
    Prefix + seq(|key|, i requires 0 <= i < |key| => NormalizeChar(key[i]))
  }

  /** A normalised name can never be a built-in, a Kubernetes-mode or the interface label name. */
  lemma NormalizedNeverReserved(key: string)
    ensures NormalizeLabel(key) !in Builtins
    ensures NormalizeLabel(key) !in KubernetesKeys
    ensures NormalizeLabel(key) != Interface
  {
    var r := NormalizeLabel(key);
    assert |r| >= 16;
    assert forall k :: k in KubernetesKeys ==> |k| < 16 || k[0] != 'c';
    assert r[0] == 'c';
  }

  /** Normalisation is not injective: distinct Docker keys can share one metric label name. */
  lemma NormalizeCollides()
    ensures NormalizeLabel("a.b") == NormalizeLabel("A-b") == Prefix + "a_b"
  {
    var x, y := NormalizeLabel("a.b"), NormalizeLabel("A-b");
    assert x[|Prefix|..] == "a_b" == y[|Prefix|..] by {
      assert x[|Prefix|] == NormalizeChar('a') && x[|Prefix| + 1] == NormalizeChar('.') && x[|Prefix| + 2] == NormalizeChar('b');
      assert y[|Prefix|] == NormalizeChar('A') && y[|Prefix| + 1] == NormalizeChar('-') && y[|Prefix| + 2] == NormalizeChar('b');
    }
    assert x == x[..|Prefix|] + x[|Prefix|..];
    assert y == y[..|Prefix|] + y[|Prefix|..];
  }

  /** Go's map index on a container's labels: the value stored for `key`, or "" when absent. */
  function LabelValue(ls: seq<(string, string)>, key: string): string
    decreases |ls|
  {
    if ls == [] then ""
    else if ls[|ls| - 1].0 == key then ls[|ls| - 1].1
    else LabelValue(ls[..|ls| - 1], key)
  }

  /** The metric label names a container's own labels contribute. */
  function NormalizedKeys(ls: seq<(string, string)>): set<string> {
    set p | p in ls :: NormalizeLabel(p.0)
  }

  /** `base` with each container label written under its normalised name, later labels winning. */
  function WithContainerLabels(base: map<string, string>, ls: seq<(string, string)>): map<string, string>
    decreases |ls|
  {
    if ls == [] then base
    else WithContainerLabels(base, ls[..|ls| - 1])[NormalizeLabel(ls[|ls| - 1].0) := ls[|ls| - 1].1]
  }

  function BuiltinLabels(id: string, info: ContainerInfo): map<string, string> {
    map["id" := "/docker/" + id, "image" := info.image, "name" := info.name]
  }

  /** The unfiltered label map outside Kubernetes mode. */
  function RawLabels(id: string, info: ContainerInfo): map<string, string> {
    WithContainerLabels(BuiltinLabels(id, info), info.labels)
  }

  /** Restriction of `raw` to the schema, with "" for every schema label `raw` lacks. */
  function Filter(raw: map<string, string>, schema: set<string>): map<string, string> {
    map k | k in schema :: if k in raw then raw[k] else ""
  }

  function KubernetesLabels(cfg: Config, id: string, info: ContainerInfo): map<string, string> {
    map[
      "id" := "/docker/" + id,
      "image" := info.image,
      "pod" := LabelValue(info.labels, PodNameKey),
      "namespace" := LabelValue(info.labels, PodNamespaceKey),
      "kubernetes_io_hostname" := cfg.nodeName,
      "beta_kubernetes_io_os" := "windows",
      "kubernetes_io_role" := "node"]
  }

  /** The label map BuildLabels returns for a container, given the frozen schema. */
  function Labels(cfg: Config, schema: set<string>, id: string, info: ContainerInfo, filter: bool): map<string, string> {
    if cfg.kubernetes then KubernetesLabels(cfg, id, info)
    else if filter then Filter(RawLabels(id, info), schema)
    else RawLabels(id, info)
  }

  /** The key set of the unfiltered map: the built-ins plus one normalised name per container label. */
  lemma {:induction false} ContainerLabelsKeys(base: map<string, string>, ls: seq<(string, string)>)
    ensures WithContainerLabels(base, ls).Keys == base.Keys + NormalizedKeys(ls)
    decreases |ls|
  {
    if ls != [] {
      var init := ls[..|ls| - 1];
      ContainerLabelsKeys(base, init);
      assert ls == init + [ls[|ls| - 1]];
      assert NormalizedKeys(ls) == NormalizedKeys(init) + {NormalizeLabel(ls[|ls| - 1].0)};
    }
  }

  /** A label of `base` that no container label normalises to keeps its value. */
  lemma {:induction false} ContainerLabelsKeep(base: map<string, string>, ls: seq<(string, string)>, k: string)
    requires k in base && k !in NormalizedKeys(ls)
    ensures k in WithContainerLabels(base, ls) && WithContainerLabels(base, ls)[k] == base[k]
    decreases |ls|
  {
    if ls != [] {
      var init := ls[..|ls| - 1];
      assert NormalizedKeys(init) <= NormalizedKeys(ls);
      assert ls[|ls| - 1] in ls;
      ContainerLabelsKeep(base, init, k);
    }
  }

  /** The value under a normalised name is that of the last container label normalising to it. */
  lemma {:induction false} LastLabelWins(base: map<string, string>, ls: seq<(string, string)>, j: int)
    requires 0 <= j < |ls|
    requires forall j' :: j < j' < |ls| ==> NormalizeLabel(ls[j'].0) != NormalizeLabel(ls[j].0)
    ensures NormalizeLabel(ls[j].0) in WithContainerLabels(base, ls)
    ensures WithContainerLabels(base, ls)[NormalizeLabel(ls[j].0)] == ls[j].1
    decreases |ls|
  {
    if j < |ls| - 1 {
      var init := ls[..|ls| - 1];
      LastLabelWins(base, init, j);
    }
  }

  /**
   * Outside Kubernetes mode the unfiltered map holds exactly the built-ins and
   * the normalised container labels, and container labels never overwrite
   * `id`, `image` or `name`.
   */
  lemma RawLabelsShape(id: string, info: ContainerInfo)
    ensures RawLabels(id, info).Keys == Builtins + NormalizedKeys(info.labels)
    ensures RawLabels(id, info)["id"] == "/docker/" + id
    ensures RawLabels(id, info)["image"] == info.image
    ensures RawLabels(id, info)["name"] == info.name
  {
    var base := BuiltinLabels(id, info);
    ContainerLabelsKeys(base, info.labels);
    forall k | k in Builtins ensures k !in NormalizedKeys(info.labels) {
      forall p | p in info.labels ensures NormalizeLabel(p.0) != k {
        NormalizedNeverReserved(p.0);
      }
    }
    ContainerLabelsKeep(base, info.labels, "id");
    ContainerLabelsKeep(base, info.labels, "image");
    ContainerLabelsKeep(base, info.labels, "name");
  }

  /** A key no container label carries reads as "". */
  lemma {:induction false} LabelValueAbsent(ls: seq<(string, string)>, key: string)
    requires forall p :: p in ls ==> p.0 != key
    ensures LabelValue(ls, key) == ""
    decreases |ls|
  {
    if ls != [] {
      assert ls[|ls| - 1] in ls;
      assert forall p :: p in ls[..|ls| - 1] ==> p in ls;
      LabelValueAbsent(ls[..|ls| - 1], key);
    }
  }

  /** A key reads as the value of the last container label carrying it. */
  lemma {:induction false} LabelValueLast(ls: seq<(string, string)>, key: string, j: int)
    requires 0 <= j < |ls| && ls[j].0 == key
    requires forall j' :: j < j' < |ls| ==> ls[j'].0 != key
    ensures LabelValue(ls, key) == ls[j].1
    decreases |ls|
  {
    if j < |ls| - 1 {
      LabelValueLast(ls[..|ls| - 1], key, j);
    }
  }

  /** Kubernetes mode yields the seven fixed names, filtered or not. */
  lemma KubernetesLabelsShape(cfg: Config, schema: set<string>, id: string, info: ContainerInfo, filter: bool)
    requires cfg.kubernetes
    ensures Labels(cfg, schema, id, info, filter).Keys == KubernetesKeys
    ensures |KubernetesKeys| == 7
  {
    assert "id" != "image" && "pod" != "namespace";
  }

  /**
   * The values of the Kubernetes-mode map: the container's id and image,
   * `pod` and `namespace` read from its labels ("" when absent), the node
   * name, and the constant operating system and role.
   */
  lemma KubernetesLabelValues(cfg: Config, schema: set<string>, id: string, info: ContainerInfo, filter: bool)
    requires cfg.kubernetes
    ensures var r := Labels(cfg, schema, id, info, filter);
      && r.Keys == KubernetesKeys
      && r["id"] == "/docker/" + id
      && r["image"] == info.image
      && r["pod"] == LabelValue(info.labels, PodNameKey)
      && r["namespace"] == LabelValue(info.labels, PodNamespaceKey)
      && r["kubernetes_io_hostname"] == cfg.nodeName
      && r["beta_kubernetes_io_os"] == "windows"
      && r["kubernetes_io_role"] == "node"
    ensures (forall p :: p in info.labels ==> p.0 != PodNameKey) ==> Labels(cfg, schema, id, info, filter)["pod"] == ""
    ensures (forall p :: p in info.labels ==> p.0 != PodNamespaceKey) ==> Labels(cfg, schema, id, info, filter)["namespace"] == ""
  {
    KubernetesLabelsShape(cfg, schema, id, info, filter);
    if forall p :: p in info.labels ==> p.0 != PodNameKey {
      LabelValueAbsent(info.labels, PodNameKey);
    }
    if forall p :: p in info.labels ==> p.0 != PodNamespaceKey {
      LabelValueAbsent(info.labels, PodNamespaceKey);
    }
  }

  /** The key set of the label map in each mode. */
  function LabelKeys(cfg: Config, schema: set<string>, info: ContainerInfo, filter: bool): set<string> {
    if cfg.kubernetes then KubernetesKeys
    else if filter then schema
    else Builtins + NormalizedKeys(info.labels)
  }

  lemma LabelsKeys(cfg: Config, schema: set<string>, id: string, info: ContainerInfo, filter: bool)
    ensures Labels(cfg, schema, id, info, filter).Keys == LabelKeys(cfg, schema, info, filter)
  {
    if !cfg.kubernetes && !filter {
      RawLabelsShape(id, info);
    }
  }

  /** The keys of a map in some order, each exactly once (Go's GetKeys). */
  method GetKeys<V>(m: map<string, V>) returns (keys: seq<string>)
    ensures |keys| == |m|
    ensures forall k :: k in keys <==> k in m
    ensures forall i, j :: 0 <= i < j < |keys| ==> keys[i] != keys[j]
  {
    keys := [];
    var rest := m.Keys;
    while rest != {}
      invariant rest <= m.Keys
      invariant forall k :: k in keys <==> k in m && k !in rest
      invariant forall i, j :: 0 <= i < j < |keys| ==> keys[i] != keys[j]
      invariant |keys| + |rest| == |m|
      decreases |rest|
    {
      var k :| k in rest;
      keys := keys + [k];
      rest := rest - {k};
    }
  }
}

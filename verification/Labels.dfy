/**
 The recommended label set of internal/labels/labels.go. A label key is a constructor of a datatype,
 so that the distinct key constants of the source are distinct here as well.
 */
module Labels {
  datatype LabelKey =
    | Name | Component | PartOf | ManagedBy | Version
    | InferenceServer | InferenceServing | Model | Role | InferencePool
    | Other(text: string)

  type LabelSet = map<LabelKey, string>

  const SYSTEM := "otterscale-system"
  const OPERATOR := "model-operator"

  function Selector(name: string, component: string): LabelSet {
    map[Name := name, Component := component, PartOf := SYSTEM, ManagedBy := OPERATOR]
  }

  function Standard(name: string, component: string, version: string): LabelSet {
    var m := Selector(name, component);
    if version != "" then m[Version := version] else m
  }

  /** A label query: every pair of the selector is present on the object. */
  predicate Selects(selector: LabelSet, labels: LabelSet) {
    forall k | k in selector :: k in labels && labels[k] == selector[k]
  }

  /** A query keeps finding what any operator version, past or future, has labelled. */
  lemma SelectorIgnoresVersion(name: string, component: string, version: string, n: string, c: string)
    ensures Selects(Selector(name, component), Standard(n, c, version)) <==> name == n && component == c
  {
    assert Standard(n, c, version)[Name] == n && Standard(n, c, version)[Component] == c;
    if Selects(Selector(name, component), Standard(n, c, version)) {
      assert Name in Selector(name, component) && Component in Selector(name, component);
    }
  }
}

/**
 Fixed names and label sets the operator puts on the objects it owns, and the label selectors
 it finds them by.
 */
module Labels {

  type LabelSet = map<string, string>

  const K8S_APP := "k8s-app"
  const APP := "app"
  const BINDING := "verrazzano.binding"
  const CLUSTER := "verrazzano.cluster"
  const ISTIO := "istio-injection"

  const GROUP := "verrazzano.io"
  const ENABLED := "enabled"
  const VERRAZZANO_SYSTEM := "verrazzano-system"
  const VERRAZZANO_SYSTEM_ADMIN := "verrazzano-system-admin"
  const MONITORING := "monitoring"
  const NODE_EXPORTER := "node-exporter"
  const SYSTEM_BINDING := "system"
  const FINALIZER := "vb.verrazzano.io"

  /** Labels of an object that belongs to one binding on one cluster. */
  function ManagedBindingLabels(binding: string, cluster: string): LabelSet {
    map[K8S_APP := GROUP, BINDING := binding, CLUSTER := cluster, ISTIO := ENABLED]
  }

  /** Labels of an object shared by all bindings of a cluster. */
  function ManagedLabelsNoBinding(cluster: string): LabelSet {
    map[K8S_APP := GROUP, CLUSTER := cluster]
  }

  function NodeExporterLabels(cluster: string): LabelSet {
    map[APP := NODE_EXPORTER, BINDING := SYSTEM_BINDING, CLUSTER := cluster]
  }

  /** Labels of an object in the management cluster that belongs to one binding. */
  function LocalBindingLabels(binding: string): LabelSet {
    map[K8S_APP := GROUP, BINDING := binding]
  }

  function BindingSelector(binding: string): LabelSet {
    map[BINDING := binding]
  }

  function BindingClusterSelector(binding: string, cluster: string): LabelSet {
    map[BINDING := binding, CLUSTER := cluster]
  }

  /** A selector matches when each of its labels is on the object with the same value. */
  predicate Matches(selector: LabelSet, labels: LabelSet) {
    forall key | key in selector :: key in labels && labels[key] == selector[key]
  }

  predicate BoundTo(labels: LabelSet, binding: string) {
    BINDING in labels && labels[BINDING] == binding
  }

  lemma DistinctKeys()
    ensures BINDING != CLUSTER && BINDING != K8S_APP && BINDING != APP && BINDING != ISTIO
    ensures K8S_APP != CLUSTER && K8S_APP != APP && K8S_APP != ISTIO && CLUSTER != ISTIO
  {
    assert BINDING[11] == 'b' && CLUSTER[11] == 'c';
    assert |BINDING| == 18 && |CLUSTER| == 18 && |K8S_APP| == 7 && |APP| == 3 && |ISTIO| == 15;
  }

  lemma DistinctNames()
    ensures MONITORING != VERRAZZANO_SYSTEM && NODE_EXPORTER != VERRAZZANO_SYSTEM
    ensures NODE_EXPORTER != VERRAZZANO_SYSTEM_ADMIN
  {
    assert |MONITORING| == 10 && |VERRAZZANO_SYSTEM| == 17 && |NODE_EXPORTER| == 13 && |VERRAZZANO_SYSTEM_ADMIN| == 23;
  }

  /** Which objects the operator's three selectors pick out. */
  lemma SelectorMeaning(binding: string, cluster: string, labels: LabelSet)
    ensures Matches(BindingSelector(binding), labels) <==> BoundTo(labels, binding)
    ensures Matches(BindingClusterSelector(binding, cluster), labels)
       <==> BoundTo(labels, binding) && CLUSTER in labels && labels[CLUSTER] == cluster
    ensures Matches(ManagedBindingLabels(binding, cluster), labels)
       <==> BoundTo(labels, binding) && CLUSTER in labels && labels[CLUSTER] == cluster
            && K8S_APP in labels && labels[K8S_APP] == GROUP && ISTIO in labels && labels[ISTIO] == ENABLED
    ensures Matches(ManagedLabelsNoBinding(cluster), labels)
       <==> K8S_APP in labels && labels[K8S_APP] == GROUP && CLUSTER in labels && labels[CLUSTER] == cluster
  {
    DistinctKeys();
    var one, two, all, none := BindingSelector(binding), BindingClusterSelector(binding, cluster),
                               ManagedBindingLabels(binding, cluster), ManagedLabelsNoBinding(cluster);
    assert BINDING in one && BINDING in two && CLUSTER in two && BINDING in all && K8S_APP in none && CLUSTER in none;
    assert CLUSTER in all && K8S_APP in all && ISTIO in all;
  }

  /** A binding's objects also match the selector for shared objects: only guards keep the two apart. */
  lemma NoBindingSelectorAlsoMatchesBindings(binding: string, cluster: string)
    ensures Matches(ManagedLabelsNoBinding(cluster), ManagedBindingLabels(binding, cluster))
    ensures !Matches(ManagedLabelsNoBinding(cluster), NodeExporterLabels(cluster))
  {
    DistinctKeys();
    SelectorMeaning(binding, cluster, ManagedBindingLabels(binding, cluster));
    SelectorMeaning(binding, cluster, NodeExporterLabels(cluster));
  }
}

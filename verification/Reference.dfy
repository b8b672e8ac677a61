/**
 What a pair wants on its clusters and what is an orphan of it, object by object and with every name and label written
 out: a second definition, independent of the passes, and the proof that the passes mean the same.
 */
module Reference {
  import opened Labels
  import opened Clouds
  import opened Types
  import opened Passes

  function SharedLabels(c: string): LabelSet {
    map["k8s-app" := "verrazzano.io", "verrazzano.cluster" := c]
  }

  function OwnLabels(binding: string, c: string): LabelSet {
    map["k8s-app" := "verrazzano.io", "verrazzano.binding" := binding, "verrazzano.cluster" := c,
        "istio-injection" := "enabled"]
  }

  function ExporterLabels(c: string): LabelSet {
    map["app" := "node-exporter", "verrazzano.binding" := "system", "verrazzano.cluster" := c]
  }

  lemma LabelsWrittenOut(binding: string, c: string)
    ensures ManagedLabelsNoBinding(c) == SharedLabels(c) && ManagedBindingLabels(binding, c) == OwnLabels(binding, c)
    ensures NodeExporterLabels(c) == ExporterLabels(c)
  {
  }

  /** What the pair of a model and a binding has to be. */
  ghost predicate IsBuilt(p: Pair, model: SyntheticModel, binding: SyntheticBinding) {
    && p.model == model && p.binding == binding
    && (forall c :: c in p.clusters <==> exists q :: q in binding.placements && q.name == c)
    && forall c | c in p.clusters :: p.clusters[c] == ManagedCluster(c, ["verrazzano-system"], map[], [], [], [])
  }

  // ---------- desired objects ----------

  /** Node exporter objects for a pair named "system", otherwise one account in each namespace and two roles. */
  predicate AskedOfOperator(system: bool, mc: ManagedCluster, c: string, d: Desired) {
    var at, r := d.at, d.resource;
    match at.kind
    case ServiceAccount =>
      && r.content == SERVICE_ACCOUNT_CONTENT
      && if system then
           && mc.namespaces != [] && at.namespace == "monitoring" && at.name == "node-exporter"
           && r.labels == ExporterLabels(c)
         else at.namespace in mc.namespaces && at.name == "verrazzano-system" && r.labels == SharedLabels(c)
    case ClusterRole =>
      at.namespace == ""
      && if system then at.name == "node-exporter" && r == Resource(ExporterLabels(c), NODE_EXPORTER_ROLE_CONTENT)
         else at.name == "verrazzano-system" && r == Resource(SharedLabels(c), SYSTEM_ROLE_CONTENT)
    case ClusterRoleBinding =>
      at.namespace == ""
      && if system then
           at.name == "node-exporter" && r == Resource(ExporterLabels(c), NODE_EXPORTER_ROLE_BINDING_CONTENT)
         else at.name == "verrazzano-system" && r == Resource(SharedLabels(c), ROLE_BINDING_CONTENT)
    case DaemonSet =>
      && system && at.namespace == "monitoring" && at.name == "node-exporter"
      && r == Resource(ExporterLabels(c), NODE_EXPORTER_DAEMON_SET_CONTENT)
    case _ => false
  }

  /** The pair wants this object. */
  predicate Asked(pair: Pair, d: Desired) {
    && d.at.site.Managed? && d.at.site.cluster in pair.clusters
    && var at, r, c, n := d.at, d.resource, d.at.site.cluster, pair.binding.name;
       var mc, w := pair.clusters[c], Workload(d.at.namespace, d.at.name, d.resource);
       match at.kind
       case Namespace =>
         && at.namespace == "" && at.name in mc.namespaces
         && r.content == NAMESPACE_CONTENT
         && r.labels == if at.name == "verrazzano-system" then SharedLabels(c) else OwnLabels(n, c)
       case Deployment => w in mc.deployments
       case ConfigMap => n != "system" && w in mc.configMaps
       case Service =>
         if n != "system" then w in mc.services
         else w == Workload("monitoring", "node-exporter", Resource(ExporterLabels(c), NODE_EXPORTER_SERVICE_CONTENT))
       case _ => AskedOfOperator(n == "system", mc, c, d)
  }

  lemma WantedOnIffAsked(pair: Pair, c: string, d: Desired)
    requires WellKeyed(pair) && c in pair.clusters && d.at.site == Managed(c)
    ensures d in Wanted(pair, d.at.kind, c) <==> Asked(pair, d)
  {
    hide ManagedBindingLabels, ManagedLabelsNoBinding, NodeExporterLabels, SharedLabels, OwnLabels, ExporterLabels;
    LabelsWrittenOut(pair.binding.name, c);
    var kind, mc := d.at.kind, pair.clusters[c];
    var w := Workload(d.at.namespace, d.at.name, d.resource);
    if Asked(pair, d) {
      var i := if kind == Namespace then IndexOf(mc.namespaces, d.at.name)
               else if kind == ServiceAccount && !IsSystem(pair) then IndexOf(mc.namespaces, d.at.namespace)
               else if kind == Deployment then IndexOf(mc.deployments, w)
               else if kind == ConfigMap then IndexOf(mc.configMaps, w)
               else if kind == Service && !IsSystem(pair) then IndexOf(mc.services, w)
               else 0;
      assert Wanted(pair, kind, c)[i] == d;
    }
  }

  function IndexOf<T(==)>(s: seq<T>, e: T): (i: nat)
    requires e in s
    ensures i < |s| && s[i] == e
  {
    if s[0] == e then 0 else 1 + IndexOf(s[1..], e)
  }

  /** What the create passes want is exactly what is asked for. */
  lemma WantedIffAsked(pair: Pair, d: Desired)
    requires WellKeyed(pair)
    ensures d in AllWanted(pair) <==> Asked(pair, d)
  {
    hide Wanted, Asked, AskedOfOperator;
    if d in AllWanted(pair) {
      var kind := WantedKind(pair, d);
      WantedOnIffAsked(pair, d.at.site.cluster, d);
    }
    if Asked(pair, d) {
      AskedPlace(pair, d);
      WantedOnIffAsked(pair, d.at.site.cluster, d);
      InAllWanted(pair, d.at.kind, d);
    }
  }

  lemma InAllWanted(pair: Pair, kind: Kind, d: Desired)
    requires d.at.site.Managed? && d.at.site.cluster in pair.clusters && kind !in {Vmi, Secret}
    requires d in Wanted(pair, kind, d.at.site.cluster)
    ensures d in AllWanted(pair)
  {
    hide Wanted;
    assert d in WantedOf(pair, kind);
    hide WantedOf;
    match kind {
      case Namespace =>
      case ServiceAccount =>
      case ConfigMap =>
      case ClusterRole =>
      case ClusterRoleBinding =>
      case Deployment =>
      case Service =>
      case DaemonSet =>
    }
  }

  lemma AskedPlace(pair: Pair, d: Desired)
    requires Asked(pair, d)
    ensures d.at.site.Managed? && d.at.site.cluster in pair.clusters && d.at.kind !in {Vmi, Secret}
  {
  }

  // ---------- orphans ----------

  predicate HasLabel(labels: LabelSet, key: string, value: string) {
    key in labels && labels[key] == value
  }

  predicate Named(ws: seq<Workload>, name: string) {
    exists i :: 0 <= i < |ws| && ws[i].name == name
  }

  /** An object of the binding on one of the pair's clusters that the pair does not expect there. */
  predicate Unexpected(mc: ManagedCluster, at: Address) {
    || (at.kind == Service && !Named(mc.services, at.name))
    || (at.kind == Deployment && !Named(mc.deployments, at.name))
    || (at.kind == Namespace && mc.namespaces != [] && at.name !in mc.namespaces)
  }

  predicate OwnLabelled(pair: Pair, c: string, labels: LabelSet) {
    HasLabel(labels, "verrazzano.binding", pair.binding.name) && HasLabel(labels, "verrazzano.cluster", c)
  }

  /** A namespace of all bindings on a cluster that no pair needs. */
  ghost predicate SharedNamespaceUnused(pairs: map<string, Pair>, c: string, at: Address, labels: LabelSet) {
    && at.kind == Namespace && at.name !in ["monitoring", "verrazzano-system"]
    && HasLabel(labels, "k8s-app", "verrazzano.io") && HasLabel(labels, "verrazzano.cluster", c)
    && forall n, p | n in pairs && p in pairs[n].binding.placements :: p.name != c
  }

  /** An error-free clean-up for the pair deletes this object. */
  ghost predicate Orphaned(pair: Pair, pairs: map<string, Pair>, connected: set<string>, at: Address, o: Resource) {
    && at.site.Managed? && at.site.cluster in connected
    && var c := at.site.cluster;
       var all := forall d | d in pair.clusters :: d in connected;
       var own := OwnLabelled(pair, c, o.labels);
       if c in pair.clusters then all && own && Unexpected(pair.clusters[c], at)
       else
         || (own && at.kind in {ClusterRole, ClusterRoleBinding, ConfigMap})
         || (all && own && (at.kind in {Service, Deployment} || (at.kind == Namespace && at.name != "monitoring")))
         || (all && SharedNamespaceUnused(pairs, c, at, o.labels))
  }

  lemma NamedIffExpected(ws: seq<Workload>, name: string)
    ensures Named(ws, name) <==> name in Names(ws)
  {
    if Named(ws, name) {
      var i :| 0 <= i < |ws| && ws[i].name == name;
      assert Names(ws)[i] == name;
    }
  }

  lemma OwnHits(pair: Pair, kind: Kind, c: string, spared: seq<string>, at: Address, o: Resource)
    ensures Hits(OwnListing(pair, kind, c, spared), at, o)
       <==> at.site == Managed(c) && at.kind == kind && at.name !in spared && OwnLabelled(pair, c, o.labels)
  {
    SelectorMeaning(pair.binding.name, c, o.labels);
    hide Matches;
  }

  lemma SharedHits(kind: Kind, c: string, spared: seq<string>, at: Address, o: Resource)
    ensures Hits(SharedListing(kind, c, spared), at, o)
       <==> at.site == Managed(c) && at.kind == kind && at.name !in spared
            && HasLabel(o.labels, "k8s-app", "verrazzano.io") && HasLabel(o.labels, "verrazzano.cluster", c)
  {
    SelectorMeaning("", c, o.labels);
    hide Matches;
  }

  lemma UnmatchedDoom(pair: Pair, kind: Kind, connected: set<string>, spared: seq<string>, at: Address, o: Resource)
    ensures Doomed(UnmatchedOrphans(pair, kind, connected, spared), at, o)
       <==> at.site.Managed? && at.kind == kind && at.name !in spared
            && at.site.cluster in connected && at.site.cluster !in pair.clusters
            && OwnLabelled(pair, at.site.cluster, o.labels)
  {
    hide Hits, OwnListing, OwnLabelled;
    forall c { OwnHits(pair, kind, c, spared, at, o); }
    if at.site.Managed? {
      assert at.site.cluster in connected - pair.clusters.Keys ==>
          OwnListing(pair, kind, at.site.cluster, spared) in UnmatchedOrphans(pair, kind, connected, spared);
    }
  }

  lemma MatchedDoom(pair: Pair, kind: Kind, at: Address, o: Resource)
    ensures Doomed(MatchedOrphans(pair, kind), at, o)
       <==> at.site.Managed? && at.kind == kind && at.site.cluster in pair.clusters
            && at.name !in ExpectedNames(pair, kind, at.site.cluster) && OwnLabelled(pair, at.site.cluster, o.labels)
  {
    hide Hits, OwnListing, ExpectedNames, OwnLabelled;
    forall c | c in pair.clusters { OwnHits(pair, kind, c, ExpectedNames(pair, kind, c), at, o); }
    if at.site.Managed? {
      var c := at.site.cluster;
      assert c in pair.clusters ==>
          OwnListing(pair, kind, c, ExpectedNames(pair, kind, c)) in MatchedOrphans(pair, kind);
    }
  }

  lemma MatchedNamespaceDoom(pair: Pair, at: Address, o: Resource)
    ensures Doomed(MatchedNamespaces(pair), at, o)
       <==> at.site.Managed? && at.kind == Namespace && at.site.cluster in pair.clusters
            && pair.clusters[at.site.cluster].namespaces != [] && OwnLabelled(pair, at.site.cluster, o.labels)
            && at.name !in pair.clusters[at.site.cluster].namespaces
  {
    hide Hits, OwnListing, OwnLabelled;
    forall c | c in pair.clusters { OwnHits(pair, Namespace, c, pair.clusters[c].namespaces, at, o); }
    if at.site.Managed? {
      var c := at.site.cluster;
      assert c in pair.clusters && pair.clusters[c].namespaces != [] ==>
          OwnListing(pair, Namespace, c, pair.clusters[c].namespaces) in MatchedNamespaces(pair);
    }
  }

  lemma UnusedDoom(pair: Pair, pairs: map<string, Pair>, connected: set<string>, at: Address, o: Resource)
    ensures Doomed(UnusedClusterNamespaces(pair, pairs, connected), at, o)
       <==> at.site.Managed? && at.site.cluster in connected && at.site.cluster !in pair.clusters
            && SharedNamespaceUnused(pairs, at.site.cluster, at, o.labels)
  {
    hide Hits, SharedListing;
    forall c { SharedHits(Namespace, c, KEPT_NAMESPACES, at, o); }
    if at.site.Managed? {
      var c := at.site.cluster;
      assert ClusterInBinding(c, pairs)
         <==> exists n, p :: n in pairs && p in pairs[n].binding.placements && p.name == c;
      hide ClusterInBinding;
      assert c in connected - pair.clusters.Keys && !ClusterInBinding(c, pairs) ==>
          SharedListing(Namespace, c, KEPT_NAMESPACES) in UnusedClusterNamespaces(pair, pairs, connected);
    }
  }

  /** The listings of the clean-up hit exactly the orphans. */
  lemma OrphanedIffDoomed(pair: Pair, pairs: map<string, Pair>, connected: set<string>, at: Address, o: Resource)
    ensures Doomed(Orphans(pair, pairs, connected), at, o) <==> Orphaned(pair, pairs, connected, at, o)
  {
    hide Hits, OwnLabelled, MatchedOrphans, UnmatchedOrphans, MatchedNamespaces, UnusedClusterNamespaces, Names,
    SharedNamespaceUnused;
    forall kind, spared { UnmatchedDoom(pair, kind, connected, spared, at, o); }
    forall kind { MatchedDoom(pair, kind, at, o); }
    MatchedNamespaceDoom(pair, at, o);
    UnusedDoom(pair, pairs, connected, at, o);
    forall ws: seq<Workload> { NamedIffExpected(ws, at.name); }
    hide Named;
  }
}

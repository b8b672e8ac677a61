/** An error-free sync makes the clusters agree with the pair, and a second one has nothing to write. */
module Convergence {
  import opened Labels
  import opened Clouds
  import opened Types
  import opened Passes
  import opened Reference
  import opened Fleets
  import opened Machine

  function Workloads(pair: Pair, kind: Kind, c: string): seq<Workload>
    requires c in pair.clusters
  {
    if kind == Service then pair.clusters[c].services
    else if kind == Deployment then pair.clusters[c].deployments
    else pair.clusters[c].configMaps
  }

  predicate DistinctWorkloads(ws: seq<Workload>) {
    forall i, j | 0 <= i < j < |ws| :: ws[i].namespace != ws[j].namespace || ws[i].name != ws[j].name
  }

  /** No cluster of the pair is to have two services, deployments or config maps of the same namespace and name. */
  ghost predicate DistinctKeys(pair: Pair) {
    forall c, kind | c in pair.clusters && kind in {Service, Deployment, ConfigMap} ::
        DistinctWorkloads(Workloads(pair, kind, c))
  }

  function At(c: string, kind: Kind, w: Workload): Address {
    Address(Managed(c), kind, w.namespace, w.name)
  }

  lemma WantedDistinct(pair: Pair)
    requires DistinctKeys(pair)
    ensures Distinct(AllWanted(pair))
  {
    hide AllWanted;
    forall d, e | d in AllWanted(pair) && e in AllWanted(pair) && d.at == e.at ensures d == e {
      var k := WantedKind(pair, d);
      var l := WantedKind(pair, e);
      WantedOnceOn(pair, k, d.at.site.cluster, d, e);
    }
  }

  lemma WantedOnceOn(pair: Pair, kind: Kind, c: string, d: Desired, e: Desired)
    requires DistinctKeys(pair) && c in pair.clusters
    requires d in Wanted(pair, kind, c) && e in Wanted(pair, kind, c) && d.at == e.at
    ensures d == e
  {
    hide ManagedBindingLabels, ManagedLabelsNoBinding, NodeExporterLabels;
    assert kind in {Service, Deployment, ConfigMap} ==> DistinctWorkloads(Workloads(pair, kind, c));
    var i :| 0 <= i < |Wanted(pair, kind, c)| && d == Wanted(pair, kind, c)[i];
    var j :| 0 <= j < |Wanted(pair, kind, c)| && e == Wanted(pair, kind, c)[j];
  }

  /** A wanted object is never among the orphans of its own pair. */
  lemma OrphansSpareWanted(pair: Pair, pairs: map<string, Pair>, connected: set<string>, d: Desired, o: Resource)
    requires !IsSystem(pair) && d in AllWanted(pair)
    ensures !Doomed(Orphans(pair, pairs, connected), d.at, o)
  {
    hide AllWanted, Orphans, Matches;
    var kind := WantedKind(pair, d);
    forall l | l in Orphans(pair, pairs, connected) ensures !Hits(l, d.at, o) {
      OrphanListings(pair, pairs, connected, l);
      if l.site == d.at.site && l.kind == kind {
        WantedIsExpected(pair, kind, d.at.site.cluster, d);
      }
    }
  }

  lemma WantedIsExpected(pair: Pair, kind: Kind, c: string, d: Desired)
    requires !IsSystem(pair) && c in pair.clusters && d in Wanted(pair, kind, c)
              && kind in {Service, Deployment, Namespace}
    ensures d.at.name in ExpectedNames(pair, kind, c)
  {
    var i :| 0 <= i < |Wanted(pair, kind, c)| && d == Wanted(pair, kind, c)[i];
    assert ExpectedNames(pair, kind, c)[i] == d.at.name;
  }

  /** After an error-free sync the cloud is settled for the pair and has no orphans. */
  lemma SyncSettles(differs: Differ, a: Cloud, local: Cloud, made: Cloud, b: Cloud, pair: Pair,
                    pairs: map<string, Pair>)
    requires Synced(differs, a, local, made, b, pair, pairs, true, true)
    requires !IsSystem(pair) && DistinctKeys(pair)
    ensures Settled(differs, b, AllWanted(pair)) && Idle(b, Orphans(pair, pairs, a.connected))
              && b.connected == a.connected
  {
    hide AllWanted, Orphans, DistinctKeys;
    WantedDistinct(pair);
    forall d | d in AllWanted(pair) ensures SettledAt(differs, b, d) {
      assert SettledAt(differs, made, d);
      OrphansSpareWanted(pair, pairs, a.connected, d, made.objects[d.at]);
    }
  }

  /** Changes in the management cluster concern neither the wanted objects nor the orphans. */
  lemma LocalChangesKeep(differs: Differ, a: Cloud, b: Cloud, pair: Pair, pairs: map<string, Pair>)
    requires AgreeOnManaged(a.objects, b.objects) && a.connected == b.connected
    ensures Settled(differs, a, AllWanted(pair)) ==> Settled(differs, b, AllWanted(pair))
    ensures Idle(a, Orphans(pair, pairs, a.connected)) ==> Idle(b, Orphans(pair, pairs, a.connected))
  {
    hide AllWanted, Orphans, Matches;
    forall d | d in AllWanted(pair) ensures d.at.site.Managed? {
      var kind := WantedKind(pair, d);
    }
    forall l | l in Orphans(pair, pairs, a.connected) ensures l.site.Managed? {
      OrphanListings(pair, pairs, a.connected, l);
    }
    forall at: Address, o: Resource | at.site.Management? ensures !Doomed(Orphans(pair, pairs, a.connected), at, o) {
    }
  }

  /** A settled cloud without orphans is neither provisioned nor swept. */
  lemma NothingToWrite(differs: Differ, a: Cloud, made: Cloud, b: Cloud, ds: set<Desired>, ls: set<Listing>,
                       okMade: bool, ok: bool)
    requires Settled(differs, a, ds) && Idle(a, ls)
    requires Provisioned(differs, a, made, ds, okMade) && Swept(made, b, ls, ok)
    ensures Untouched(a, b)
  {
    assert Untouched(a, made) && Idle(made, ls);
  }

  /**
   Quiescence: after an error-free sync of a pair, a second sync of the unchanged pair sends no write
   to any managed cluster, whether or not it meets errors.
   */
  lemma Quiescence(differs: Differ, a: Cloud, local: Cloud, made: Cloud, b: Cloud, pair: Pair, pairs: map<string, Pair>,
                   local': Cloud, made': Cloud, c: Cloud, okMade: bool, ok: bool)
    requires Synced(differs, a, local, made, b, pair, pairs, true, true)
    requires Synced(differs, b, local', made', c, pair, pairs, okMade, ok)
    requires !IsSystem(pair) && DistinctKeys(pair)
    ensures c.writes == b.writes && Untouched(local', c)
  {
    hide AllWanted, Orphans, DistinctKeys, Settled, Idle, Provisioned, Swept;
    SyncSettles(differs, a, local, made, b, pair, pairs);
    LocalChangesKeep(differs, b, local', pair, pairs);
    NothingToWrite(differs, local', made', c, AllWanted(pair), Orphans(pair, pairs, b.connected), okMade, ok);
  }

  predicate UpToDate(differs: Differ, b: Cloud, at: Address, r: Resource) {
    at in b.objects && !differs(b.objects[at], r)
  }

  /** The operator's own account in a namespace of a binding. */
  function AccountAt(c: string, namespace: string): Address {
    Address(Managed(c), ServiceAccount, namespace, "verrazzano-system")
  }

  function RoleAt(c: string): Address {
    Address(Managed(c), ClusterRole, "", "verrazzano-system")
  }

  function RoleBindingAt(c: string): Address {
    Address(Managed(c), ClusterRoleBinding, "", "verrazzano-system")
  }

  /**
   On each cluster of the pair every desired service, deployment and config map is there and up to date, every
   namespace exists and has its up-to-date account, and the operator's role and role binding are up to date.
   */
  ghost predicate Present(differs: Differ, pair: Pair, b: Cloud) {
    && (forall c, kind, w | c in pair.clusters && kind in {Service, Deployment, ConfigMap}
        && w in Workloads(pair, kind, c) :: UpToDate(differs, b, At(c, kind, w), w.resource))
    && (forall c, ns | c in pair.clusters && ns in pair.clusters[c].namespaces ::
          && Address(Managed(c), Namespace, "", ns) in b.objects
          && UpToDate(differs, b, AccountAt(c, ns), Resource(SharedLabels(c), SERVICE_ACCOUNT_CONTENT)))
    && (forall c | c in pair.clusters ::
          && UpToDate(differs, b, RoleAt(c), Resource(SharedLabels(c), SYSTEM_ROLE_CONTENT))
          && UpToDate(differs, b, RoleBindingAt(c), Resource(SharedLabels(c), ROLE_BINDING_CONTENT)))
  }

  /** Where an object may carry the labels of the binding and its own cluster c. */
  predicate Expected(pair: Pair, c: string, at: Address) {
    match at.kind
    case Service => c in pair.clusters && Named(pair.clusters[c].services, at.name)
    case Deployment => c in pair.clusters && Named(pair.clusters[c].deployments, at.name)
    case Namespace =>
      if c in pair.clusters then pair.clusters[c].namespaces == [] || at.name in pair.clusters[c].namespaces
      else at.name == "monitoring"
    case ConfigMap => c in pair.clusters
    case ClusterRole => c in pair.clusters
    case ClusterRoleBinding => c in pair.clusters
    case _ => true
  }

  /**
   On connected clusters everything still labelled with the binding and the cluster is expected there: services,
   deployments and namespaces by name on the pair's clusters, and nothing but the monitoring namespace elsewhere.
   */
  ghost predicate NothingElse(pair: Pair, b: Cloud) {
    forall at | at in b.objects && at.site.Managed? && at.site.cluster in b.connected
        && OwnLabelled(pair, at.site.cluster, b.objects[at].labels) ::
      Expected(pair, at.site.cluster, at)
  }

  /** The clusters agree with the pair. */
  ghost predicate Agrees(differs: Differ, pair: Pair, b: Cloud) {
    Present(differs, pair, b) && NothingElse(pair, b)
  }

  /** Convergence from any starting state: after an error-free sync the clusters agree with the pair. */
  lemma Convergence(differs: Differ, a: Cloud, local: Cloud, made: Cloud, b: Cloud, pair: Pair,
                    pairs: map<string, Pair>)
    requires Synced(differs, a, local, made, b, pair, pairs, true, true)
    requires !IsSystem(pair) && DistinctKeys(pair) && AllConnected(pair, a.connected)
    ensures Agrees(differs, pair, b)
  {
    hide Synced, AllWanted, Orphans, DistinctKeys, Settled, Idle, Present, NothingElse, AllConnected;
    SyncSettles(differs, a, local, made, b, pair, pairs);
    SettledPresent(differs, b, pair);
    IdleExpected(b, pair, pairs);
  }

  lemma IdleExpected(b: Cloud, pair: Pair, pairs: map<string, Pair>)
    requires Idle(b, Orphans(pair, pairs, b.connected)) && AllConnected(pair, b.connected)
    ensures NothingElse(pair, b)
  {
    hide Orphans, OwnLabelled, Named, SharedNamespaceUnused;
    forall at | at in b.objects && at.site.Managed? && at.site.cluster in b.connected
        && OwnLabelled(pair, at.site.cluster, b.objects[at].labels)
      ensures Expected(pair, at.site.cluster, at)
    {
      OrphanedIffDoomed(pair, pairs, b.connected, at, b.objects[at]);
    }
  }

  lemma SettledPresent(differs: Differ, b: Cloud, pair: Pair)
    requires Settled(differs, b, AllWanted(pair)) && !IsSystem(pair)
    ensures Present(differs, pair, b)
  {
    hide AllWanted, SharedLabels;
    forall c, kind, w | c in pair.clusters && kind in {Service, Deployment, ConfigMap} && w in Workloads(pair, kind, c)
      ensures UpToDate(differs, b, At(c, kind, w), w.resource)
    {
      WorkloadWanted(pair, kind, c, w);
      assert SettledAt(differs, b, DesiredWorkload(kind, c, w));
    }
    forall c, ns | c in pair.clusters && ns in pair.clusters[c].namespaces
      ensures Address(Managed(c), Namespace, "", ns) in b.objects
      ensures UpToDate(differs, b, AccountAt(c, ns), Resource(SharedLabels(c), SERVICE_ACCOUNT_CONTENT))
    {
      NamespaceWanted(pair, c, ns);
      assert SettledAt(differs, b, DesiredNamespace(pair.binding.name, pair.clusters[c], c, ns));
      AccountWanted(pair, c, ns);
      assert SettledAt(differs, b, Desired(AccountAt(c, ns), Resource(SharedLabels(c), SERVICE_ACCOUNT_CONTENT)));
    }
    forall c | c in pair.clusters
      ensures UpToDate(differs, b, RoleAt(c), Resource(SharedLabels(c), SYSTEM_ROLE_CONTENT))
      ensures UpToDate(differs, b, RoleBindingAt(c), Resource(SharedLabels(c), ROLE_BINDING_CONTENT))
    {
      RolesWanted(pair, c);
      assert SettledAt(differs, b, Desired(RoleAt(c), Resource(SharedLabels(c), SYSTEM_ROLE_CONTENT)));
      assert SettledAt(differs, b, Desired(RoleBindingAt(c), Resource(SharedLabels(c), ROLE_BINDING_CONTENT)));
    }
  }

  lemma RolesWanted(pair: Pair, c: string)
    requires !IsSystem(pair) && c in pair.clusters
    ensures Desired(RoleAt(c), Resource(SharedLabels(c), SYSTEM_ROLE_CONTENT)) in AllWanted(pair)
    ensures Desired(RoleBindingAt(c), Resource(SharedLabels(c), ROLE_BINDING_CONTENT)) in AllWanted(pair)
  {
    hide AllWanted, ManagedLabelsNoBinding, SharedLabels;
    LabelsWrittenOut("", c);
    InAllWanted(pair, ClusterRole, DesiredRole(c, false));
    InAllWanted(pair, ClusterRoleBinding, DesiredRoleBinding(c, false));
  }

  lemma AccountWanted(pair: Pair, c: string, ns: string)
    requires !IsSystem(pair) && c in pair.clusters && ns in pair.clusters[c].namespaces
    ensures Desired(AccountAt(c, ns), Resource(SharedLabels(c), SERVICE_ACCOUNT_CONTENT)) in AllWanted(pair)
  {
    hide AllWanted, ManagedLabelsNoBinding, SharedLabels;
    LabelsWrittenOut("", c);
    var i := IndexOf(pair.clusters[c].namespaces, ns);
    assert Wanted(pair, ServiceAccount, c)[i] == SystemAccount(c, ns);
    InAllWanted(pair, ServiceAccount, SystemAccount(c, ns));
  }

  lemma WorkloadWanted(pair: Pair, kind: Kind, c: string, w: Workload)
    requires !IsSystem(pair) && c in pair.clusters && kind in {Service, Deployment, ConfigMap}
              && w in Workloads(pair, kind, c)
    ensures DesiredWorkload(kind, c, w) in AllWanted(pair)
  {
    var i :| 0 <= i < |Workloads(pair, kind, c)| && w == Workloads(pair, kind, c)[i];
    assert Wanted(pair, kind, c)[i] == DesiredWorkload(kind, c, w);
    assert DesiredWorkload(kind, c, w) in Wanted(pair, kind, c);
    hide Wanted;
    assert DesiredWorkload(kind, c, w) in WantedOf(pair, kind);
  }

  lemma NamespaceWanted(pair: Pair, c: string, ns: string)
    requires c in pair.clusters && ns in pair.clusters[c].namespaces
    ensures DesiredNamespace(pair.binding.name, pair.clusters[c], c, ns) in AllWanted(pair)
  {
    var d := DesiredNamespace(pair.binding.name, pair.clusters[c], c, ns);
    var i :| 0 <= i < |pair.clusters[c].namespaces| && ns == pair.clusters[c].namespaces[i];
    assert Wanted(pair, Namespace, c)[i] == d;
    assert d in Wanted(pair, Namespace, c);
    hide Wanted;
    assert d in WantedOf(pair, Namespace);
  }

  /** Pairs the controller builds itself always meet the condition on keys. */
  lemma BuiltPairsDistinct(s: State, n: string)
    requires Inv(s) && n in s.pairs
    ensures DistinctKeys(s.pairs[n])
  {
    InvWellKeyed(s, n);
    hide Inv;
  }

  /**
   Why "system" is excluded: the service pass creates the node-exporter service for a pair of that
   name, and the clean-up of the same error-free sync deletes it again, every time.
   */
  lemma SystemPairNeverSettles(differs: Differ, a: Cloud, local: Cloud, made: Cloud, b: Cloud, pair: Pair,
                               pairs: map<string, Pair>, c: string)
    requires Synced(differs, a, local, made, b, pair, pairs, true, true)
    requires IsSystem(pair) && AllConnected(pair, a.connected) && c in pair.clusters && pair.clusters[c].services == []
    requires Address(Managed(c), Service, "monitoring", "node-exporter") !in a.objects
    ensures Address(Managed(c), Service, "monitoring", "node-exporter") in made.objects
    ensures Address(Managed(c), Service, "monitoring", "node-exporter") !in b.objects
  {
    var at := At(c, Service, NodeExporterService(c));
    SystemServiceWritten(differs, local, made, pair, c);
    hide AllWanted, Orphans, NodeExporterLabels, Provisioned, AllConnected;
    ExporterOrphaned(pair, pairs, a.connected, at, made.objects[at]);
  }

  /** A service just written for the node exporter is an orphan of the pair named "system". */
  lemma ExporterOrphaned(pair: Pair, pairs: map<string, Pair>, connected: set<string>, at: Address, o: Resource)
    requires IsSystem(pair) && AllConnected(pair, connected) && at.site.Managed? && at.kind == Service
    requires at.site.cluster in pair.clusters && pair.clusters[at.site.cluster].services == []
    requires o.labels == NodeExporterLabels(at.site.cluster)
    ensures Doomed(Orphans(pair, pairs, connected), at, o)
  {
    hide Orphans;
    Labels.DistinctKeys();
    OrphanedIffDoomed(pair, pairs, connected, at, o);
  }

  lemma ExporterInAllWanted(pair: Pair, c: string)
    requires IsSystem(pair) && c in pair.clusters
    ensures DesiredWorkload(Service, c, NodeExporterService(c)) in AllWanted(pair)
    ensures DesiredWorkload(Service, c, NodeExporterService(c)).at
              == Address(Managed(c), Service, MONITORING, NODE_EXPORTER)
  {
    var want := DesiredWorkload(Service, c, NodeExporterService(c));
    assert Wanted(pair, Service, c)[0] == want;
    assert want in Wanted(pair, Service, c);
    hide Wanted;
    assert want in WantedOf(pair, Service);
  }

  lemma SystemServiceWritten(differs: Differ, a: Cloud, b: Cloud, pair: Pair, c: string)
    requires Provisioned(differs, a, b, AllWanted(pair), true)
    requires IsSystem(pair) && c in pair.clusters && At(c, Service, NodeExporterService(c)) !in a.objects
    ensures At(c, Service, NodeExporterService(c)) in b.objects
    ensures b.objects[At(c, Service, NodeExporterService(c))].labels == NodeExporterLabels(c)
  {
    hide NodeExporterLabels, AllWanted;
    ExporterInAllWanted(pair, c);
    var want := DesiredWorkload(Service, c, NodeExporterService(c));
    var d :| d in AllWanted(pair) && d.at == want.at && Realises(differs, b.objects[want.at], d.resource);
    var kind := WantedKind(pair, d);
  }
}

/**
 Where isolation and survival end: what an add event takes away from other bindings and from the operator itself,
 each with the exact condition. Most of it is due to a binding that is named like the operator's own pair, "system".
 */
module Limits {
  import opened Labels
  import opened Clouds
  import opened Types
  import opened Passes
  import opened Reference
  import opened Location
  import opened Fleets
  import opened Machine
  import opened Isolation
  import opened Survival
  import opened Deletions
  import Convergence
  import opened Syncs

  lemma BuiltDistinct(pair: Pair)
    requires Built(pair)
    ensures Distinct(AllWanted(pair))
  {
    Convergence.WantedDistinct(pair) by {
      assert forall c | c in pair.clusters :: pair.clusters[c] == BuiltCluster(c);
    }
  }

  // ---------- objects of another binding ----------

  /** The pair wants an object at this address that differs from what is there. */
  ghost predicate Overwritten(differs: Differ, a: Cloud, pair: Pair, at: Address)
    requires at in a.objects
  {
    Replaceable(at.kind) && exists d :: d in AllWanted(pair) && d.at == at && differs(a.objects[at], d.resource)
  }

  /** A creating pass changes an existing object exactly if it wants another one there. */
  lemma ProvisionedChangesIff(differs: Differ, a: Cloud, b: Cloud, pair: Pair, at: Address)
    requires Provisioned(differs, a, b, AllWanted(pair), true) && Distinct(AllWanted(pair)) && at in a.objects
    ensures at in b.objects && (b.objects[at] == a.objects[at] <==> !Overwritten(differs, a, pair, at))
  {
    hide AllWanted;
    if Overwritten(differs, a, pair, at) {
      var d :| d in AllWanted(pair) && d.at == at && differs(a.objects[at], d.resource);
      assert SettledAt(differs, b, d);
    }
  }

  /** The node exporter's service on a cluster, as a pair named "system" wants it. */
  function ExporterResource(c: string): Resource {
    NodeExporterService(c).resource
  }

  /** When an error-free sync takes away another binding's service, by overwriting it first. */
  predicate TakenBySync(differs: Differ, pair: Pair, at: Address, o: Resource) {
    && IsSystem(pair) && ExporterService(at) && at.site.cluster in pair.clusters
    && differs(o, ExporterResource(at.site.cluster))
  }

  lemma ExporterWanted(differs: Differ, a: Cloud, pair: Pair, at: Address)
    requires Built(pair) && at in a.objects && at.site.Managed? && at.kind == Service
    ensures Overwritten(differs, a, pair, at) <==> TakenBySync(differs, pair, at, a.objects[at])
  {
    hide AllWanted, NodeExporterService;
    forall d | d in AllWanted(pair) && d.at == at
      ensures IsSystem(pair) && ExporterService(at) && at.site.cluster in pair.clusters
                && d.resource == ExporterResource(at.site.cluster)
    {
      BuiltWants(pair, d);
    }
    if TakenBySync(differs, pair, at, a.objects[at]) {
      Convergence.ExporterInAllWanted(pair, at.site.cluster);
      assert DesiredWorkload(Service, at.site.cluster, NodeExporterService(at.site.cluster)).at == at;
    }
  }

  /** A service just written for the node exporter is an orphan of the pair named "system". */
  lemma ExporterIsOrphan(pair: Pair, pairs: map<string, Pair>, connected: set<string>, at: Address, o: Resource)
    requires IsSystem(pair) && Built(pair) && AllConnected(pair, connected)
    requires ExporterService(at) && at.site.cluster in pair.clusters && o.labels == NodeExporterLabels(at.site.cluster)
    ensures Doomed(Orphans(pair, pairs, connected), at, o)
  {
    assert pair.clusters[at.site.cluster] == BuiltCluster(at.site.cluster);
    Convergence.ExporterOrphaned(pair, pairs, connected, at, o);
  }

  /** An exposed namespace is an orphan of every pair. */
  lemma ExposedIsOrphan(pair: Pair, pairs: map<string, Pair>, connected: set<string>, at: Address, o: Resource)
    requires AllConnected(pair, connected) && at.site.Managed? && at.site.cluster !in pair.clusters
    requires Exposed(pairs, connected, at, o)
    ensures Doomed(Orphans(pair, pairs, connected), at, o)
  {
    hide Matches, ClusterInBinding, MatchedNamespaces, UnmatchedOrphans, OrphanedWorkloads;
    var l := SharedListing(Namespace, at.site.cluster, KEPT_NAMESPACES);
    assert l in UnusedClusterNamespaces(pair, pairs, connected);
    assert Hits(l, at, o);
  }

  /**
   What an error-free sync does to an object of another binding: it stays as it is exactly if it is no exposed
   namespace and the synced pair wants nothing else there; it is gone exactly if it is an exposed namespace or was
   overwritten as the node exporter's service.
   */
  lemma SyncOnOthers(differs: Differ, a: Cloud, local: Cloud, made: Cloud, b: Cloud, pair: Pair,
                     pairs: map<string, Pair>, n: string, at: Address)
    requires Synced(differs, a, local, made, b, pair, pairs, true, true) && Built(pair)
    requires AllConnected(pair, a.connected) && forall c | c in pair.clusters :: ClusterInBinding(c, pairs)
    requires pair.binding.name != n && at in a.objects && at.site.Managed? && BoundTo(a.objects[at].labels, n)
    ensures at in b.objects && b.objects[at] == a.objects[at]
       <==> !Overwritten(differs, a, pair, at) && !Exposed(pairs, a.connected, at, a.objects[at])
    ensures at !in b.objects
       <==> TakenBySync(differs, pair, at, a.objects[at]) || Exposed(pairs, a.connected, at, a.objects[at])
  {
    hide AllWanted, Orphans, Provisioned, Built, AllConnected, NodeExporterLabels, BoundTo, ClusterInBinding;
    BuiltDistinct(pair);
    ProvisionedChangesIff(differs, local, made, pair, at);
    var o := made.objects[at];
    if !Overwritten(differs, a, pair, at) {
      OrphansSpare(pair, pairs, a.connected, n, at, o);
      if Exposed(pairs, a.connected, at, o) {
        ExposedIsOrphan(pair, pairs, a.connected, at, o);
      }
      NotTaken(differs, a, pair, at);
    } else {
      WrittenByBuilt(differs, local, made, pair, at);
      if at.kind == Service {
        ExporterWanted(differs, a, pair, at);
        ExporterIsOrphan(pair, pairs, a.connected, at, o);
      } else {
        OthersStayWhereUsed(pair, pairs, a.connected, at, o);
      }
    }
  }

  lemma NotTaken(differs: Differ, a: Cloud, pair: Pair, at: Address)
    requires Built(pair) && at in a.objects && !Overwritten(differs, a, pair, at)
    ensures !TakenBySync(differs, pair, at, a.objects[at])
  {
    hide Overwritten;
    if ExporterService(at) {
      ExporterWanted(differs, a, pair, at);
    }
  }

  lemma WrittenByBuilt(differs: Differ, a: Cloud, b: Cloud, pair: Pair, at: Address)
    requires Provisioned(differs, a, b, AllWanted(pair), true) && Built(pair)
    requires at in a.objects && at in b.objects && b.objects[at] != a.objects[at]
    ensures at.site.Managed? && at.site.cluster in pair.clusters && at.kind !in {Deployment, Namespace}
    ensures at.kind == Service ==> b.objects[at].labels == NodeExporterLabels(at.site.cluster)
  {
    hide AllWanted, NodeExporterLabels;
    var d :| d in AllWanted(pair) && d.at == at && Realises(differs, b.objects[at], d.resource);
    BuiltWants(pair, d);
  }

  /** The sync behind an add event that gets past the throttle and meets no failing call. */
  lemma AddSynced(differs: Differ, s: State, b: SyntheticBinding, s': State) returns (local: Cloud, made: Cloud)
    requires Inv(s) && Step(differs, s, AddBinding(b), s') && Syncing(s, b) && s'.cloud.failures == s.cloud.failures
    ensures b.name in s'.pairs && s'.pairs == Paired(s, b).pairs
    ensures Built(s'.pairs[b.name]) && s'.pairs[b.name].binding.name == b.name
    ensures forall c | c in s'.pairs[b.name].clusters :: ClusterInBinding(c, s'.pairs)
    ensures AllConnected(s'.pairs[b.name], s.cloud.connected)
    ensures Synced(differs, s.cloud, local, made, s'.cloud, s'.pairs[b.name], s'.pairs, true, true)
  {
    hide Inv, PairOf, Throttled, Reconciled, Recorded, Synced, AllConnected, BuiltFor;
    var t := Paired(Recorded(s, b), b);
    RecordedKeepsInv(s, b);
    RecordedKeeps(s, b);
    PairedKeepsInv(Recorded(s, b), b);
    InvWellKeyed(t, b.name);
    ReconciledKeepsMaps(differs, t, b.name, s');
    ErrorFreeSync(differs, t, b.name, s');
    local, made :| Synced(differs, t.cloud, local, made, s'.cloud, t.pairs[b.name], t.pairs, true, true);
  }

  /**
   The limit of isolation: of all objects of another binding with a pair, an add event without a failing call
   takes away exactly two kinds. One is an exposed namespace, whatever binding the event is for. The other is the
   service monitoring/node-exporter, if the event is for a binding named "system" that is placed on its cluster and
   the service differs from the node exporter's.
   */
  lemma ErrorFreeAddOnOthers(differs: Differ, s: State, b: SyntheticBinding, s': State, n: string, at: Address)
    requires Inv(s) && Step(differs, s, AddBinding(b), s') && Syncing(s, b) && s'.cloud.failures == s.cloud.failures
    requires n != b.name && Belongs(s, at, n)
    ensures b.name in s'.pairs && n in s'.pairs
    ensures var o, exposed := s.cloud.objects[at], Exposed(s'.pairs, s.cloud.connected, at, s.cloud.objects[at]);
            && (at in s'.cloud.objects && s'.cloud.objects[at] == o
                <==> !Overwritten(differs, s.cloud, s'.pairs[b.name], at) && !exposed)
            && (at !in s'.cloud.objects <==> TakenBySync(differs, s'.pairs[b.name], at, o) || exposed)
  {
    hide Inv, Step, Synced, Syncing, PairOf, Built, AllConnected, Overwritten, TakenBySync, BoundTo, Exposed,
      ClusterInBinding;
    var local, made := AddSynced(differs, s, b, s');
    SyncOnOthers(differs, s.cloud, local, made, s'.cloud, s'.pairs[b.name], s'.pairs, n, at);
  }

  const EXAMPLE_MODEL := SyntheticModel("model", "1")

  function ExampleBinding(name: string, placements: seq<ClusterPlacement>): SyntheticBinding {
    SyntheticBinding(name, "1", false, [], EXAMPLE_MODEL.name, placements)
  }

  /** Binding n has a pair without placements; all there is on the one connected cluster is one object of its. */
  function ExampleState(n: string, at: Address, o: Resource): State
    requires at.site.Managed?
  {
    State(map[EXAMPLE_MODEL.name := EXAMPLE_MODEL], map[n := ExampleBinding(n, [])],
          map[n := PairOf(EXAMPLE_MODEL, ExampleBinding(n, []))], map[],
          Cloud(map[at := o], {at.site.cluster}, 0, 0))
  }

  lemma ExampleFacts(n: string, at: Address, o: Resource, b: SyntheticBinding)
    requires at.site.Managed? && BoundTo(o.labels, n) && b.name != n && !b.deleting && b.modelName == EXAMPLE_MODEL.name
    ensures var s := ExampleState(n, at, o);
            && Inv(s) && Belongs(s, at, n) && Syncing(s, b)
            && at in s.cloud.objects && s.cloud.objects[at] == o && s.cloud.connected == {at.site.cluster}
            && Paired(s, b).pairs == s.pairs[b.name := PairOf(EXAMPLE_MODEL, b)]
  {
    hide BoundTo, PairOf, BuiltFor;
    BuiltByPairOf(EXAMPLE_MODEL, ExampleBinding(n, []));
  }

  /**
   What the limit of isolation names can be lost: an add event for a new binding, placed at most on the one cluster,
   can be handled in the example state without a failing call, and then the object is gone.
   */
  lemma LostExample(differs: Differ, n: string, at: Address, o: Resource, b: SyntheticBinding) returns (s': State)
    requires (forall r: Resource :: !differs(r, r)) && at.site.Managed? && BoundTo(o.labels, n)
    requires b.name != n && !b.deleting && b.modelName == EXAMPLE_MODEL.name
    requires AllConnected(PairOf(EXAMPLE_MODEL, b), {at.site.cluster})
    requires || TakenBySync(differs, PairOf(EXAMPLE_MODEL, b), at, o)
             || Exposed(ExampleState(n, at, o).pairs[b.name := PairOf(EXAMPLE_MODEL, b)], {at.site.cluster}, at, o)
    ensures var s := ExampleState(n, at, o);
            && Inv(s) && Belongs(s, at, n)
            && Step(differs, s, AddBinding(b), s') && s'.cloud.failures == s.cloud.failures
            && n in s'.pairs && at !in s'.cloud.objects
  {
    hide *;
    var s := ExampleState(n, at, o);
    ExampleFacts(n, at, o, b);
    ErrorFreeAddIff(differs, s, b);
    s' :| Step(differs, s, AddBinding(b), s') && s'.cloud.failures == s.cloud.failures;
    var local, made := AddSynced(differs, s, b, s');
    ErrorFreeAddOnOthers(differs, s, b, s', n, at);
  }

  /** The first input that shows it: "system" takes the service of another binding. */
  lemma ServiceTakenExample(differs: Differ, n: string, c: string, o: Resource) returns (b: SyntheticBinding, s': State)
    requires (forall r: Resource :: !differs(r, r)) && n != SYSTEM_BINDING
    requires BoundTo(o.labels, n) && differs(o, ExporterResource(c))
    ensures var at := Address(Managed(c), Service, MONITORING, NODE_EXPORTER);
            var s := ExampleState(n, at, o);
            && Inv(s) && Belongs(s, at, n) && Step(differs, s, AddBinding(b), s') && n in s'.pairs
            && at !in s'.cloud.objects
  {
    var at := Address(Managed(c), Service, MONITORING, NODE_EXPORTER);
    b := ExampleBinding(SYSTEM_BINDING, [ClusterPlacement(c, [])]);
    assert b.placements[0].name == c;
    assert TakenBySync(differs, PairOf(EXAMPLE_MODEL, b), at, o);
    hide *;
    s' := LostExample(differs, n, at, o, b);
  }

  /** The second: any binding takes a namespace of another one on a cluster where no binding is placed. */
  lemma NamespaceTakenExample(differs: Differ, n: string, c: string, name: string, other: string)
    returns (b: SyntheticBinding, s': State)
    requires (forall r: Resource :: !differs(r, r)) && other != n && name !in KEPT_NAMESPACES
    ensures var at := Address(Managed(c), Namespace, "", name);
            var o := Resource(ManagedBindingLabels(n, c), NAMESPACE_CONTENT);
            var s := ExampleState(n, at, o);
            && Inv(s) && Belongs(s, at, n) && Step(differs, s, AddBinding(b), s') && n in s'.pairs && b.name == other
            && at !in s'.cloud.objects
  {
    var at, o := Address(Managed(c), Namespace, "", name), Resource(ManagedBindingLabels(n, c), NAMESPACE_CONTENT);
    DistinctKeys();
    NoBindingSelectorAlsoMatchesBindings(n, c);
    assert BoundTo(o.labels, n);
    hide Matches, ManagedBindingLabels, ManagedLabelsNoBinding, BoundTo;
    b := ExampleBinding(other, []);
    assert Exposed(ExampleState(n, at, o).pairs[other := PairOf(EXAMPLE_MODEL, b)], {c}, at, o);
    assert AllConnected(PairOf(EXAMPLE_MODEL, b), {c});
    hide *;
    s' := LostExample(differs, n, at, o, b);
  }

  // ---------- the operator's own objects ----------

  /**
   For "system": the monitoring namespace of the pair's clusters, the node exporter's roles and role bindings of all
   other connected clusters, and its service on all connected clusters.
   */
  predicate LostToSync(pair: Pair, connected: set<string>, at: Address)
    requires Infrastructure(at)
  {
    && IsSystem(pair)
    && var c := at.site.cluster;
       || (at.kind == Namespace && at.name == MONITORING && c in pair.clusters)
       || (at.kind in {ClusterRole, ClusterRoleBinding} && at.name == NODE_EXPORTER && c in connected
           && c !in pair.clusters)
       || (at.kind == Service && c in connected)
  }

  lemma SystemLabels(at: Address)
    requires Infrastructure(at)
    ensures CLUSTER in InfrastructureLabels(at) && InfrastructureLabels(at)[CLUSTER] == at.site.cluster
    ensures BoundTo(InfrastructureLabels(at), SYSTEM_BINDING) <==> at.name != VERRAZZANO_SYSTEM
    ensures at.kind == Service ==> InfrastructureLabels(at) == NodeExporterLabels(at.site.cluster)
  {
    DistinctKeys();
    DistinctNames();
  }

  lemma LostIffOrphan(pair: Pair, pairs: map<string, Pair>, connected: set<string>, at: Address, o: Resource)
    requires IsSystem(pair) && Built(pair) && AllConnected(pair, connected)
    requires Infrastructure(at) && o.labels == InfrastructureLabels(at)
    ensures Doomed(Orphans(pair, pairs, connected), at, o) <==> LostToSync(pair, connected, at)
  {
    hide Orphans, InfrastructureLabels;
    OrphanedIffDoomed(pair, pairs, connected, at, o);
    SystemLabels(at);
    DistinctNames();
    if at.site.cluster in pair.clusters {
      assert pair.clusters[at.site.cluster] == BuiltCluster(at.site.cluster);
    }
  }

  lemma SweptExactly(a: Cloud, b: Cloud, ls: set<Listing>, at: Address)
    requires Swept(a, b, ls, true) && at in a.objects
    ensures at !in b.objects <==> Doomed(ls, at, a.objects[at])
  {
  }

  lemma SystemSyncOnInfrastructure(differs: Differ, a: Cloud, local: Cloud, made: Cloud, b: Cloud, pair: Pair,
                                   pairs: map<string, Pair>, at: Address)
    requires Synced(differs, a, local, made, b, pair, pairs, true, true)
    requires IsSystem(pair) && Built(pair) && AllConnected(pair, a.connected)
    requires Labelled(a) && Infrastructure(at) && at in a.objects
    ensures at !in b.objects <==> LostToSync(pair, a.connected, at)
  {
    assert Labelled(local);
    hide AllWanted, Orphans, Swept, InfrastructureLabels, AllConnected, Built, LostToSync;
    ProvisionedKeepsLabels(differs, local, made, pair, true);
    ProvisionedSpares(differs, local, made, AllWanted(pair), true, at);
    LostIffOrphan(pair, pairs, a.connected, at, made.objects[at]);
    SweptExactly(made, b, Orphans(pair, pairs, a.connected), at);
  }

  /**
   The limit of survival in a sync: from a state in which the infrastructure carries the operator's labels, an
   add event without a failing call removes exactly this: for a binding named "system", the monitoring namespace
   of its clusters, the node exporter's cluster roles and role bindings of all other connected clusters, and its
   service on all connected clusters. Outside the binding's clusters nothing creates these again.
   */
  lemma ErrorFreeAddOnInfrastructure(differs: Differ, s: State, b: SyntheticBinding, s': State, at: Address)
    requires Inv(s) && Step(differs, s, AddBinding(b), s') && Syncing(s, b) && s'.cloud.failures == s.cloud.failures
    requires Labelled(s.cloud) && Infrastructure(at) && at in s.cloud.objects
    ensures b.name in s'.pairs && (at !in s'.cloud.objects <==> LostToSync(s'.pairs[b.name], s.cloud.connected, at))
  {
    hide Inv, Step, Synced, Syncing, PairOf, Built, AllConnected, Labelled, Infrastructure, InfrastructureLabels;
    var local, made := AddSynced(differs, s, b, s');
    var pair := s'.pairs[b.name];
    if IsSystem(pair) {
      SystemSyncOnInfrastructure(differs, s.cloud, local, made, s'.cloud, pair, s'.pairs, at);
    } else {
      hide Survives;
      SyncedSurvives(differs, s.cloud, local, made, s'.cloud, pair, s'.pairs, true, true);
      SurvivesAt(s.cloud, s'.cloud, at);
    }
  }

  lemma SurvivesAt(a: Cloud, b: Cloud, at: Address)
    requires Survives(a, b) && at in a.objects && Infrastructure(at)
    ensures at in b.objects
  {
  }

  /** The node exporter's roles of the pair's clusters, if all of them are connected. */
  predicate LostToDeletion(pair: Pair, connected: set<string>, at: Address)
    requires Infrastructure(at)
  {
    && IsSystem(pair) && AllConnected(pair, connected)
    && at.kind in {ClusterRole, ClusterRoleBinding} && at.name == NODE_EXPORTER && at.site.cluster in pair.clusters
  }

  lemma RemovableInfrastructure(pair: Pair, last: bool, at: Address, o: Resource)
    requires Infrastructure(at) && o.labels == InfrastructureLabels(at)
    ensures Removable(pair, last, at, o)
       <==> IsSystem(pair) && at.kind in {ClusterRole, ClusterRoleBinding} && at.name == NODE_EXPORTER
            && at.site.cluster in pair.clusters
  {
    hide InfrastructureLabels, Matches, BoundTo, ManagedBindingLabels, ManagedLabelsNoBinding;
    SystemLabels(at);
    DistinctNames();
    if at.name == NODE_EXPORTER {
      InfrastructureUnshared(at);
    }
    if !IsSystem(pair) {
      InfrastructureBound(at, pair.binding.name);
    }
  }

  /** What belongs to the node exporter matches neither the selector for shared objects nor a binding's full labels. */
  lemma InfrastructureUnshared(at: Address)
    requires Infrastructure(at) && at.name == NODE_EXPORTER
    ensures forall c :: !Matches(ManagedLabelsNoBinding(c), InfrastructureLabels(at))
    ensures forall n, c :: !Matches(ManagedBindingLabels(n, c), InfrastructureLabels(at))
  {
    DistinctNames();
    hide Matches, ManagedLabelsNoBinding, ManagedBindingLabels, NodeExporterLabels;
    forall n, c ensures !Matches(ManagedBindingLabels(n, c), InfrastructureLabels(at)) {
      NodeExporterNotBound(n, c, at.site.cluster);
    }
    forall c ensures !Matches(ManagedLabelsNoBinding(c), InfrastructureLabels(at)) {
      NodeExporterUnmatched(c, at.site.cluster);
    }
  }

  lemma NodeExporterNotBound(n: string, c: string, cluster: string)
    ensures !Matches(ManagedBindingLabels(n, c), NodeExporterLabels(cluster))
  {
    DistinctKeys();
    assert K8S_APP in ManagedBindingLabels(n, c) && K8S_APP !in NodeExporterLabels(cluster);
  }

  /**
   The limit of survival in a deletion: a completed one removes exactly this: for a binding named "system" whose
   clusters are all connected, the node exporter's cluster roles and role bindings of these clusters.
   */
  lemma CompletedDeletionOnInfrastructure(s: State, n: string, vmis: Cloud, s': State, vmiOk: bool, at: Address)
    requires Inv(s) && n in s.pairs && DeletionRun(s, n, vmis, s', vmiOk, true)
    requires Labelled(s.cloud) && Infrastructure(at) && at in s.cloud.objects
    ensures at !in s'.cloud.objects <==> LostToDeletion(s.pairs[n], s.cloud.connected, at)
  {
    CompletedDeletion(s, n, vmis, s', vmiOk);
    InvWellKeyed(s, n);
    RemovableInfrastructure(s.pairs[n], |s.pairs| == 1, at, s.cloud.objects[at]);
    hide DeletionRun, Inv, InfrastructureLabels, AllConnected, Removable, BoundTo;
  }
}

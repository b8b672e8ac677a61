/**
 What no run of the handlers does: take objects away from another binding, or delete the objects
 the operator itself keeps on every cluster.
 */
module Isolation {
  import opened Labels
  import opened Clouds
  import opened Types
  import opened Passes
  import opened Location
  import opened Fleets
  import opened Machine

  ghost predicate Run(differs: Differ, states: seq<State>, events: seq<Event>) {
    |states| == |events| + 1 && forall i | 0 <= i < |events| :: Step(differs, states[i], events[i], states[i + 1])
  }

  /** Every reachable state satisfies the invariant. */
  lemma {:induction false} ReachableInv(differs: Differ, states: seq<State>, events: seq<Event>, i: nat)
    requires Run(differs, states, events) && Initial(states[0]) && i < |states|
    ensures Inv(states[i])
  {
    hide Step, BuiltFor;
    if i > 0 {
      ReachableInv(differs, states, events, i - 1);
      StepKeepsInv(differs, states[i - 1], events[i - 1], states[i]);
    }
  }

  // ---------- isolation ----------

  predicate Concerns(e: Event, b: string) {
    (e.AddBinding? || e.DeleteBinding?) && e.binding.name == b
  }

  /** An object on a managed cluster that belongs to binding b, which has a pair. */
  ghost predicate Belongs(s: State, at: Address, b: string) {
    b in s.pairs && at in s.cloud.objects && at.site.Managed? && BoundTo(s.cloud.objects[at].labels, b)
  }

  /**
   A namespace that the clean-up of any pair takes for a shared one nobody needs any more: on a connected cluster
   on which no pair is placed, with the labels of shared objects, and not one of the two that are kept.
   */
  ghost predicate Exposed(pairs: map<string, Pair>, connected: set<string>, at: Address, o: Resource) {
    && at.site.Managed? && at.kind == Namespace && at.name !in KEPT_NAMESPACES
    && at.site.cluster in connected && !ClusterInBinding(at.site.cluster, pairs)
    && Matches(ManagedLabelsNoBinding(at.site.cluster), o.labels)
  }

  /** An object that belongs to b and can never be exposed while b has its pair. */
  ghost predicate Guarded(s: State, at: Address, b: string) {
    && Belongs(s, at, b)
    && (at.kind == Namespace ==>
          || at.site.cluster in PlacementNames(s.pairs[b].binding) || at.name in KEPT_NAMESPACES
          || !Matches(ManagedLabelsNoBinding(at.site.cluster), s.cloud.objects[at].labels))
  }

  lemma GuardedNotExposed(s: State, at: Address, b: string, pairs: map<string, Pair>, connected: set<string>)
    requires Guarded(s, at, b) && b in pairs && pairs[b] == s.pairs[b]
    ensures !Exposed(pairs, connected, at, s.cloud.objects[at])
  {
    hide Matches;
  }

  /** The service the operator writes for a pair named "system". */
  predicate ExporterService(at: Address) {
    at.site.Managed? && at.kind == Service && at.namespace == MONITORING && at.name == NODE_EXPORTER
  }

  /** What the operator writes for all bindings alike. An existing namespace is never written to. */
  predicate Shared(at: Address) {
    || (at.kind in {Service, DaemonSet, ServiceAccount} && at.namespace == MONITORING && at.name == NODE_EXPORTER)
    || (at.kind == ServiceAccount && at.namespace == VERRAZZANO_SYSTEM && at.name == VERRAZZANO_SYSTEM)
    || (at.kind in {ClusterRole, ClusterRoleBinding} && at.namespace == ""
        && at.name in {VERRAZZANO_SYSTEM, NODE_EXPORTER})
  }

  lemma SelectsOnlyItsBinding(l: Listing, n: string, b: string, at: Address, o: Resource)
    requires Matches(l.selector, o.labels) ==> BoundTo(o.labels, n)
    requires n != b && BoundTo(o.labels, b)
    ensures !Hits(l, at, o)
  {
  }

  /** No clean-up listing hits an object of another binding, but for exposed namespaces. */
  lemma OrphansSpare(pair: Pair, pairs: map<string, Pair>, connected: set<string>, b: string, at: Address, o: Resource)
    requires pair.binding.name != b && BoundTo(o.labels, b) && at.site.Managed?
    ensures Doomed(Orphans(pair, pairs, connected), at, o) ==> Exposed(pairs, connected, at, o)
  {
    hide Matches, BoundTo, Orphans, ExpectedNames, ClusterInBinding;
    forall l | l in Orphans(pair, pairs, connected) && Hits(l, at, o) ensures Exposed(pairs, connected, at, o) {
      OrphanListings(pair, pairs, connected, l);
      SelectorMeaning(pair.binding.name, l.site.cluster, o.labels);
      if l.selector == BindingClusterSelector(pair.binding.name, l.site.cluster) {
        SelectsOnlyItsBinding(l, pair.binding.name, b, at, o);
      }
    }
  }

  lemma DeletionSpares(s: State, n: string, b: string, at: Address, o: Resource)
    requires Inv(s) && n in s.pairs && b in s.pairs && n != b && BoundTo(o.labels, b)
    ensures !Doomed(Deletion(s, n), at, o)
    ensures !Doomed({LocalListing(Vmi, n)}, at, o)
  {
    hide Matches, BoundTo, Deletion, Kept;
    InvWellKeyed(s, n);
    hide Inv;
    assert {n, b} <= s.pairs.Keys && |{n, b}| == 2;
    SubsetSize({n, b}, s.pairs.Keys);
    forall l | l in Deletion(s, n) || l == LocalListing(Vmi, n) ensures !Hits(l, at, o) {
      if l in Deletion(s, n) {
        DeletionListing(s, n, l);
      }
      SelectorMeaning(n, if l.site.Managed? then l.site.cluster else "", o.labels);
      SelectsOnlyItsBinding(l, n, b, at, o);
    }
  }

  lemma SubsetSize(a: set<string>, b: set<string>)
    requires a <= b
    ensures |a| <= |b|
  {
    assert |b| == |a| + |b - a| by {
      assert b == a + (b - a);
    }
  }

  ghost predicate Built(pair: Pair) {
    forall c | c in pair.clusters :: pair.clusters[c] == BuiltCluster(c)
  }

  /** A built pair wants the system namespace and shared objects. */
  lemma BuiltWants(pair: Pair, d: Desired)
    requires d in AllWanted(pair) && Built(pair)
    ensures d.at.site.Managed? && d.at.site.cluster in pair.clusters
    ensures d.at.kind != Namespace ==> Shared(d.at)
    ensures d.at.kind == Namespace ==> d.at.namespace == "" && d.at.name == VERRAZZANO_SYSTEM
    ensures !IsSystem(pair) ==>
              d.at.kind in {Namespace, ServiceAccount, ClusterRole, ClusterRoleBinding}
                  && d.at.name == VERRAZZANO_SYSTEM
    ensures !IsSystem(pair) ==> d.at.namespace == if d.at.kind == ServiceAccount then VERRAZZANO_SYSTEM else ""
    ensures d.at.kind !in {Deployment, ConfigMap}
    ensures !IsSystem(pair) || d.at.kind == Namespace ==> d.resource.labels == ManagedLabelsNoBinding(d.at.site.cluster)
    ensures IsSystem(pair) && d.at.kind != Namespace ==>
              d.at.name == NODE_EXPORTER && d.resource.labels == NodeExporterLabels(d.at.site.cluster)
    ensures IsSystem(pair) && d.at.kind == Service ==> d.resource == NodeExporterService(d.at.site.cluster).resource
  {
    hide WantedOf, ManagedLabelsNoBinding, NodeExporterLabels, ManagedBindingLabels;
    var kind := WantedKind(pair, d);
    var c := d.at.site.cluster;
    assert pair.clusters[c] == BuiltCluster(c);
  }

  lemma SystemWants(cluster: string, d: Desired)
    requires d in AllWanted(SystemPair(cluster))
    ensures d.at.site == Managed(cluster) && d.at.kind !in {Deployment, ConfigMap, Vmi, Secret}
    ensures d.at.kind == Namespace ==>
              d.at.name == MONITORING && d.resource.labels == ManagedBindingLabels(SYSTEM_BINDING, cluster)
    ensures d.at.kind != Namespace ==> d.at.name == NODE_EXPORTER && d.resource.labels == NodeExporterLabels(cluster)
    ensures d.at.namespace == if d.at.kind in {Service, DaemonSet, ServiceAccount} then MONITORING else ""
  {
    hide WantedOf, ManagedLabelsNoBinding, NodeExporterLabels, ManagedBindingLabels;
    var kind := WantedKind(SystemPair(cluster), d);
    DistinctNames();
  }

  /** A create pass removes nothing; what it rewrites was wanted. */
  lemma ProvisionedSpares(differs: Differ, a: Cloud, b: Cloud, ds: set<Desired>, ok: bool, at: Address)
    requires Provisioned(differs, a, b, ds, ok) && at in a.objects
    ensures at in b.objects
    ensures b.objects[at] != a.objects[at] ==> Replaceable(at.kind) && exists d :: d in ds && d.at == at
  {
  }

  lemma SyncSpares(differs: Differ, a: Cloud, local: Cloud, made: Cloud, b: Cloud, pair: Pair, pairs: map<string, Pair>,
                   okMade: bool, ok: bool, n: string, at: Address)
    requires Synced(differs, a, local, made, b, pair, pairs, okMade, ok) && Built(pair)
    requires pair.binding.name != n && at in a.objects && at.site.Managed? && BoundTo(a.objects[at].labels, n)
    ensures at !in b.objects ==>
              (ExporterService(at) && IsSystem(pair)) || Exposed(pairs, a.connected, at, a.objects[at])
    ensures at in b.objects && !Shared(at) ==> b.objects[at] == a.objects[at]
  {
    hide AllWanted, Orphans, Provisioned, Exposed;
    ProvisionedSpares(differs, local, made, AllWanted(pair), okMade, at);
    var o := made.objects[at];
    if o == a.objects[at] {
      OrphansSpare(pair, pairs, a.connected, n, at, o);
    } else {
      var d :| d in AllWanted(pair) && d.at == at;
      BuiltWants(pair, d);
      if at.kind != Service {
        OthersStayWhereUsed(pair, pairs, a.connected, at, o);
      }
    }
  }

  /** Other objects than workloads and namespaces are cleaned up only on clusters the pair does not use, if at all. */
  lemma OthersStayWhereUsed(pair: Pair, pairs: map<string, Pair>, connected: set<string>, at: Address, o: Resource)
    requires at.kind !in {Service, Deployment, Namespace} && at.site.Managed? && at.site.cluster in pair.clusters
    ensures !Doomed(Orphans(pair, pairs, connected), at, o)
  {
    hide Orphans;
    forall l | l in Orphans(pair, pairs, connected) ensures !Hits(l, at, o) {
      OrphanListings(pair, pairs, connected, l);
    }
  }

  /** The part of a handler step after its map updates: sync of pair n, or nothing. */
  lemma ReconciledSpares(differs: Differ, s: State, n: string, s': State, b: string, at: Address)
    requires Inv(s) && n in s.pairs && Reconciled(differs, s, n, s')
    requires n != b && Belongs(s, at, b)
    ensures s'.pairs == s.pairs
    ensures at !in s'.cloud.objects ==>
              || (ExporterService(at) && n == SYSTEM_BINDING)
              || Exposed(s.pairs, s.cloud.connected, at, s.cloud.objects[at])
    ensures at in s'.cloud.objects && !Shared(at) ==> s'.cloud.objects[at] == s.cloud.objects[at]
  {
    hide Synced, BoundTo, Exposed;
    InvWellKeyed(s, n);
    hide Inv;
    if !Failed(s.cloud, s'.cloud) {
      var local, made, okMade, ok :| Synced(differs, s.cloud, local, made, s'.cloud, s.pairs[n], s.pairs, okMade, ok);
      SyncSpares(differs, s.cloud, local, made, s'.cloud, s.pairs[n], s.pairs, okMade, ok, b, at);
    }
  }

  lemma DeletedSpares(s: State, n: string, s': State, b: string, at: Address)
    requires Inv(s) && n in s.pairs && n != b && Belongs(s, at, b)
    requires exists vmis, vmiOk, ok :: DeletionRun(s, n, vmis, s', vmiOk, ok)
    ensures at in s'.cloud.objects && s'.cloud.objects[at] == s.cloud.objects[at]
    ensures b in s'.pairs && s'.pairs[b] == s.pairs[b]
  {
    hide Deletion, PassesOf, BoundTo, Inv;
    var vmis, vmiOk, ok :| DeletionRun(s, n, vmis, s', vmiOk, ok);
    RunSweeps(s, n, vmis, s', vmiOk, ok);
    DeletionSpares(s, n, b, at, s.cloud.objects[at]);
  }

  /**
   One step that is not an event of binding b keeps b's pair and every object of b. A shared object may be
   rewritten; only the service monitoring/node-exporter may go, in an event of "system", and an exposed namespace,
   in an add event of any other binding.
   */
  lemma StepIsolation(differs: Differ, s: State, e: Event, s': State, b: string, at: Address)
    requires Inv(s) && Step(differs, s, e, s') && !Concerns(e, b) && Belongs(s, at, b)
    ensures b in s'.pairs && s'.pairs[b] == s.pairs[b]
    ensures at !in s'.cloud.objects ==>
              || (ExporterService(at) && Concerns(e, SYSTEM_BINDING))
              || (e.AddBinding? && Exposed(s'.pairs, s.cloud.connected, at, s.cloud.objects[at]))
    ensures at in s'.cloud.objects && !Shared(at) ==> s'.cloud.objects[at] == s.cloud.objects[at]
  {
    hide BindingAdded, BindingDeleted, ClusterConnected, BoundTo, PairOf, Inv, Shared, ExporterService, Exposed;
    match e
    case AddModel(m) =>
    case DeleteModel(m) =>
    case AddBinding(binding) =>
      AddIsolation(differs, s, binding, s', b, at);
    case DeleteBinding(binding) =>
      DeleteIsolation(s, binding, s', b, at);
    case Connect(c) =>
      ConnectedSpares(differs, s, c, s', at);
  }

  lemma DeleteIsolation(s: State, binding: SyntheticBinding, s': State, b: string, at: Address)
    requires Inv(s) && BindingDeleted(s, binding, s') && binding.name != b && Belongs(s, at, b)
    ensures b in s'.pairs && s'.pairs[b] == s.pairs[b]
    ensures at in s'.cloud.objects && s'.cloud.objects[at] == s.cloud.objects[at]
  {
    hide DeletionRun, Inv, BoundTo;
    if FINALIZER in binding.finalizers && binding.name in s.pairs {
      DeletedSpares(s, binding.name, s', b, at);
    }
  }

  ghost predicate StillBelongs(s: State, t: State, b: string, at: Address)
    requires b in s.pairs
  {
    Belongs(t, at, b) && t.cloud == s.cloud && b in t.pairs && t.pairs[b] == s.pairs[b]
  }

  /** Updating the maps for another binding keeps b's pair and objects. */
  lemma RegistrationSpares(s: State, binding: SyntheticBinding, b: string, at: Address)
    requires Belongs(s, at, b) && binding.name != b
    ensures StillBelongs(s, Adopted(s, binding), b, at) && StillBelongs(s, Recorded(s, binding), b, at)
    ensures StillBelongs(s, Paired(Recorded(s, binding), binding), b, at)
  {
    hide PairOf, BoundTo;
  }

  lemma AddIsolation(differs: Differ, s: State, binding: SyntheticBinding, s': State, b: string, at: Address)
    requires Inv(s) && BindingAdded(differs, s, binding, s') && binding.name != b && Belongs(s, at, b)
    ensures b in s'.pairs && s'.pairs[b] == s.pairs[b]
    ensures at !in s'.cloud.objects ==>
              || (ExporterService(at) && binding.name == SYSTEM_BINDING)
              || Exposed(s'.pairs, s.cloud.connected, at, s.cloud.objects[at])
    ensures at in s'.cloud.objects && !Shared(at) ==> s'.cloud.objects[at] == s.cloud.objects[at]
  {
    hide Reconciled, BindingDeleted, Inv, BoundTo, Adopted, Recorded, Paired, Throttled;
    hide Shared, ExporterService, Exposed;
    RegistrationSpares(s, binding, b, at);
    if binding.deleting {
      if FINALIZER in binding.finalizers {
        AdoptedKeepsInv(s, binding);
        DeleteIsolation(Adopted(s, binding), binding, s', b, at);
      }
    } else if !Throttled(s, binding) {
      RecordedKeepsInv(s, binding);
      PairedKeepsInv(Recorded(s, binding), binding);
      var t := Paired(Recorded(s, binding), binding);
      if binding.name in t.pairs {
        ReconciledSpares(differs, t, binding.name, s', b, at);
      }
    }
  }

  lemma ConnectedSpares(differs: Differ, s: State, c: string, s': State, at: Address)
    requires ClusterConnected(differs, s, c, s') && at in s.cloud.objects
    ensures at in s'.cloud.objects && s'.pairs == s.pairs
    ensures !Shared(at) ==> s'.cloud.objects[at] == s.cloud.objects[at]
  {
    hide Provisioned, AllWanted;
    if s' != s && !Failed(s.cloud, s'.cloud) {
      var before := s.cloud.(connected := s.cloud.connected + {c});
      var ok :| Provisioned(differs, before, s'.cloud, AllWanted(SystemPair(c)), ok);
      ProvisionedSpares(differs, before, s'.cloud, AllWanted(SystemPair(c)), ok, at);
      if s'.cloud.objects[at] != s.cloud.objects[at] {
        var d :| d in AllWanted(SystemPair(c)) && d.at == at;
        SystemWants(c, d);
      }
    }
  }

  /**
   Isolation over all runs: as long as no event concerns binding b, its pair and all its objects stay exactly
   as they are, but for shared ones and for namespaces that look shared on clusters b is not placed on, whatever
   happens to other models, bindings and clusters and whatever fails.
   */
  lemma {:induction false} RunIsolation(differs: Differ, states: seq<State>, events: seq<Event>, b: string, at: Address)
    requires Run(differs, states, events) && Inv(states[0])
    requires Guarded(states[0], at, b) && !Shared(at)
    requires forall e | e in events :: !Concerns(e, b)
    ensures Inv(states[|events|]) && Guarded(states[|events|], at, b)
    ensures states[|events|].cloud.objects[at] == states[0].cloud.objects[at]
    ensures states[|events|].pairs[b] == states[0].pairs[b]
  {
    hide Step, Inv, BoundTo, PlacementNames, Exposed;
    var k := |events|;
    if k > 0 {
      RunIsolation(differs, states[..k], events[..k - 1], b, at);
      assert Step(differs, states[k - 1], events[k - 1], states[k]);
      StepIsolation(differs, states[k - 1], events[k - 1], states[k], b, at);
      GuardedNotExposed(states[k - 1], at, b, states[k].pairs, states[k - 1].cloud.connected);
      StepKeepsInv(differs, states[k - 1], events[k - 1], states[k]);
    }
  }
}

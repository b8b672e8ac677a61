/** The operator's own objects survive every run of handlers for bindings other than "system". */
module Survival {
  import opened Labels
  import opened Clouds
  import opened Types
  import opened Passes
  import opened Location
  import opened Fleets
  import opened Machine
  import opened Isolation

  /**
   What the operator keeps on every cluster: namespaces, cluster roles, cluster role bindings and service accounts,
   and the node exporter's service and daemon set.
   */
  predicate Infrastructure(at: Address) {
    && at.site.Managed?
    && (|| (at.kind == Namespace && at.namespace == "" && at.name in [MONITORING, VERRAZZANO_SYSTEM])
        || (at.kind in {ClusterRole, ClusterRoleBinding} && at.namespace == ""
            && at.name in [VERRAZZANO_SYSTEM, NODE_EXPORTER])
        || (at.kind == ServiceAccount && at.namespace == VERRAZZANO_SYSTEM && at.name == VERRAZZANO_SYSTEM)
        || (at.kind in {ServiceAccount, Service, DaemonSet} && at.namespace == MONITORING && at.name == NODE_EXPORTER))
  }

  /** The labels this operator gives them. */
  function InfrastructureLabels(at: Address): LabelSet
    requires Infrastructure(at)
  {
    if at.name == VERRAZZANO_SYSTEM then ManagedLabelsNoBinding(at.site.cluster)
    else if at.kind == Namespace then ManagedBindingLabels(SYSTEM_BINDING, at.site.cluster)
    else NodeExporterLabels(at.site.cluster)
  }

  ghost predicate Labelled(c: Cloud) {
    forall at | at in c.objects && Infrastructure(at) :: c.objects[at].labels == InfrastructureLabels(at)
  }

  /** No listing of a pair not named "system" hits an infrastructure object. */
  lemma ListingSpares(l: Listing, n: string, c: string, at: Address, o: Resource)
    requires Infrastructure(at) && o.labels == InfrastructureLabels(at) && n != SYSTEM_BINDING
    requires l.selector == BindingSelector(n) || l.selector == BindingClusterSelector(n, c)
              || l.selector == ManagedBindingLabels(n, c)
             || (l.selector == ManagedLabelsNoBinding(c) && l.kind in {Namespace, ClusterRole, ClusterRoleBinding}
                 && (l.kind == Namespace ==> l.spared == KEPT_NAMESPACES)
                 && (l.kind in {ClusterRole, ClusterRoleBinding} ==> l.spared == KEPT_ROLES))
    ensures !Hits(l, at, o)
  {
    DistinctKeys();
    DistinctNames();
    SelectorMeaning(n, c, o.labels);
    NoBindingSelectorAlsoMatchesBindings(n, c);
    hide Matches, ManagedBindingLabels, NodeExporterLabels, ManagedLabelsNoBinding;
    InfrastructureBound(at, n);
    SelectorMeaning(n, c, NodeExporterLabels(at.site.cluster));
    NoBindingSelectorAlsoMatchesBindings(n, at.site.cluster);
    NodeExporterUnmatched(c, at.site.cluster);
  }

  lemma NodeExporterUnmatched(c: string, cluster: string)
    ensures !Matches(ManagedLabelsNoBinding(c), NodeExporterLabels(cluster))
  {
    DistinctKeys();
    SelectorMeaning("", c, NodeExporterLabels(cluster));
  }

  lemma InfrastructureBound(at: Address, n: string)
    requires Infrastructure(at) && n != SYSTEM_BINDING
    ensures !BoundTo(InfrastructureLabels(at), n)
  {
    DistinctKeys();
  }

  lemma OrphansSpareInfrastructure(pair: Pair, pairs: map<string, Pair>, connected: set<string>, at: Address,
                                   o: Resource)
    requires !IsSystem(pair) && Infrastructure(at) && o.labels == InfrastructureLabels(at)
    ensures !Doomed(Orphans(pair, pairs, connected), at, o)
  {
    hide Orphans, InfrastructureLabels, Infrastructure, ExpectedNames, ClusterInBinding;
    forall l | l in Orphans(pair, pairs, connected) ensures !Hits(l, at, o) {
      OrphanListings(pair, pairs, connected, l);
      ListingSpares(l, pair.binding.name, l.site.cluster, at, o);
    }
  }

  lemma DeletionSparesInfrastructure(s: State, n: string, at: Address, o: Resource)
    requires Inv(s) && n in s.pairs && n != SYSTEM_BINDING && Infrastructure(at) && o.labels == InfrastructureLabels(at)
    ensures !Doomed(Deletion(s, n), at, o) && !Doomed({LocalListing(Vmi, n)}, at, o)
  {
    InvWellKeyed(s, n);
    hide Deletion, InfrastructureLabels, Inv;
    assert at.site.Managed?;
    forall l | l in Deletion(s, n) && l.site.Managed? ensures !Hits(l, at, o) {
      DeletionListing(s, n, l);
      hide Infrastructure, Hits;
      ListingSpares(l, n, l.site.cluster, at, o);
    }
  }

  /** A create pass of a built pair or of the operator's own pair keeps the labels. */
  lemma ProvisionedKeepsLabels(differs: Differ, a: Cloud, b: Cloud, pair: Pair, ok: bool)
    requires Provisioned(differs, a, b, AllWanted(pair), ok) && Labelled(a)
    requires Built(pair) || exists c :: pair == SystemPair(c)
    ensures Labelled(b)
  {
    hide AllWanted, ManagedLabelsNoBinding, ManagedBindingLabels, NodeExporterLabels;
    DistinctNames();
    forall at | at in b.objects && Infrastructure(at) ensures b.objects[at].labels == InfrastructureLabels(at) {
      if WrittenFor(differs, AllWanted(pair), at, b.objects[at]) {
        var d :| d in AllWanted(pair) && d.at == at && Realises(differs, b.objects[at], d.resource);
        if c :| pair == SystemPair(c) {
          SystemWants(c, d);
        } else {
          BuiltWants(pair, d);
        }
      }
    }
  }

  /** No object of the infrastructure disappears, and the labels stay as assigned. */
  ghost predicate Survives(a: Cloud, b: Cloud) {
    Labelled(b) && forall at | at in a.objects && Infrastructure(at) :: at in b.objects
  }

  lemma SweptSurvives(a: Cloud, b: Cloud, ls: set<Listing>, ok: bool)
    requires Swept(a, b, ls, ok) && Labelled(a)
    requires forall at | at in a.objects && Infrastructure(at) :: !Doomed(ls, at, a.objects[at])
    ensures Survives(a, b)
  {
  }

  lemma SyncedSurvives(differs: Differ, a: Cloud, local: Cloud, made: Cloud, b: Cloud, pair: Pair,
                       pairs: map<string, Pair>, okMade: bool, ok: bool)
    requires Synced(differs, a, local, made, b, pair, pairs, okMade, ok) && Labelled(a)
    requires Built(pair) && !IsSystem(pair)
    ensures Survives(a, b)
  {
    hide Provisioned, Swept, Orphans, AllWanted, InfrastructureLabels;
    ProvisionedKeepsLabels(differs, local, made, pair, okMade);
    forall at | at in local.objects ensures at in made.objects {
      ProvisionedSpares(differs, local, made, AllWanted(pair), okMade, at);
    }
    forall at | at in made.objects && Infrastructure(at)
      ensures !Doomed(Orphans(pair, pairs, a.connected), at, made.objects[at])
    {
      OrphansSpareInfrastructure(pair, pairs, a.connected, at, made.objects[at]);
    }
    SweptSurvives(made, b, Orphans(pair, pairs, a.connected), ok);
  }

  lemma SyncSurvives(differs: Differ, s: State, n: string, s': State)
    requires Inv(s) && n in s.pairs && n != SYSTEM_BINDING && Reconciled(differs, s, n, s') && Labelled(s.cloud)
    ensures Survives(s.cloud, s'.cloud)
  {
    var pair := s.pairs[n];
    InvWellKeyed(s, n);
    hide Inv, Synced, InfrastructureLabels;
    if !Failed(s.cloud, s'.cloud) {
      var local, made, okMade, ok :| Synced(differs, s.cloud, local, made, s'.cloud, pair, s.pairs, okMade, ok);
      SyncedSurvives(differs, s.cloud, local, made, s'.cloud, pair, s.pairs, okMade, ok);
    }
  }

  lemma DeletionSurvives(s: State, n: string, s': State)
    requires Inv(s) && n in s.pairs && n != SYSTEM_BINDING && Labelled(s.cloud)
    requires exists vmis, vmiOk, ok :: DeletionRun(s, n, vmis, s', vmiOk, ok)
    ensures Survives(s.cloud, s'.cloud)
  {
    hide Deletion, PassesOf, Swept, InfrastructureLabels, Inv;
    var vmis, vmiOk, ok :| DeletionRun(s, n, vmis, s', vmiOk, ok);
    RunSweeps(s, n, vmis, s', vmiOk, ok);
    forall at, o: Resource | Infrastructure(at) && o.labels == InfrastructureLabels(at)
      ensures !Doomed(Deletion(s, n), at, o) && !Doomed({LocalListing(Vmi, n)}, at, o)
    {
      DeletionSparesInfrastructure(s, n, at, o);
    }
    SweptSurvives(s.cloud, vmis, {LocalListing(Vmi, n)}, vmiOk);
    SweptSurvives(vmis, s'.cloud, Deletion(s, n), ok);
  }

  lemma StepSurvives(differs: Differ, s: State, e: Event, s': State)
    requires Inv(s) && Step(differs, s, e, s') && Labelled(s.cloud)
    requires SYSTEM_BINDING !in s.bindings && !Concerns(e, SYSTEM_BINDING)
    ensures Survives(s.cloud, s'.cloud) && SYSTEM_BINDING !in s'.bindings
  {
    hide BindingAdded, BindingDeleted, ClusterConnected, PairOf, Labelled, Infrastructure, Inv;
    match e
    case AddModel(m) =>
    case DeleteModel(m) =>
    case AddBinding(b) =>
      AddSurvives(differs, s, b, s');
    case DeleteBinding(b) =>
      DeleteSurvives(s, b, s');
    case Connect(c) =>
      ConnectSurvives(differs, s, c, s');
  }

  lemma DeleteSurvives(s: State, b: SyntheticBinding, s': State)
    requires Inv(s) && BindingDeleted(s, b, s') && Labelled(s.cloud) && b.name != SYSTEM_BINDING
    ensures Survives(s.cloud, s'.cloud) && s'.bindings.Keys <= s.bindings.Keys
  {
    hide DeletionRun, Labelled, Infrastructure, Inv;
    if FINALIZER in b.finalizers && b.name in s.pairs {
      DeletionSurvives(s, b.name, s');
      DeletionDropsOnly(s, b.name, s');
    }
  }

  lemma AddSurvives(differs: Differ, s: State, b: SyntheticBinding, s': State)
    requires Inv(s) && BindingAdded(differs, s, b, s') && Labelled(s.cloud) && b.name != SYSTEM_BINDING
    requires SYSTEM_BINDING !in s.bindings
    ensures Survives(s.cloud, s'.cloud) && SYSTEM_BINDING !in s'.bindings
  {
    hide Reconciled, BindingDeleted, PairOf, Labelled, Infrastructure, Inv, Throttled, Survives, Adopted, Recorded,
    Paired;
    BindingsAdded(s, b);
    UnchangedSurvives(s.cloud);
    if b.deleting {
      if FINALIZER in b.finalizers {
        AdoptedKeepsInv(s, b);
        DeleteSurvives(Adopted(s, b), b, s');
      }
    } else if !Throttled(s, b) {
      RecordedKeepsInv(s, b);
      PairedKeepsInv(Recorded(s, b), b);
      var t := Paired(Recorded(s, b), b);
      if b.name in t.pairs {
        SyncSurvives(differs, t, b.name, s');
        ReconciledKeepsMaps(differs, t, b.name, s');
      }
    }
  }

  lemma BindingsAdded(s: State, b: SyntheticBinding)
    ensures Adopted(s, b).cloud == Recorded(s, b).cloud == Paired(Recorded(s, b), b).cloud == s.cloud
    ensures Adopted(s, b).bindings.Keys <= s.bindings.Keys + {b.name}
    ensures Recorded(s, b).bindings.Keys <= s.bindings.Keys + {b.name}
    ensures Paired(Recorded(s, b), b).bindings.Keys <= s.bindings.Keys + {b.name}
  {
    hide PairOf;
  }

  lemma UnchangedSurvives(a: Cloud)
    requires Labelled(a)
    ensures Survives(a, a)
  {
  }

  lemma DeletionDropsOnly(s: State, n: string, s': State)
    requires n in s.pairs && exists vmis, vmiOk, ok :: DeletionRun(s, n, vmis, s', vmiOk, ok)
    ensures s'.bindings.Keys <= s.bindings.Keys
  {
  }

  lemma ConnectSurvives(differs: Differ, s: State, c: string, s': State)
    requires ClusterConnected(differs, s, c, s') && Labelled(s.cloud)
    ensures Survives(s.cloud, s'.cloud) && s'.bindings == s.bindings
  {
    hide Provisioned, AllWanted, InfrastructureLabels;
    if s' != s && !Failed(s.cloud, s'.cloud) {
      var before := s.cloud.(connected := s.cloud.connected + {c});
      var ok :| Provisioned(differs, before, s'.cloud, AllWanted(SystemPair(c)), ok);
      ProvisionedKeepsLabels(differs, before, s'.cloud, SystemPair(c), ok);
      forall at | at in before.objects ensures at in s'.cloud.objects {
        ProvisionedSpares(differs, before, s'.cloud, AllWanted(SystemPair(c)), ok, at);
      }
    }
  }

  /**
   Survival over all runs: from a reachable state in which the infrastructure carries the operator's
   labels and no binding is named "system", no run of events for other bindings removes any of it.
   */
  lemma {:induction false} RunSurvival(differs: Differ, states: seq<State>, events: seq<Event>)
    requires Run(differs, states, events) && Inv(states[0]) && Labelled(states[0].cloud)
    requires SYSTEM_BINDING !in states[0].bindings && forall e | e in events :: !Concerns(e, SYSTEM_BINDING)
    ensures Inv(states[|events|]) && Survives(states[0].cloud, states[|events|].cloud)
    ensures SYSTEM_BINDING !in states[|events|].bindings
  {
    hide Step, Inv, Labelled, Infrastructure;
    var k := |events|;
    if k > 0 {
      RunSurvival(differs, states[..k], events[..k - 1]);
      assert Step(differs, states[k - 1], events[k - 1], states[k]);
      StepSurvives(differs, states[k - 1], events[k - 1], states[k]);
      StepKeepsInv(differs, states[k - 1], events[k - 1], states[k]);
    }
  }
}

/** The passes of the managed package: loops over clusters that create, clean up and delete. */
module Managed {
  import opened Labels
  import opened Clouds
  import opened Types
  import opened Connections
  import opened Passes
  import opened Fleets

  // ---------- create ----------

  /** The namespaces of one cluster; the second label assignment never changes anything. */
  method NewNamespaces(binding: string, mc: ManagedCluster, c: string) returns (namespaces: seq<Desired>)
    ensures namespaces == seq(|mc.namespaces|, i requires 0 <= i < |mc.namespaces| =>
                                DesiredNamespace(binding, mc, c, mc.namespaces[i]))
  {
    namespaces := [];
    for i := 0 to |mc.namespaces|
      invariant |namespaces| == i
      invariant forall j | 0 <= j < i :: namespaces[j] == DesiredNamespace(binding, mc, c, mc.namespaces[j])
    {
      var name := mc.namespaces[i];
      var labels := ManagedBindingLabels(binding, mc.name);
      if name == VERRAZZANO_SYSTEM {
        labels := ManagedLabelsNoBinding(mc.name);
      }
      if name != VERRAZZANO_SYSTEM && name != MONITORING {
        labels := labels[ISTIO := ENABLED];
      }
      assert labels == NamespaceLabels(binding, mc.name, name);
      var at := Address(Site.Managed(c), Namespace, "", name);
      namespaces := namespaces + [Desired(at, Resource(labels, NAMESPACE_CONTENT))];
    }
  }

  /** Create or update the desired objects one by one, stopping at the first error. */
  method UpsertAll(fleet: Fleet, c: string, desired: seq<Desired>) returns (ok: bool)
    requires fleet.Valid() && c in fleet.held && c in fleet.connected
    requires forall d | d in desired :: d.at.site == Site.Managed(c)
    modifies fleet`objects, fleet`writes, fleet`failures
    ensures Provisioned(fleet.differs, old(fleet.View()), fleet.View(), (set d | d in desired), ok)
  {
    hide Provisioned;
    ghost var start := fleet.View();
    ghost var done: set<Desired> := {};
    ok := true;
    ProvisionedNothing(fleet.differs, start);
    var i := 0;
    while i < |desired| && ok
      invariant 0 <= i <= |desired|
      invariant fleet.connected == old(fleet.connected)
      invariant done == set d | d in desired[..i]
      invariant Provisioned(fleet.differs, start, fleet.View(), done, ok)
    {
      ghost var before := fleet.View();
      ok := fleet.Upsert(desired[i]);
      ProvisionedThen(fleet.differs, start, before, fleet.View(), done, {desired[i]}, true, ok);
      done := done + {desired[i]};
      i := i + 1;
    }
    assert desired[..|desired|] == desired;
    if !ok {
      ProvisionedStopped(fleet.differs, start, fleet.View(), done, (set d | d in desired));
    }
  }

  lemma WantedNothing(pair: Pair, kind: Kind)
    ensures WantedOn(pair, kind, {}) == {}
  {
  }

  lemma WantedMonotone(pair: Pair, kind: Kind, done: set<string>)
    requires done <= pair.clusters.Keys
    ensures WantedOn(pair, kind, done) <= WantedOf(pair, kind)
  {
  }

  /** The objects one cluster shall have, built as the pass of that kind does. */
  method WantedObjects(pair: Pair, kind: Kind, c: string) returns (desired: seq<Desired>)
    requires c in pair.clusters
    ensures desired == Wanted(pair, kind, c)
  {
    if kind == Namespace {
      desired := NewNamespaces(pair.binding.name, pair.clusters[c], c);
    } else {
      desired := Wanted(pair, kind, c);
    }
    assert desired == Wanted(pair, kind, c);
  }

  lemma WantedStep(pair: Pair, kind: Kind, done: set<string>, c: string)
    requires c in pair.clusters
    ensures WantedOn(pair, kind, done + {c}) == WantedOn(pair, kind, done) + (set d | d in Wanted(pair, kind, c))
    ensures forall d | d in Wanted(pair, kind, c) :: d.at.site == Site.Managed(c) && d.at.kind == kind
  {
  }

  /**
   CreateNamespaces, CreateServiceAccounts, CreateConfigMaps, CreateClusterRoles, CreateClusterRoleBindings,
   CreateDeployments, CreateServices and CreateDaemonSets:
   they differ in the kind and in what they want. A cluster of the pair without a connection would be a
   nil connection here.
   */
  method Create(fleet: Fleet, pair: Pair, kind: Kind) returns (ok: bool)
    requires fleet.Valid() && fleet.held == {}
    requires WellKeyed(pair) && AllConnected(pair, fleet.connected)
    modifies fleet
    ensures fleet.held == {} && fleet.connected == old(fleet.connected)
    ensures Provisioned(fleet.differs, old(fleet.View()), fleet.View(), WantedOf(pair, kind), ok)
  {
    hide Provisioned, Wanted, WantedOn;
    ghost var start := fleet.View();
    ghost var done: set<string> := {};
    var deferred: seq<string> := [];
    var todo := pair.clusters.Keys;
    ok := true;
    ProvisionedNothing(fleet.differs, start);
    WantedNothing(pair, kind);
    while todo != {} && ok
      invariant todo !! done && todo + done == pair.clusters.Keys
      invariant ok ==> fleet.held == done
      invariant fleet.Holds(deferred)
      invariant fleet.connected == old(fleet.connected)
      invariant Provisioned(fleet.differs, start, fleet.View(), WantedOn(pair, kind, done), ok)
      decreases todo, ok
    {
      var c :| c in todo;
      todo := todo - {c};
      deferred := fleet.RLock(c, deferred);
      ghost var before := fleet.View();
      var desired := WantedObjects(pair, kind, c);
      WantedStep(pair, kind, done, c);
      ok := UpsertAll(fleet, c, desired);
      ghost var ds := WantedOn(pair, kind, done);
      ProvisionedThen(fleet.differs, start, before, fleet.View(), ds, (set d | d in desired), true, ok);
      done := done + {c};
    }
    if !ok {
      WantedMonotone(pair, kind, done);
      ProvisionedStopped(fleet.differs, start, fleet.View(), WantedOn(pair, kind, done), WantedOf(pair, kind));
    }
    fleet.RunDeferred(deferred);
  }

  // ---------- clean up and delete ----------

  ghost function ListingsOn(clusters: set<string>, listing: string --> Listing): set<Listing>
    requires forall c | c in clusters :: listing.requires(c)
  {
    set c | c in clusters :: listing(c)
  }

  lemma ListingsNothing(listing: string --> Listing)
    ensures ListingsOn({}, listing) == {}
  {
  }

  lemma ListingsStep(clusters: set<string>, listing: string --> Listing, c: string)
    requires forall d | d in clusters + {c} :: listing.requires(d)
    ensures ListingsOn(clusters + {c}, listing) == ListingsOn(clusters, listing) + {listing(c)}
  {
  }

  lemma ListingsMonotone(done: set<string>, clusters: set<string>, listing: string --> Listing)
    requires done <= clusters && forall c | c in clusters :: listing.requires(c)
    ensures ListingsOn(done, listing) <= ListingsOn(clusters, listing)
  {
  }

  /**
   The loop all deleting passes share: over some clusters, in any order, read-lock the connection, list,
   delete; stop at the first error. The locks stay with the caller.
   */
  method DeleteOn(fleet: Fleet, clusters: set<string>, listing: string --> Listing, wait: bool, deferred: seq<string>)
    returns (ok: bool, deferred': seq<string>)
    requires clusters <= fleet.connected && clusters !! fleet.held && fleet.Holds(deferred)
    requires forall c | c in clusters :: listing.requires(c) && listing(c).site == Site.Managed(c)
    modifies fleet
    ensures fleet.connected == old(fleet.connected)
    ensures fleet.Holds(deferred') && fleet.held <= old(fleet.held) + clusters
    ensures Swept(old(fleet.View()), fleet.View(), ListingsOn(clusters, listing), ok)
  {
    hide Swept, ListingsOn;
    ghost var start := fleet.View();
    ghost var done: set<string> := {};
    var todo := clusters;
    ok, deferred' := true, deferred;
    SweptNothing(start);
    ListingsNothing(listing);
    while todo != {} && ok
      invariant todo !! done && todo + done == clusters
      invariant fleet.held == old(fleet.held) + done && fleet.Holds(deferred')
      invariant fleet.connected == old(fleet.connected)
      invariant Swept(start, fleet.View(), ListingsOn(done, listing), ok)
      decreases todo, ok
    {
      var c :| c in todo;
      todo := todo - {c};
      deferred' := fleet.RLock(c, deferred');
      ghost var before := fleet.View();
      ok := fleet.DeleteListed(listing(c), wait);
      SweptThen(start, before, fleet.View(), ListingsOn(done, listing), {listing(c)}, true, ok);
      ListingsStep(done, listing, c);
      done := done + {c};
    }
    if !ok {
      ListingsMonotone(done, clusters, listing);
      SweptStopped(start, fleet.View(), ListingsOn(done, listing), ListingsOn(clusters, listing));
    }
  }

  method ExpectedWorkloads(pair: Pair, kind: Kind, c: string) returns (names: seq<string>)
    requires c in pair.clusters && (kind == Service || kind == Deployment)
    ensures names == ExpectedNames(pair, kind, c)
  {
    var ws := if kind == Service then pair.clusters[c].services else pair.clusters[c].deployments;
    names := [];
    for i := 0 to |ws|
      invariant names == Names(ws)[..i]
    {
      names := names + [ws[i].name];
    }
  }

  /** The expected names of each cluster. */
  method ExpectedOn(pair: Pair, kind: Kind, clusters: set<string>) returns (expected: map<string, seq<string>>)
    requires clusters <= pair.clusters.Keys && (kind == Service || kind == Deployment)
    ensures expected == map c | c in clusters :: ExpectedNames(pair, kind, c)
  {
    hide ExpectedNames;
    expected := map[];
    var todo := clusters;
    while todo != {}
      invariant todo <= clusters
      invariant expected == map c | c in clusters - todo :: ExpectedNames(pair, kind, c)
    {
      var c :| c in todo;
      todo := todo - {c};
      var names := ExpectedWorkloads(pair, kind, c);
      expected := expected[c := names];
    }
    assert clusters - todo == clusters;
  }

  /** CleanupOrphanedServices and CleanupOrphanedDeployments. */
  method CleanupOrphanedWorkloads(fleet: Fleet, pair: Pair, kind: Kind) returns (ok: bool)
    requires fleet.held == {} && WellKeyed(pair) && (kind == Service || kind == Deployment)
    modifies fleet
    ensures fleet.held == {} && fleet.connected == old(fleet.connected)
    ensures Swept(old(fleet.View()), fleet.View(), OrphanedWorkloads(pair, kind, fleet.connected), ok)
  {
    hide Swept, ExpectedNames;
    ghost var start := fleet.View();
    SweptNothing(start);
    Partition(pair, fleet.connected);
    var matched := ManagedClustersFor(pair, fleet.connected);
    if matched.None? {
      return true;
    }
    var deferred: seq<string>;
    var names := ExpectedOn(pair, kind, matched.value);
    var expected := c requires c in names => OwnListing(pair, kind, c, names[c]);
    ok, deferred := DeleteOn(fleet, matched.value, expected, false, []);
    assert ListingsOn(matched.value, expected) == MatchedOrphans(pair, kind);
    if ok {
      ghost var middle := fleet.View();
      var unmatched := ManagedClustersNotFor(pair, fleet.connected);
      var rest := c => OwnListing(pair, kind, c, []);
      ok, deferred := DeleteOn(fleet, unmatched, rest, false, deferred);
      assert ListingsOn(unmatched, rest) == UnmatchedOrphans(pair, kind, fleet.connected, []);
      SweptThen(start, middle, fleet.View(), MatchedOrphans(pair, kind),
          UnmatchedOrphans(pair, kind, fleet.connected, []), true, ok);
    } else {
      SweptStopped(start, fleet.View(), MatchedOrphans(pair, kind), OrphanedWorkloads(pair, kind, fleet.connected));
    }
    fleet.RunDeferred(deferred);
  }

  /**
   CleanupOrphanedClusterRoles, CleanupOrphanedClusterRoleBindings and CleanupOrphanedConfigMaps: only clusters the
   pair does not use.
   */
  method CleanupOrphanedUnmatched(fleet: Fleet, pair: Pair, kind: Kind) returns (ok: bool)
    requires fleet.held == {} && WellKeyed(pair)
    modifies fleet
    ensures fleet.held == {} && fleet.connected == old(fleet.connected)
    ensures Swept(old(fleet.View()), fleet.View(), UnmatchedOrphans(pair, kind, fleet.connected, []), ok)
  {
    hide Swept;
    Partition(pair, fleet.connected);
    var unmatched := ManagedClustersNotFor(pair, fleet.connected);
    var deferred: seq<string>;
    var rest := c => OwnListing(pair, kind, c, []);
    ok, deferred := DeleteOn(fleet, unmatched, rest, false, []);
    assert ListingsOn(unmatched, rest) == UnmatchedOrphans(pair, kind, fleet.connected, []);
    fleet.RunDeferred(deferred);
  }

  /** DeleteServices and DeleteDeployments, on the connections filtered by the caller (none if it failed). */
  method DeleteWorkloads(fleet: Fleet, pair: Pair, kind: Kind, filtered: set<string>) returns (ok: bool)
    requires fleet.held == {} && filtered <= fleet.connected
    modifies fleet
    ensures fleet.held == {} && fleet.connected == old(fleet.connected)
    ensures Swept(old(fleet.View()), fleet.View(), DeletedWorkloadsOn(pair, kind, filtered), ok)
  {
    hide Swept;
    ghost var start := fleet.View();
    var deferred: seq<string>;
    var bound := c => Listing(Site.Managed(c), kind, ManagedBindingLabels(pair.binding.name, c), []);
    ok, deferred := DeleteOn(fleet, filtered, bound, false, []);
    assert ListingsOn(filtered, bound) == DeletedWorkloadsOn(pair, kind, filtered);
    fleet.RunDeferred(deferred);
  }

  /**
   DeleteClusterRoleBindings, DeleteClusterRoles and DeleteNamespaces; only the last waits for each
   deleted object to disappear. Nothing is deleted, and no error returned, if a cluster of the pair
   is not connected.
   */
  method DeleteClusterWide(fleet: Fleet, pair: Pair, kind: Kind, bindingLabel: bool) returns (ok: bool)
    requires fleet.held == {} && WellKeyed(pair)
    modifies fleet
    ensures fleet.held == {} && fleet.connected == old(fleet.connected)
    ensures Swept(old(fleet.View()), fleet.View(),
              IfConnected(pair, fleet.connected, DeletedClusterWide(pair, kind, bindingLabel)), ok)
  {
    hide Swept;
    SweptNothing(fleet.View());
    Partition(pair, fleet.connected);
    var matched := ManagedClustersFor(pair, fleet.connected);
    if matched.None? {
      return true;
    }
    var deferred: seq<string>;
    var selected := c => ClusterWideListing(pair, kind, c, bindingLabel);
    ok, deferred := DeleteOn(fleet, matched.value, selected, kind == Namespace, []);
    assert ListingsOn(matched.value, selected) == DeletedClusterWide(pair, kind, bindingLabel);
    fleet.RunDeferred(deferred);
  }

  /** DeleteVmi, DeleteSecrets and DeleteConfigMaps in the management cluster. */
  method DeleteLocal(fleet: Fleet, kind: Kind, binding: string) returns (ok: bool)
    modifies fleet`objects, fleet`writes, fleet`failures
    ensures Swept(old(fleet.View()), fleet.View(), {LocalListing(kind, binding)}, ok)
  {
    hide Swept;
    ok := fleet.DeleteListed(LocalListing(kind, binding), false);
  }

  /** The loop of CleanupOrphanedNamespaces over the pair's own clusters. */
  method CleanupMatchedNamespaces(fleet: Fleet, pair: Pair, matched: set<string>)
    returns (ok: bool, deferred: seq<string>)
    requires fleet.held == {} && matched == pair.clusters.Keys && matched <= fleet.connected
    modifies fleet
    ensures fleet.connected == old(fleet.connected)
    ensures fleet.Holds(deferred) && fleet.held <= matched
    ensures Swept(old(fleet.View()), fleet.View(), MatchedNamespaces(pair), ok)
  {
    hide Swept;
    ghost var start := fleet.View();
    ghost var done: set<string> := {};
    ghost var ls: set<Listing> := {};
    var todo := pair.clusters.Keys;
    ok, deferred := true, [];
    SweptNothing(start);
    while todo != {} && ok
      invariant todo !! done && todo + done == pair.clusters.Keys
      invariant fleet.held == done && fleet.Holds(deferred)
      invariant fleet.connected == old(fleet.connected)
      invariant ls == set c | c in done && pair.clusters[c].namespaces != [] ::
                        OwnListing(pair, Namespace, c, ExpectedNames(pair, Namespace, c))
      invariant Swept(start, fleet.View(), ls, ok)
      decreases todo, ok
    {
      var c :| c in todo;
      todo := todo - {c};
      deferred := fleet.RLock(c, deferred);
      done := done + {c};
      if pair.clusters[c].namespaces != [] {
        var l := OwnListing(pair, Namespace, c, pair.clusters[c].namespaces);
        ghost var before := fleet.View();
        ok := fleet.DeleteListed(l, false);
        SweptThen(start, before, fleet.View(), ls, {l}, true, ok);
        ls := ls + {l};
      }
    }
    if !ok {
      SweptStopped(start, fleet.View(), ls, MatchedNamespaces(pair));
    } else {
      assert done == pair.clusters.Keys && ls == MatchedNamespaces(pair);
    }
  }

  /** First the binding's own namespaces, then the shared ones if no pair uses the cluster. */
  method CleanupUnmatchedNamespaces(fleet: Fleet, pair: Pair, pairs: map<string, Pair>, c: string)
    returns (ok: bool, ghost ls: set<Listing>)
    requires c in fleet.held && c in fleet.connected
    modifies fleet`objects, fleet`writes, fleet`failures
    ensures ls == {OwnListing(pair, Namespace, c, [MONITORING])}
                  + (if ClusterInBinding(c, pairs) then {} else {SharedListing(Namespace, c, KEPT_NAMESPACES)})
    ensures Swept(old(fleet.View()), fleet.View(), ls, ok)
  {
    hide Swept;
    ghost var start := fleet.View();
    var own := OwnListing(pair, Namespace, c, [MONITORING]);
    var shared := SharedListing(Namespace, c, KEPT_NAMESPACES);
    ls := {own} + (if ClusterInBinding(c, pairs) then {} else {shared});
    ok := fleet.DeleteListed(own, true);
    if !ok {
      SweptStopped(start, fleet.View(), {own}, ls);
      return;
    }
    var used := IsClusterInBinding(c, pairs);
    if used {
      assert ls == {own};
    } else {
      ghost var middle := fleet.View();
      ok := fleet.DeleteListed(shared, true);
      SweptThen(start, middle, fleet.View(), {own}, {shared}, true, ok);
    }
  }

  ghost function UnmatchedNamespaces(pair: Pair, pairs: map<string, Pair>, clusters: set<string>): set<Listing> {
    (set c | c in clusters :: OwnListing(pair, Namespace, c, [MONITORING]))
    + (set c | c in clusters && !ClusterInBinding(c, pairs) :: SharedListing(Namespace, c, KEPT_NAMESPACES))
  }

  lemma UnmatchedNamespacesNone(pair: Pair, pairs: map<string, Pair>)
    ensures UnmatchedNamespaces(pair, pairs, {}) == {}
  {
  }

  lemma UnmatchedNamespacesStep(pair: Pair, pairs: map<string, Pair>, done: set<string>, c: string)
    ensures UnmatchedNamespaces(pair, pairs, done + {c}) == UnmatchedNamespaces(pair, pairs, done)
              + ({OwnListing(pair, Namespace, c, [MONITORING])}
                 + (if ClusterInBinding(c, pairs) then {} else {SharedListing(Namespace, c, KEPT_NAMESPACES)}))
  {
  }

  lemma OrphanedNamespacesParts(pair: Pair, pairs: map<string, Pair>, connected: set<string>)
    requires AllConnected(pair, connected)
    ensures OrphanedNamespaces(pair, pairs, connected)
         == MatchedNamespaces(pair) + UnmatchedNamespaces(pair, pairs, connected - pair.clusters.Keys)
    ensures forall done | done <= connected - pair.clusters.Keys ::
              UnmatchedNamespaces(pair, pairs, done) <= UnmatchedNamespaces(pair, pairs, connected - pair.clusters.Keys)
  {
  }

  method CleanupOrphanedNamespaces(fleet: Fleet, pair: Pair, pairs: map<string, Pair>) returns (ok: bool)
    requires fleet.held == {} && WellKeyed(pair)
    modifies fleet
    ensures fleet.held == {} && fleet.connected == old(fleet.connected)
    ensures Swept(old(fleet.View()), fleet.View(), OrphanedNamespaces(pair, pairs, fleet.connected), ok)
  {
    hide Swept, UnmatchedNamespaces, OrphanedNamespaces, MatchedNamespaces;
    ghost var start := fleet.View();
    SweptNothing(start);
    Partition(pair, fleet.connected);
    var matched := ManagedClustersFor(pair, fleet.connected);
    if matched.None? {
      NoOrphanedNamespaces(pair, pairs, fleet.connected);
      return true;
    }
    OrphanedNamespacesParts(pair, pairs, fleet.connected);
    var deferred: seq<string>;
    ok, deferred := CleanupMatchedNamespaces(fleet, pair, matched.value);
    ghost var own := MatchedNamespaces(pair);
    ghost var done: set<string> := {};
    var unmatched := {};
    if ok {
      unmatched := ManagedClustersNotFor(pair, fleet.connected);
    }
    var todo := unmatched;
    UnmatchedNamespacesNone(pair, pairs);
    assert own + {} == own;
    while todo != {} && ok
      invariant todo !! done && todo + done == unmatched
      invariant fleet.held <= matched.value + done && fleet.Holds(deferred)
      invariant fleet.connected == old(fleet.connected)
      invariant Swept(start, fleet.View(), own + UnmatchedNamespaces(pair, pairs, done), ok)
      decreases todo, ok
    {
      var c :| c in todo;
      todo := todo - {c};
      deferred := fleet.RLock(c, deferred);
      ghost var before := fleet.View();
      ghost var ls;
      ok, ls := CleanupUnmatchedNamespaces(fleet, pair, pairs, c);
      SweptThen(start, before, fleet.View(), own + UnmatchedNamespaces(pair, pairs, done), ls, true, ok);
      UnmatchedNamespacesStep(pair, pairs, done, c);
      assert own + UnmatchedNamespaces(pair, pairs, done) + ls == own + UnmatchedNamespaces(pair, pairs, done + {c});
      done := done + {c};
    }
    if !ok {
      SweptStopped(start, fleet.View(), own + UnmatchedNamespaces(pair, pairs, done),
          OrphanedNamespaces(pair, pairs, fleet.connected));
    }
    fleet.RunDeferred(deferred);
  }

  lemma NoOrphanedNamespaces(pair: Pair, pairs: map<string, Pair>, connected: set<string>)
    requires !AllConnected(pair, connected)
    ensures OrphanedNamespaces(pair, pairs, connected) == {}
  {
  }
}

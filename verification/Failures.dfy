/** What failing calls cost: an error in one pass of a sync never stops the next, so each costs at most one pass. */
module Failures {
  import opened Labels
  import opened Clouds
  import opened Types
  import opened Passes
  import opened Reference
  import opened Location
  import opened Machine
  import opened Isolation
  import opened Convergence
  import opened Syncs

  /** The kind each clean-up pass is about; three have no body and are about no kind of the model. */
  const CLEANUP_KINDS: seq<Kind> :=
    [Vmi, Service, Deployment, Vmi, Vmi, ClusterRoleBinding, ClusterRole, ConfigMap, Namespace]

  function KindsOf(kinds: seq<Kind>, failed: set<nat>): set<Kind> {
    set i | i in failed && i < |kinds| :: kinds[i]
  }

  lemma {:induction false} FewerKinds(kinds: seq<Kind>, failed: set<nat>)
    ensures |KindsOf(kinds, failed)| <= |failed|
  {
    if i :| i in failed {
      var rest := failed - {i};
      FewerKinds(kinds, rest);
      var one := if i < |kinds| then {kinds[i]} else {};
      assert failed == rest + {i};
      assert KindsOf(kinds, failed) == KindsOf(kinds, rest) + one;
    } else {
      assert KindsOf(kinds, failed) == {};
    }
  }

  /** Only the kinds of failed creating passes may lack something. */
  lemma CreatedKinds(differs: Differ, a: Cloud, b: Cloud, pair: Pair, failed: set<nat>) returns (missed: set<Kind>)
    requires ProvisionedEach(differs, a, b, CreatePasses(pair), failed) && Distinct(AllWanted(pair))
    ensures a.failures + |missed| <= b.failures && b.connected == a.connected
    ensures forall d | d in AllWanted(pair) && d.at.kind !in missed :: SettledAt(differs, b, d)
  {
    hide AllWanted, ProvisionedEach, WantedOf;
    var ps := CreatePasses(pair);
    AllCreatePasses(pair);
    assert AllDistinct(ps) by {
      assert forall i, d | 0 <= i < |ps| && d in ps[i] :: d in AllDesired(ps);
    }
    EachSettles(differs, a, b, ps, failed);
    missed := KindsOf(CREATE_KINDS, failed);
    FewerKinds(CREATE_KINDS, failed);
    forall d | d in AllWanted(pair) && d.at.kind !in missed ensures SettledAt(differs, b, d) {
      var i :| 0 <= i < |ps| && d in ps[i];
      WantedOfKind(pair, CREATE_KINDS[i], d);
      assert Settled(differs, b, ps[i]);
    }
  }

  lemma WantedOfKind(pair: Pair, kind: Kind, d: Desired)
    requires d in WantedOf(pair, kind)
    ensures d.at.kind == kind
  {
    hide Wanted;
    var c :| c in pair.clusters && d in Wanted(pair, kind, c);
    WantedAt(pair, kind, c, d);
  }

  /** Only the kinds of failed clean-up passes may have orphans left. */
  lemma CleanedKinds(a: Cloud, b: Cloud, pair: Pair, pairs: map<string, Pair>, connected: set<string>,
                     failed: set<nat>) returns (dirty: set<Kind>)
    requires SweptEach(a, b, CleanupPasses(pair, pairs, connected), failed)
    ensures a.failures + |dirty| <= b.failures
    ensures forall at | at in b.objects && at.kind !in dirty ::
              !Doomed(Orphans(pair, pairs, connected), at, b.objects[at])
  {
    var ps := CleanupPasses(pair, pairs, connected);
    assert |ps| == 9;
    hide SweptEach, Orphans, CleanupPasses, AllOf, Hits;
    AllCleanupPasses(pair, pairs, connected);
    EachSwept(a, b, ps, failed);
    EachIdles(a, b, ps, failed);
    dirty := KindsOf(CLEANUP_KINDS, failed);
    FewerKinds(CLEANUP_KINDS, failed);
    forall at | at in b.objects && at.kind !in dirty
      ensures !Doomed(Orphans(pair, pairs, connected), at, b.objects[at])
    {
      forall l | l in AllOf(ps) ensures !Hits(l, at, b.objects[at]) {
        NotLeft(b, pair, pairs, connected, failed, l, at);
      }
    }
  }

  lemma NotLeft(b: Cloud, pair: Pair, pairs: map<string, Pair>, connected: set<string>, failed: set<nat>, l: Listing,
                at: Address)
    requires l in AllOf(CleanupPasses(pair, pairs, connected)) && at in b.objects
    requires forall i | 0 <= i < 9 && i !in failed :: Idle(b, CleanupPasses(pair, pairs, connected)[i])
    requires at.kind !in KindsOf(CLEANUP_KINDS, failed)
    ensures !Hits(l, at, b.objects[at])
  {
    if Hits(l, at, b.objects[at]) {
      var i := PassOfOrphan(pair, pairs, connected, l, at, b.objects[at]);
      hide *;
    }
  }

  lemma PassOfOrphan(pair: Pair, pairs: map<string, Pair>, connected: set<string>, l: Listing, at: Address,
                     o: Resource) returns (i: nat)
    requires l in AllOf(CleanupPasses(pair, pairs, connected)) && Hits(l, at, o)
    ensures i < 9 && |CleanupPasses(pair, pairs, connected)| == 9 && CLEANUP_KINDS[i] == at.kind
    ensures l in CleanupPasses(pair, pairs, connected)[i]
  {
    hide OrphanedWorkloads, UnmatchedOrphans, OrphanedNamespaces, Matches, ExpectedNames, ClusterInBinding;
    var ps := CleanupPasses(pair, pairs, connected);
    i :| 0 <= i < |ps| && l in ps[i];
    if i == 1 || i == 2 {
      WorkloadListing(pair, CLEANUP_KINDS[i], connected, l);
    } else if i == 8 {
      NamespaceKind(pair, pairs, connected, l);
    } else {
      UnmatchedListing(pair, CLEANUP_KINDS[i], connected, [], l);
    }
  }

  lemma NamespaceKind(pair: Pair, pairs: map<string, Pair>, connected: set<string>, l: Listing)
    requires l in OrphanedNamespaces(pair, pairs, connected)
    ensures l.kind == Namespace
  {
    hide ClusterInBinding, ExpectedNames;
  }

  /**
   Errors do not spread. A syncing add event either waits in vain for the clusters and leaves them alone, or runs all
   passes: then everything the pair asks for is up to date but for some kinds, and nothing orphaned is left but for some
   kinds, and there are at most as many such kinds as calls failed.
   */
  lemma FailuresCostPasses(differs: Differ, s: State, b: SyntheticBinding, s': State)
    returns (missed: set<Kind>, dirty: set<Kind>)
    requires Inv(s) && Step(differs, s, AddBinding(b), s') && Syncing(s, b) && b.name != SYSTEM_BINDING
    ensures b.name in s'.pairs
    ensures var pair := s'.pairs[b.name];
            || Failed(s.cloud, s'.cloud)
            || (&& |missed| + |dirty| <= s'.cloud.failures - s.cloud.failures
                && (forall d | Asked(pair, d) && d.at.kind !in missed :: SettledAt(differs, s'.cloud, d))
                && forall at | at in s'.cloud.objects && at.kind !in dirty ::
                     !Orphaned(pair, s'.pairs, s.cloud.connected, at, s'.cloud.objects[at]))
  {
    hide Inv, PairOf, Throttled, Recorded, Reconciled;
    var t := Paired(Recorded(s, b), b);
    RecordedKeepsInv(s, b);
    RecordedKeeps(s, b);
    PairedKeepsInv(Recorded(s, b), b);
    ReconciledKeepsMaps(differs, t, b.name, s');
    hide *;
    missed, dirty := SyncCost(differs, t, b.name, s');
  }

  lemma SyncCost(differs: Differ, s: State, n: string, s': State) returns (missed: set<Kind>, dirty: set<Kind>)
    requires Inv(s) && n in s.pairs && n != SYSTEM_BINDING && Reconciled(differs, s, n, s')
    ensures var pair := s.pairs[n];
            || Failed(s.cloud, s'.cloud)
            || (&& |missed| + |dirty| <= s'.cloud.failures - s.cloud.failures
                && (forall d | Asked(pair, d) && d.at.kind !in missed :: SettledAt(differs, s'.cloud, d))
                && forall at | at in s'.cloud.objects && at.kind !in dirty ::
                     !Orphaned(pair, s.pairs, s.cloud.connected, at, s'.cloud.objects[at]))
  {
    var pair := s.pairs[n];
    InvWellKeyed(s, n);
    BuiltPairsDistinct(s, n);
    WantedDistinct(pair);
    missed, dirty := {}, {};
    hide Inv, AllWanted, Orphans, Asked, Orphaned, Distinct, WellKeyed, ProvisionedEach, SweptEach, Provisioned, Swept;
    if !Failed(s.cloud, s'.cloud) {
      var local, made, okMade, ok :| && Synced(differs, s.cloud, local, made, s'.cloud, pair, s.pairs, okMade, ok)
                                     && EachPassRan(differs, local, made, s'.cloud, pair, s.pairs);
      var unmade :| ProvisionedEach(differs, local, made, CreatePasses(pair), unmade);
      var uncleaned :| SweptEach(made, s'.cloud, CleanupPasses(pair, s.pairs, local.connected), uncleaned);
      missed := CreatedKinds(differs, local, made, pair, unmade);
      dirty := CleanedKinds(made, s'.cloud, pair, s.pairs, local.connected, uncleaned);
      forall d | Asked(pair, d) && d.at.kind !in missed ensures SettledAt(differs, s'.cloud, d) {
        WantedIffAsked(pair, d);
        assert SettledAt(differs, made, d);
        OrphansSpareWanted(pair, s.pairs, s.cloud.connected, d, made.objects[d.at]);
        StaysSettled(differs, made, s'.cloud, Orphans(pair, s.pairs, s.cloud.connected), ok, d);
      }
      forall at | at in s'.cloud.objects && at.kind !in dirty
        ensures !Orphaned(pair, s.pairs, s.cloud.connected, at, s'.cloud.objects[at])
      {
        OrphanedIffDoomed(pair, s.pairs, s.cloud.connected, at, s'.cloud.objects[at]);
      }
    }
  }

  lemma StaysSettled(differs: Differ, a: Cloud, b: Cloud, ls: set<Listing>, ok: bool, d: Desired)
    requires Swept(a, b, ls, ok) && SettledAt(differs, a, d) && !Doomed(ls, d.at, a.objects[d.at])
    ensures SettledAt(differs, b, d)
  {
  }

  /** The same for the node exporter on a newly connected cluster. */
  lemma ConnectCost(differs: Differ, s: State, c: string, s': State) returns (missed: set<Kind>)
    requires Step(differs, s, Connect(c), s') && c !in s.cloud.connected
    ensures || Failed(s.cloud, s'.cloud)
            || (&& c in s'.cloud.connected && |missed| <= s'.cloud.failures - s.cloud.failures
                && forall d | Asked(SystemPair(c), d) && d.at.kind !in missed :: SettledAt(differs, s'.cloud, d))
  {
    WantedDistinct(SystemPair(c));
    assert WellKeyed(SystemPair(c));
    missed := {};
    hide AllWanted, Asked, Distinct, WellKeyed, ProvisionedEach, Provisioned, SystemPair, CreatePasses;
    if !Failed(s.cloud, s'.cloud) {
      var before := s.cloud.(connected := s.cloud.connected + {c});
      var failed :| ProvisionedEach(differs, before, s'.cloud, CreatePasses(SystemPair(c)), failed);
      missed := CreatedKinds(differs, before, s'.cloud, SystemPair(c), failed);
      forall d | Asked(SystemPair(c), d) && d.at.kind !in missed ensures SettledAt(differs, s'.cloud, d) {
        WantedIffAsked(SystemPair(c), d);
      }
    }
  }
}

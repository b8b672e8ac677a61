/**
 Convergence and quiescence of the controller's events: what a binding's add events leave behind when no call
 fails, and what repeating them does.
 */
module Syncs {
  import opened Labels
  import opened Clouds
  import opened Types
  import opened Passes
  import opened Location
  import opened Fleets
  import opened Machine
  import opened Isolation
  import opened Convergence
  import opened Survival
  import opened Throttle

  /** All clusters are connected, everything the pair wants is there and up to date, and it has no orphans. */
  ghost predicate Clean(differs: Differ, s: State, n: string) {
    && n in s.pairs && AllConnected(s.pairs[n], s.cloud.connected)
    && Settled(differs, s.cloud, AllWanted(s.pairs[n]))
    && Idle(s.cloud, Orphans(s.pairs[n], s.pairs, s.cloud.connected))
  }

  /** The event gets past the throttle and finds, or makes, a pair. */
  predicate Syncing(s: State, b: SyntheticBinding) {
    !b.deleting && !Throttled(s, b) && (b.name in s.pairs || b.modelName in s.models)
  }

  /** If no call fails during a sync, both its halves were free of errors. */
  lemma ErrorFreeSync(differs: Differ, s: State, n: string, s': State)
    requires n in s.pairs && Reconciled(differs, s, n, s') && s'.cloud.failures == s.cloud.failures
    ensures AllConnected(s.pairs[n], s.cloud.connected)
    ensures exists local, made :: Synced(differs, s.cloud, local, made, s'.cloud, s.pairs[n], s.pairs, true, true)
  {
    hide AllWanted, Orphans, Idle, Settled, WrittenFor;
    var local, made, okMade, ok :| Synced(differs, s.cloud, local, made, s'.cloud, s.pairs[n], s.pairs, okMade, ok);
    assert okMade && ok;
  }

  /** An error-free sync of a pair the controller built. */
  lemma SyncConverges(differs: Differ, s: State, n: string, s': State)
    requires Inv(s) && n in s.pairs && n != SYSTEM_BINDING
    requires Reconciled(differs, s, n, s') && s'.cloud.failures == s.cloud.failures
    ensures s'.pairs == s.pairs && Agrees(differs, s.pairs[n], s'.cloud) && Clean(differs, s', n)
  {
    InvWellKeyed(s, n);
    BuiltPairsDistinct(s, n);
    ReconciledKeepsMaps(differs, s, n, s');
    ErrorFreeSync(differs, s, n, s');
    hide Inv, Agrees, Reconciled, Synced, Settled, Idle, AllConnected, AllWanted, Orphans, Convergence.DistinctKeys,
    WellKeyed;
    var local, made :| Synced(differs, s.cloud, local, made, s'.cloud, s.pairs[n], s.pairs, true, true);
    SyncSettles(differs, s.cloud, local, made, s'.cloud, s.pairs[n], s.pairs);
    Convergence.Convergence(differs, s.cloud, local, made, s'.cloud, s.pairs[n], s.pairs);
  }

  /**
   An add event that syncs and during which no call fails makes the clusters agree with the pair, from
   whatever state they were in.
   */
  lemma AddConverges(differs: Differ, s: State, b: SyntheticBinding, s': State)
    requires Inv(s) && Step(differs, s, AddBinding(b), s') && Syncing(s, b)
    requires b.name != SYSTEM_BINDING && s'.cloud.failures == s.cloud.failures
    ensures b.name in s'.pairs && Agrees(differs, s'.pairs[b.name], s'.cloud) && Clean(differs, s', b.name)
    ensures Paired(s', b) == s'
  {
    hide Inv, PairOf, Throttled, Agrees, Reconciled, Recorded, Clean;
    var n, t := b.name, Paired(Recorded(s, b), b);
    RecordedKeepsInv(s, b);
    RecordedKeeps(s, b);
    PairedKeepsInv(Recorded(s, b), b);
    SyncConverges(differs, t, n, s');
    ReconciledKeepsMaps(differs, t, n, s');
    PairedTwice(Recorded(s, b), b, s');
  }

  lemma PairedTwice(s: State, b: SyntheticBinding, s': State)
    requires s' == Paired(s, b).(cloud := s'.cloud)
    ensures Paired(s', b) == s'
  {
    hide PairOf;
  }

  lemma RecordedKeeps(s: State, b: SyntheticBinding)
    ensures Recorded(s, b) == s.(bindings := Recorded(s, b).bindings, counters := Recorded(s, b).counters)
  {
  }

  /** A sync of a clean pair writes nothing, whatever fails. */
  lemma CleanSync(differs: Differ, s: State, n: string, s': State)
    requires Clean(differs, s, n) && Reconciled(differs, s, n, s')
    ensures Clean(differs, s', n) && s'.cloud.writes == s.cloud.writes && s'.pairs == s.pairs
  {
    hide AllWanted, Orphans, Provisioned, Swept, Settled, Idle, AgreeOnManaged;
    var ds, ls := AllWanted(s.pairs[n]), Orphans(s.pairs[n], s.pairs, s.cloud.connected);
    if !Failed(s.cloud, s'.cloud) {
      var local, made, okMade, ok :| Synced(differs, s.cloud, local, made, s'.cloud, s.pairs[n], s.pairs, okMade, ok);
      LocalChangesKeep(differs, s.cloud, local, s.pairs[n], s.pairs);
      NothingToWrite(differs, local, made, s'.cloud, ds, ls, okMade, ok);
      SameObjects(differs, local, s'.cloud, ds, ls);
    } else {
      SameObjects(differs, s.cloud, s'.cloud, ds, ls);
    }
  }

  lemma CleanAdd(differs: Differ, s: State, b: SyntheticBinding, s': State)
    requires BindingAdded(differs, s, b, s') && !b.deleting && Clean(differs, s, b.name) && Paired(s, b) == s
    ensures Clean(differs, s', b.name) && Paired(s', b) == s' && s'.cloud.writes == s.cloud.writes
  {
    hide Reconciled, Recorded, Throttled, Orphans, AllWanted, PairOf, Settled, Idle;
    RecordedKeeps(s, b);
    if !Throttled(s, b) {
      var t := Paired(Recorded(s, b), b);
      assert t.pairs == s.pairs;
      CleanSync(differs, t, b.name, s');
      ReconciledKeepsMaps(differs, t, b.name, s');
    }
  }

  /**
   Quiescence over runs: once an add event of a binding has synced without a failing call, any number of
   repetitions of that event, throttled or not and whatever fails, sends no write to any managed cluster.
   */
  lemma {:induction false} RunQuiescence(differs: Differ, states: seq<State>, events: seq<Event>, b: SyntheticBinding)
    requires Run(differs, states, events) && Inv(states[0]) && |events| > 0
    requires forall i | 0 <= i < |events| :: events[i] == AddBinding(b)
    requires Syncing(states[0], b) && b.name != SYSTEM_BINDING && states[1].cloud.failures == states[0].cloud.failures
    ensures states[|events|].cloud.writes == states[1].cloud.writes
    ensures Clean(differs, states[|events|], b.name) && Paired(states[|events|], b) == states[|events|]
  {
    hide Clean, Paired, Inv, Throttled, BindingAdded;
    var k := |events|;
    assert Step(differs, states[k - 1], events[k - 1], states[k]);
    if k == 1 {
      AddConverges(differs, states[0], b, states[1]);
    } else {
      RunQuiescence(differs, states[..k], events[..k - 1], b);
      CleanAdd(differs, states[k - 1], b, states[k]);
    }
  }

  // ---------- all bindings together ----------

  /** Two built pairs want the same object at an address both want, namespaces apart. */
  lemma BuiltWantsAgree(p: Pair, q: Pair, d: Desired, e: Desired)
    requires Built(p) && Built(q) && !IsSystem(p) && !IsSystem(q)
    requires d in AllWanted(p) && e in AllWanted(q) && d.at == e.at && d.at.kind != Namespace
    ensures d.resource == e.resource
  {
    hide AllWanted, ManagedLabelsNoBinding;
    BuiltWants(p, d);
    BuiltWants(q, e);
    var k := WantedKind(p, d);
    var l := WantedKind(q, e);
  }

  lemma BuiltWantsInfrastructure(p: Pair, d: Desired)
    requires Built(p) && !IsSystem(p) && d in AllWanted(p)
    ensures Infrastructure(d.at)
  {
    hide AllWanted, ManagedLabelsNoBinding, Built;
    BuiltWants(p, d);
  }

  /** A creating pass of one pair keeps what another pair wants up to date. */
  lemma ProvisionedKeepsSettled(differs: Differ, a: Cloud, b: Cloud, p: Pair, q: Pair, ok: bool)
    requires Built(p) && Built(q) && !IsSystem(p) && !IsSystem(q)
    requires Provisioned(differs, a, b, AllWanted(q), ok) && Settled(differs, a, AllWanted(p))
    ensures Settled(differs, b, AllWanted(p))
  {
    hide AllWanted, Built;
    forall d | d in AllWanted(p) ensures SettledAt(differs, b, d) {
      assert SettledAt(differs, a, d);
      if d.at.kind != Namespace && WrittenFor(differs, AllWanted(q), d.at, b.objects[d.at]) {
        var e :| e in AllWanted(q) && e.at == d.at && Realises(differs, b.objects[d.at], e.resource);
        BuiltWantsAgree(p, q, d, e);
      }
    }
  }

  /** A creating pass of one pair makes no orphans for another. */
  lemma ProvisionedKeepsIdle(differs: Differ, a: Cloud, b: Cloud, p: Pair, q: Pair, pairs: map<string, Pair>, ok: bool)
    requires Built(p) && Built(q) && !IsSystem(p) && !IsSystem(q) && Labelled(b)
    requires Provisioned(differs, a, b, AllWanted(q), ok) && Idle(a, Orphans(p, pairs, a.connected))
    ensures Idle(b, Orphans(p, pairs, a.connected))
  {
    hide AllWanted, Orphans, Built, InfrastructureLabels, Infrastructure;
    forall at | at in b.objects ensures !Doomed(Orphans(p, pairs, a.connected), at, b.objects[at]) {
      if WrittenFor(differs, AllWanted(q), at, b.objects[at]) {
        var e :| e in AllWanted(q) && e.at == at;
        BuiltWantsInfrastructure(q, e);
        OrphansSpareInfrastructure(p, pairs, a.connected, at, b.objects[at]);
      }
    }
  }

  /** Only removing objects makes no orphans, and removes nothing from the infrastructure. */
  lemma SweptKeepsClean(differs: Differ, a: Cloud, b: Cloud, p: Pair, ls: set<Listing>, ms: set<Listing>, ok: bool)
    requires Swept(a, b, ls, ok) && Built(p) && !IsSystem(p)
    requires Settled(differs, a, AllWanted(p)) && Idle(a, ms)
    requires forall at | at in a.objects && Infrastructure(at) :: at in b.objects
    ensures Settled(differs, b, AllWanted(p)) && Idle(b, ms)
  {
    hide AllWanted, Built, Infrastructure, Doomed;
    forall d | d in AllWanted(p) ensures SettledAt(differs, b, d) {
      assert SettledAt(differs, a, d);
      BuiltWantsInfrastructure(p, d);
    }
  }

  /** A sync of one pair, failing or not, keeps every other pair clean. */
  lemma SyncKeepsClean(differs: Differ, s: State, m: string, s': State, n: string)
    requires Inv(s) && m in s.pairs && Reconciled(differs, s, m, s') && Labelled(s.cloud)
    requires m != SYSTEM_BINDING && n != SYSTEM_BINDING && Clean(differs, s, n)
    ensures Clean(differs, s', n)
  {
    InvWellKeyed(s, m);
    InvWellKeyed(s, n);
    var p, q := s.pairs[n], s.pairs[m];
    hide Inv, AllWanted, Orphans, Infrastructure, InfrastructureLabels, Provisioned, Swept, Settled, Idle, WellKeyed;
    if !Failed(s.cloud, s'.cloud) {
      var local, made, okMade, ok :| Synced(differs, s.cloud, local, made, s'.cloud, q, s.pairs, okMade, ok);
      LocalChangesKeep(differs, s.cloud, local, p, s.pairs);
      assert Labelled(local);
      ProvisionedKeepsLabels(differs, local, made, q, okMade);
      ProvisionedKeepsSettled(differs, local, made, p, q, okMade);
      ProvisionedKeepsIdle(differs, local, made, p, q, s.pairs, okMade);
      forall at | at in made.objects && Infrastructure(at) ensures at in s'.cloud.objects {
        OrphansSpareInfrastructure(q, s.pairs, s.cloud.connected, at, made.objects[at]);
        NotDoomedStays(made, s'.cloud, Orphans(q, s.pairs, s.cloud.connected), ok, at);
      }
      SweptKeepsClean(differs, made, s'.cloud, p, Orphans(q, s.pairs, s.cloud.connected),
          Orphans(p, s.pairs, s.cloud.connected), ok);
      ConnectedKept(differs, local, made, s'.cloud, AllWanted(q), Orphans(q, s.pairs, s.cloud.connected), okMade, ok);
    } else {
      SameObjects(differs, s.cloud, s'.cloud, AllWanted(p), Orphans(p, s.pairs, s.cloud.connected));
    }
  }

  lemma SameObjects(differs: Differ, a: Cloud, b: Cloud, ds: set<Desired>, ls: set<Listing>)
    requires b.objects == a.objects && Settled(differs, a, ds) && Idle(a, ls)
    ensures Settled(differs, b, ds) && Idle(b, ls)
  {
  }

  lemma NotDoomedStays(a: Cloud, b: Cloud, ls: set<Listing>, ok: bool, at: Address)
    requires Swept(a, b, ls, ok) && at in a.objects && !Doomed(ls, at, a.objects[at])
    ensures at in b.objects
  {
  }

  lemma ConnectedKept(differs: Differ, a: Cloud, made: Cloud, b: Cloud, ds: set<Desired>, ls: set<Listing>,
                      okMade: bool, ok: bool)
    requires Provisioned(differs, a, made, ds, okMade) && Swept(made, b, ls, ok)
    ensures made.connected == a.connected && b.connected == a.connected
  {
  }

  /** An add event that brings nothing new for a binding with a pair, other than "system". */
  predicate Repeats(s: State, e: Event) {
    e.AddBinding? && !e.binding.deleting && e.binding.name != SYSTEM_BINDING && e.binding.name in s.pairs
        && Paired(s, e.binding) == s
  }

  /** One of the events synced binding n, and no call failed. */
  ghost predicate SyncedBy(states: seq<State>, events: seq<Event>, n: string)
    requires |states| == |events| + 1
  {
    exists i :: 0 <= i < |events| && SyncsCleanly(states[i], events[i], states[i + 1], n)
  }

  predicate SyncsCleanly(s: State, e: Event, s': State, n: string) {
    e.AddBinding? && e.binding.name == n && Syncing(s, e.binding) && s'.cloud.failures == s.cloud.failures
  }

  /** One repeated event: the pairs stay, and so does every clean one. */
  lemma RepeatKeepsClean(differs: Differ, s: State, e: Event, s': State, n: string)
    requires Inv(s) && Step(differs, s, e, s') && Labelled(s.cloud) && Repeats(s, e) && n != SYSTEM_BINDING
    ensures s'.pairs == s.pairs && s'.models == s.models && Labelled(s'.cloud)
    ensures Clean(differs, s, n) ==> Clean(differs, s', n)
    ensures Clean(differs, s, n) && e.binding.name == n ==> s'.cloud.writes == s.cloud.writes
    ensures SyncsCleanly(s, e, s', n) ==> Clean(differs, s', n)
  {
    hide Inv, Clean, PairOf, Throttled, Reconciled, Recorded, Labelled, Infrastructure;
    var b := e.binding;
    if SyncsCleanly(s, e, s', n) {
      AddConverges(differs, s, b, s');
    }
    if Clean(differs, s, n) && b.name == n {
      CleanAdd(differs, s, b, s');
    }
    RecordedKeeps(s, b);
    if !Throttled(s, b) {
      var t := Paired(Recorded(s, b), b);
      RecordedKeepsInv(s, b);
      PairedKeepsInv(Recorded(s, b), b);
      ReconciledKeepsMaps(differs, t, b.name, s');
      SyncSurvives(differs, t, b.name, s');
      SurvivesLabelled(t.cloud, s'.cloud);
      if Clean(differs, s, n) && b.name != n {
        CleanByMaps(differs, s, t, n);
        SyncKeepsClean(differs, t, b.name, s', n);
      }
    } else if Clean(differs, s, n) {
      CleanByMaps(differs, s, s', n);
    }
  }

  lemma SurvivesLabelled(a: Cloud, b: Cloud)
    requires Survives(a, b)
    ensures Labelled(b)
  {
  }

  lemma CleanByMaps(differs: Differ, s: State, t: State, n: string)
    requires Clean(differs, s, n) && t.pairs == s.pairs && t.cloud == s.cloud
    ensures Clean(differs, t, n)
  {
  }

  lemma SyncedByStep(states: seq<State>, events: seq<Event>, n: string)
    requires |states| == |events| + 1 && events != []
    ensures var k := |events| - 1;
            var before := SyncedBy(states[..k + 1], events[..k], n);
            var last := SyncsCleanly(states[k], events[k], states[k + 1], n);
            SyncedBy(states, events, n) <==> before || last
  {
    hide SyncsCleanly;
    var k := |events| - 1;
    var past, earlier := states[..k + 1], events[..k];
    if SyncedBy(past, earlier, n) {
      var i :| 0 <= i < |earlier| && SyncsCleanly(past[i], earlier[i], past[i + 1], n);
      assert SyncsCleanly(states[i], events[i], states[i + 1], n);
    }
    if SyncedBy(states, events, n) {
      var i :| 0 <= i < |events| && SyncsCleanly(states[i], events[i], states[i + 1], n);
      assert i < k ==> SyncsCleanly(past[i], earlier[i], past[i + 1], n);
    }
  }

  /** Through any run of repeated events a binding stays clean from its first sync without a failing call on. */
  lemma {:induction false} RunSettles(differs: Differ, states: seq<State>, events: seq<Event>, n: string)
    requires Run(differs, states, events) && Inv(states[0]) && Labelled(states[0].cloud) && n != SYSTEM_BINDING
    requires forall i | 0 <= i < |events| :: Repeats(states[0], events[i])
    ensures Inv(states[|events|]) && Labelled(states[|events|].cloud)
    ensures states[|events|].pairs == states[0].pairs && states[|events|].models == states[0].models
    ensures SyncedBy(states, events, n) ==> Clean(differs, states[|events|], n)
  {
    hide Step, Inv, Labelled, Clean, SyncedBy, SyncsCleanly, Syncing;
    if events == [] {
      assert !SyncedBy(states, events, n) by { NothingSynced(states, n); }
    } else {
      var k := |events| - 1;
      RunSettles(differs, states[..k + 1], events[..k], n);
      SyncedByStep(states, events, n);
      assert Step(differs, states[k], events[k], states[k + 1]);
      RepeatKeepsClean(differs, states[k], events[k], states[k + 1], n);
      StepKeepsInv(differs, states[k], events[k], states[k + 1]);
    }
  }

  lemma NothingSynced(states: seq<State>, n: string)
    requires |states| == 1
    ensures !SyncedBy(states, [], n)
  {
  }

  /** A clean pair and the clusters agree. */
  lemma CleanAgrees(differs: Differ, s: State, n: string)
    requires Clean(differs, s, n) && !IsSystem(s.pairs[n])
    ensures Agrees(differs, s.pairs[n], s.cloud)
  {
    hide AllWanted, Orphans, Settled, Idle, AllConnected, Present, NothingElse;
    SettledPresent(differs, s.cloud, s.pairs[n]);
    IdleExpected(s.cloud, s.pairs[n], s.pairs);
  }

  /**
   After any run of repeated events the clusters agree, at the same time, with all pairs that were synced without a
   failing call.
   */
  lemma RunConverges(differs: Differ, states: seq<State>, events: seq<Event>)
    requires Run(differs, states, events) && Inv(states[0]) && Labelled(states[0].cloud)
    requires forall i | 0 <= i < |events| :: Repeats(states[0], events[i])
    ensures states[|events|].pairs == states[0].pairs
    ensures forall n | n in states[0].pairs && n != SYSTEM_BINDING && SyncedBy(states, events, n) ::
              Agrees(differs, states[0].pairs[n], states[|events|].cloud)
  {
    hide Step, Inv, Labelled, Clean, SyncedBy, Agrees, Repeats;
    RunSettles(differs, states, events, "");
    forall n | n in states[0].pairs && n != SYSTEM_BINDING && SyncedBy(states, events, n)
      ensures Agrees(differs, states[0].pairs[n], states[|events|].cloud)
    {
      RunSettles(differs, states, events, n);
      InvWellKeyed(states[|events|], n);
      CleanAgrees(differs, states[|events|], n);
    }
  }

  /**
   From waiting to convergence: a known binding without a pair that is fed only unchanged events, each finding its
   model known, is paired and synced by the Budget-th of them; if no call fails then, the clusters agree with its pair.
   */
  lemma WaitingConverges(differs: Differ, states: seq<State>, events: seq<Event>, n: string)
    requires Run(differs, states, events) && Inv(states[0]) && n in states[0].bindings && n !in states[0].pairs
    requires n != SYSTEM_BINDING && |events| == Budget(states[0], n)
    requires forall i | 0 <= i < |events| :: Tick(states[i], events[i], n) && ModelKnownFor(states[i], events[i], n)
    requires |events| > 0 && states[|events|].cloud.failures == states[|events| - 1].cloud.failures
    ensures n in states[|events|].pairs && Agrees(differs, states[|events|].pairs[n], states[|events|].cloud)
  {
    hide Step, Inv, Agrees, Clean, Throttled, Unchanged, Budget;
    var k := |events| - 1;
    assert Run(differs, states[..k + 1], events[..k]);
    PairingIsExact(differs, states, events, n);
    PairingIsExact(differs, states[..k + 1], events[..k], n);
    BoundedPairing(differs, states[..k + 1], events[..k], n);
    var s, b := states[k], events[k].binding;
    assert Step(differs, s, AddBinding(b), states[k + 1]);
    PassesWhenPaired(differs, s, b, states[k + 1]);
    AddConverges(differs, s, b, states[k + 1]);
  }

  lemma PassesWhenPaired(differs: Differ, s: State, b: SyntheticBinding, s': State)
    requires Step(differs, s, AddBinding(b), s') && !b.deleting && b.name !in s.pairs && b.name in s'.pairs
    ensures !Throttled(s, b)
  {
    hide BindingAdded, PairOf, Throttled;
    PlainAddMaps(differs, s, b, s');
    RecordedKeeps(s, b);
  }

  /**
   Quiescence of all bindings together: if the first k events of a run synced, each at least once without a
   failing call, every binding that has an event later, then nothing is written to any managed cluster after them.
   All events are repeated add events of bindings with pairs; in between, syncs may fail in any way.
   */
  lemma {:induction false} RunQuiescenceOfAll(differs: Differ, states: seq<State>, events: seq<Event>, k: nat)
    requires Run(differs, states, events) && Inv(states[0]) && Labelled(states[0].cloud) && k <= |events|
    requires forall i | 0 <= i < |events| :: Repeats(states[0], events[i])
    requires forall i | k <= i < |events| ::
              events[i].AddBinding? && SyncedBy(states[..k + 1], events[..k], events[i].binding.name)
    ensures states[|events|].cloud.writes == states[k].cloud.writes
  {
    hide Step, Inv, Labelled, Clean, SyncedBy, SyncsCleanly;
    if |events| > k {
      var m := |events| - 1;
      var n := events[m].binding.name;
      assert states[..m + 1][..k + 1] == states[..k + 1] && events[..m][..k] == events[..k];
      RunQuiescenceOfAll(differs, states[..m + 1], events[..m], k);
      RunSettles(differs, states[..m + 1], events[..m], n);
      SyncedByPrefix(states[..m + 1], events[..m], k, n);
      assert Step(differs, states[m], events[m], states[m + 1]);
      RepeatKeepsClean(differs, states[m], events[m], states[m + 1], n);
    }
  }

  lemma SyncedByPrefix(states: seq<State>, events: seq<Event>, k: nat, n: string)
    requires |states| == |events| + 1 && k <= |events| && SyncedBy(states[..k + 1], events[..k], n)
    ensures SyncedBy(states, events, n)
  {
    hide SyncsCleanly;
    var i :| 0 <= i < k && SyncsCleanly(states[..k + 1][i], events[..k][i], states[..k + 1][i + 1], n);
    assert SyncsCleanly(states[i], events[i], states[i + 1], n);
  }

  // ---------- when a sync can be free of errors ----------

  lemma CanSync(differs: Differ, s: State, n: string) returns (s': State)
    requires n in s.pairs && AllConnected(s.pairs[n], s.cloud.connected) && forall o: Resource :: !differs(o, o)
    ensures Reconciled(differs, s, n, s') && s'.cloud.failures == s.cloud.failures
  {
    hide Provisioned, Swept, AllWanted, Orphans, ProvisionedEach, SweptEach, CreatePasses, CleanupPasses;
    var pair := s.pairs[n];
    var made := CanProvisionEach(differs, s.cloud, CreatePasses(pair));
    EachProvisioned(differs, s.cloud, made, CreatePasses(pair), {});
    AllCreatePasses(pair);
    var b := CanSweepEach(made, CleanupPasses(pair, s.pairs, s.cloud.connected));
    EachSwept(made, b, CleanupPasses(pair, s.pairs, s.cloud.connected), {});
    AllCleanupPasses(pair, s.pairs, s.cloud.connected);
    s' := s.(cloud := b);
    assert Synced(differs, s.cloud, s.cloud, made, b, pair, s.pairs, true, true);
    assert EachPassRan(differs, s.cloud, made, b, pair, s.pairs);
  }

  /**
   From any reachable state, a syncing add event can be handled without a failing call exactly if all
   clusters of the pair are connected.
   */
  lemma ErrorFreeAddIff(differs: Differ, s: State, b: SyntheticBinding)
    requires Inv(s) && Syncing(s, b) && forall o: Resource :: !differs(o, o)
    ensures (exists s' :: Step(differs, s, AddBinding(b), s') && s'.cloud.failures == s.cloud.failures)
       <==> AllConnected(Paired(s, b).pairs[b.name], s.cloud.connected)
  {
    hide Inv, PairOf, Throttled, Reconciled, Recorded, AllConnected;
    var t := Paired(Recorded(s, b), b);
    RecordedKeeps(s, b);
    assert t.pairs == Paired(s, b).pairs && t.cloud == s.cloud;
    if AllConnected(t.pairs[b.name], t.cloud.connected) {
      var s' := CanSync(differs, t, b.name);
      assert Step(differs, s, AddBinding(b), s');
    }
    forall s' | Step(differs, s, AddBinding(b), s') && s'.cloud.failures == s.cloud.failures
      ensures AllConnected(t.pairs[b.name], t.cloud.connected)
    {
      ErrorFreeSync(differs, t, b.name, s');
    }
  }
}

/** Deleting a binding: what a completed deletion leaves, and how failed attempts add up. */
module Deletions {
  import opened Labels
  import opened Clouds
  import opened Types
  import opened Passes
  import opened Reference
  import opened Location
  import opened Fleets
  import opened Machine

  /** What a deletion of binding n is meant to remove from one object's point of view. */
  predicate Removable(pair: Pair, last: bool, at: Address, o: Resource) {
    && at.site.Managed? && at.site.cluster in pair.clusters
    && var c := at.site.cluster;
       || (at.kind in {Service, Deployment} && Matches(ManagedBindingLabels(pair.binding.name, c), o.labels))
       || (at.kind in {ClusterRole, ClusterRoleBinding} && at.name !in [VERRAZZANO_SYSTEM, VERRAZZANO_SYSTEM_ADMIN]
           && (BoundTo(o.labels, pair.binding.name) || (last && Matches(ManagedLabelsNoBinding(c), o.labels))))
       || (at.kind == Namespace && at.name !in [MONITORING, VERRAZZANO_SYSTEM]
           && (BoundTo(o.labels, pair.binding.name) || (last && Matches(ManagedLabelsNoBinding(c), o.labels))))
  }

  lemma RemovableIffDoomed(pair: Pair, last: bool, at: Address, o: Resource)
    ensures Removable(pair, last, at, o) <==> Doomed(DeletedManaged(pair, last), at, o)
  {
    hide DeletedManaged, Matches, BoundTo, ManagedBindingLabels, ManagedLabelsNoBinding;
    var c := if at.site.Managed? then at.site.cluster else "";
    var n := pair.binding.name;
    SelectorMeaning(n, c, o.labels);
    forall l ensures l in DeletedManaged(pair, last) <==> DeletedListing(pair, last, l) {
      DeletedListings(pair, last, l);
    }
    if Removable(pair, last, at, o) {
      var l := if at.kind in {Service, Deployment} then Listing(at.site, at.kind, ManagedBindingLabels(n, c), [])
               else ClusterWideListing(pair, at.kind, c, BoundTo(o.labels, n));
      assert DeletedListing(pair, last, l) && Hits(l, at, o);
    }
  }

  predicate LocalKind(k: Kind) {
    k in {Vmi, Secret, ConfigMap}
  }

  /**
   A completed deletion leaves no secret or config map of the binding, no VMI unless deleting the VMIs
   failed, and on the managed clusters nothing removable if all clusters of the pair are connected. The
   binding, its pair and its counter are forgotten; no other object or entry changes.
   */
  lemma CompletedDeletion(s: State, n: string, vmis: Cloud, s': State, vmiOk: bool)
    requires Inv(s) && n in s.pairs && DeletionRun(s, n, vmis, s', vmiOk, true)
    ensures s'.bindings == s.bindings - {n} && s'.pairs == s.pairs - {n} && s'.counters == s.counters - {n}
    ensures forall at | at in s'.cloud.objects :: at in s.cloud.objects && s'.cloud.objects[at] == s.cloud.objects[at]
    ensures forall at | at in s.cloud.objects && at.site.Management? && LocalKind(at.kind)
              && (at.kind == Vmi ==> vmiOk) ::
              BoundTo(s.cloud.objects[at].labels, n) <==> at !in s'.cloud.objects
    ensures AllConnected(s.pairs[n], s.cloud.connected) ==>
              forall at | at in s.cloud.objects && at.site.Managed? ::
                Removable(s.pairs[n], |s.pairs| == 1, at, s.cloud.objects[at]) <==> at !in s'.cloud.objects
    ensures !AllConnected(s.pairs[n], s.cloud.connected) ==>
              forall at | at in s.cloud.objects && at.site.Managed? :: at in s'.cloud.objects
  {
    RunSweeps(s, n, vmis, s', vmiOk, true);
    hide Swept, Deletion, Removable, Inv, BoundTo, PassesOf, AllConnected, LocalKind;
    forall at | at in s.cloud.objects
      ensures at.site.Managed? ==>
                (at !in s'.cloud.objects
                 <==> AllConnected(s.pairs[n], s.cloud.connected)
                      && Removable(s.pairs[n], |s.pairs| == 1, at, s.cloud.objects[at]))
      ensures at.site.Management? && LocalKind(at.kind) && (at.kind == Vmi ==> vmiOk) ==>
                (at !in s'.cloud.objects <==> BoundTo(s.cloud.objects[at].labels, n))
    {
      CompletedAt(s, n, vmis, s'.cloud, vmiOk, at);
    }
    SweptOnlyRemoves(s.cloud, vmis, {LocalListing(Vmi, n)}, vmiOk);
    SweptOnlyRemoves(vmis, s'.cloud, Deletion(s, n), true);
  }

  /** What a deletion pass that ended without error did to one object. */
  lemma CompletedAt(s: State, n: string, vmis: Cloud, b: Cloud, vmiOk: bool, at: Address)
    requires n in s.pairs && at in s.cloud.objects
    requires Swept(s.cloud, vmis, {LocalListing(Vmi, n)}, vmiOk) && Swept(vmis, b, Deletion(s, n), true)
    ensures at.site.Managed? ==>
              (at !in b.objects
               <==> AllConnected(s.pairs[n], s.cloud.connected)
                    && Removable(s.pairs[n], |s.pairs| == 1, at, s.cloud.objects[at]))
    ensures at.site.Management? && LocalKind(at.kind) && (at.kind == Vmi ==> vmiOk) ==>
              (at !in b.objects <==> BoundTo(s.cloud.objects[at].labels, n))
  {
    hide Deletion, Removable, Doomed, BoundTo, AllConnected;
    if at.site.Managed? {
      ManagedDoom(s, n, at, s.cloud.objects[at]);
    } else {
      LocalDoom(s, n, at, s.cloud.objects[at]);
    }
  }

  lemma SweptOnlyRemoves(a: Cloud, b: Cloud, ls: set<Listing>, ok: bool)
    requires Swept(a, b, ls, ok)
    ensures forall at | at in b.objects :: at in a.objects && b.objects[at] == a.objects[at]
  {
  }

  lemma ManagedDoom(s: State, n: string, at: Address, o: Resource)
    requires n in s.pairs && at.site.Managed?
    ensures Doomed(Deletion(s, n), at, o)
       <==> AllConnected(s.pairs[n], s.cloud.connected) && Removable(s.pairs[n], |s.pairs| == 1, at, o)
    ensures !Doomed({LocalListing(Vmi, n)}, at, o)
  {
    hide DeletedManaged, Removable, Matches;
    RemovableIffDoomed(s.pairs[n], |s.pairs| == 1, at, o);
    DoomedUnion({LocalListing(Secret, n), LocalListing(ConfigMap, n)},
        Deleted(s.pairs[n], s.cloud.connected, |s.pairs| == 1), at, o);
  }

  lemma LocalDoom(s: State, n: string, at: Address, o: Resource)
    requires n in s.pairs && at.site.Management?
    ensures Doomed(Deletion(s, n), at, o) <==> at.kind in {Secret, ConfigMap} && BoundTo(o.labels, n)
    ensures Doomed({LocalListing(Vmi, n)}, at, o) <==> at.kind == Vmi && BoundTo(o.labels, n)
  {
    hide DeletedManaged, Matches, BoundTo;
    SelectorMeaning(n, "", o.labels);
    var pair, last := s.pairs[n], |s.pairs| == 1;
    forall l | l in Deleted(pair, s.cloud.connected, last) ensures !Hits(l, at, o) {
      DeletedListings(pair, last, l);
    }
    if at.kind in {Secret, ConfigMap} && BoundTo(o.labels, n) {
      assert Hits(LocalListing(at.kind, n), at, o) && LocalListing(at.kind, n) in Deletion(s, n);
    }
    if at.kind == Vmi && BoundTo(o.labels, n) {
      assert Hits(LocalListing(Vmi, n), at, o);
    }
  }

  /** The event deletes a binding that has a pair, or gets one now because its model is known. */
  predicate DeletesPair(s: State, e: Event) {
    && (e.DeleteBinding? || (e.AddBinding? && e.binding.deleting)) && "vb.verrazzano.io" in e.binding.finalizers
    && (e.binding.name in s.pairs || (e.AddBinding? && e.binding.modelName in s.models))
  }

  /** What a deletion of this pair removes in the end; VMIs may be left. */
  ghost predicate PairDeleted(s: State, n: string, pair: Pair, s': State) {
    && s' == s.(bindings := s.bindings - {n}, pairs := s.pairs - {n}, counters := s.counters - {n}, cloud := s'.cloud)
    && (forall at | at in s'.cloud.objects :: at in s.cloud.objects && s'.cloud.objects[at] == s.cloud.objects[at])
    && (forall at | at in s.cloud.objects && at.site.Management? && at.kind in {Secret, ConfigMap} ::
          BoundTo(s.cloud.objects[at].labels, n) <==> at !in s'.cloud.objects)
    && forall at | at in s.cloud.objects && at.site.Managed? ::
         at !in s'.cloud.objects
         <==> pair.clusters.Keys <= s.cloud.connected && Removable(pair, s.pairs.Keys <= {n}, at, s.cloud.objects[at])
  }

  /**
   Seen from outside: if no call failed while a delete event, or an add event already marked for deletion, was handled
   for a binding with a pair or, for an add event, a known model, then the binding is forgotten, none of its VMIs,
   secrets and config maps is left, and with all clusters connected nothing removable is; nothing else changed. The
   pair is the stored one or the one built from the event.
   */
  lemma ErrorFreeDeletion(differs: Differ, s: State, e: Event, s': State) returns (pair: Pair)
    requires Inv(s) && Step(differs, s, e, s') && s'.cloud.failures == s.cloud.failures && DeletesPair(s, e)
    ensures var n := e.binding.name;
            && (if n in s.pairs then pair == s.pairs[n] else IsBuilt(pair, s.models[e.binding.modelName], e.binding))
            && PairDeleted(s, n, pair, s')
            && forall at | at in s.cloud.objects && at.site.Management? && at.kind == Vmi ::
                 BoundTo(s.cloud.objects[at].labels, n) <==> at !in s'.cloud.objects
  {
    var n, t := e.binding.name, if e.AddBinding? then Adopted(s, e.binding) else s;
    hide *;
    DeletionStarts(differs, s, e, s', t);
    pair := t.pairs[n];
    CleanDeletion(t, n, s');
    SamePairDeleted(s, t, n, pair, s');
  }

  /** Whatever failed, the binding is forgotten only if everything but its VMIs was deleted. */
  lemma ForgottenMeansDeleted(differs: Differ, s: State, e: Event, s': State) returns (pair: Pair)
    requires Inv(s) && Step(differs, s, e, s') && DeletesPair(s, e) && e.binding.name !in s'.pairs
    ensures var n := e.binding.name;
            && (if n in s.pairs then pair == s.pairs[n] else IsBuilt(pair, s.models[e.binding.modelName], e.binding))
            && PairDeleted(s, n, pair, s')
  {
    var n, t := e.binding.name, if e.AddBinding? then Adopted(s, e.binding) else s;
    hide *;
    DeletionStarts(differs, s, e, s', t);
    pair := t.pairs[n];
    CleanDeletion(t, n, s');
    SamePairDeleted(s, t, n, pair, s');
  }

  /** A deletion that forgot the binding or had no failing call, from the state in which the pair is there. */
  lemma CleanDeletion(t: State, n: string, s': State)
    requires Inv(t) && n in t.pairs && (s'.cloud.failures == t.cloud.failures || n !in s'.pairs)
    requires exists vmis, vmiOk, ok :: DeletionRun(t, n, vmis, s', vmiOk, ok)
    ensures PairDeleted(t, n, t.pairs[n], s')
    ensures s'.cloud.failures == t.cloud.failures ==>
              forall at | at in t.cloud.objects && at.site.Management? && at.kind == Vmi ::
                BoundTo(t.cloud.objects[at].labels, n) <==> at !in s'.cloud.objects
  {
    hide Inv, Deletion, Removable, BoundTo, Swept, PassesOf;
    OnlyOne(t.pairs, n);
    var vmis, vmiOk, ok :| DeletionRun(t, n, vmis, s', vmiOk, ok);
    NoFailures(t.cloud, vmis, {LocalListing(Vmi, n)}, vmiOk);
    RunSweeps(t, n, vmis, s', vmiOk, ok);
    NoFailures(vmis, s'.cloud, Deletion(t, n), ok);
    CompletedDeletion(t, n, vmis, s', vmiOk);
  }

  lemma SamePairDeleted(s: State, t: State, n: string, pair: Pair, s': State)
    requires PairDeleted(t, n, pair, s') && t.cloud == s.cloud && t.models == s.models && t.counters == s.counters
    requires t.bindings - {n} == s.bindings - {n} && t.pairs - {n} == s.pairs - {n}
    requires n in t.pairs
    ensures PairDeleted(s, n, pair, s')
  {
    hide Removable;
    assert forall m | m != n :: (m in t.pairs <==> m in t.pairs - {n}) && (m in s.pairs <==> m in s.pairs - {n});
  }

  /** What such an event finds, or first makes, in the maps. */
  lemma DeletionStarts(differs: Differ, s: State, e: Event, s': State, t: State)
    requires Inv(s) && Step(differs, s, e, s') && DeletesPair(s, e)
    requires t == if e.AddBinding? then Adopted(s, e.binding) else s
    ensures var n := e.binding.name;
            && Inv(t) && n in t.pairs && t.cloud == s.cloud && t.models == s.models && t.counters == s.counters
            && (if n in s.pairs then t.pairs == s.pairs
                else t.pairs == s.pairs[n := t.pairs[n]]
                     && IsBuilt(t.pairs[n], s.models[e.binding.modelName], e.binding))
            && t.bindings - {n} == s.bindings - {n} && t.pairs - {n} == s.pairs - {n}
            && exists vmis, vmiOk, ok :: DeletionRun(t, n, vmis, s', vmiOk, ok)
  {
    hide Inv, DeletionRun, PairOf, IsBuilt;
    if e.AddBinding? {
      AdoptedKeepsInv(s, e.binding);
      if e.binding.modelName in s.models {
        BuiltPair(s.models[e.binding.modelName], e.binding);
      }
    }
  }

  lemma OnlyOne(pairs: map<string, Pair>, n: string)
    requires n in pairs
    ensures |pairs| == 1 <==> pairs.Keys == {n}
  {
    assert |pairs| == |pairs.Keys|;
    if |pairs| == 1 {
      assert |pairs.Keys - {n}| == 0;
    }
  }

  /** From any state a deletion can be handled without a failing call, even with clusters unconnected. */
  lemma CanDelete(differs: Differ, s: State, b: SyntheticBinding) returns (s': State)
    ensures Step(differs, s, DeleteBinding(b), s') && s'.cloud.failures == s.cloud.failures
  {
    hide Swept, SweptInOrder, PassesOf;
    s' := s;
    if FINALIZER in b.finalizers && b.name in s.pairs {
      var vmis := CanSweep(s.cloud, {LocalListing(Vmi, b.name)});
      var c := CanSweepInOrder(vmis, PassesOf(s, b.name));
      s' := Forgotten(s, b.name).(cloud := c);
      assert DeletionRun(s, b.name, vmis, s', true, true);
    }
  }

  /** An error while deleting the VMIs is ignored: all may be left, and the binding is forgotten all the same. */
  lemma VmiErrorIgnored(differs: Differ, s: State, b: SyntheticBinding) returns (s': State)
    requires "vb.verrazzano.io" in b.finalizers && b.name in s.pairs
    ensures Step(differs, s, DeleteBinding(b), s') && s'.cloud.failures == s.cloud.failures + 1
    ensures b.name !in s'.bindings && b.name !in s'.pairs && b.name !in s'.counters
    ensures forall at | at in s.cloud.objects && at.site.Management? && at.kind == Vmi :: at in s'.cloud.objects
  {
    hide SweptInOrder, PassesOf, Deletion;
    var n := b.name;
    var vmis := s.cloud.(failures := s.cloud.failures + 1);
    assert Swept(s.cloud, vmis, {LocalListing(Vmi, n)}, false);
    hide Swept;
    var c := CanSweepInOrder(vmis, PassesOf(s, n));
    s' := Forgotten(s, n).(cloud := c);
    assert DeletionRun(s, n, vmis, s', false, true);
    RunSweeps(s, n, vmis, s', false, true);
    forall at | at in s.cloud.objects && at.site.Management? && at.kind == Vmi ensures at in c.objects {
      LocalDoom(s, n, at, s.cloud.objects[at]);
      Survivor(vmis, c, Deletion(s, n), at);
    }
  }

  lemma Survivor(a: Cloud, b: Cloud, ls: set<Listing>, at: Address)
    requires Swept(a, b, ls, true) && at in a.objects && !Doomed(ls, at, a.objects[at])
    ensures at in b.objects
  {
  }

  lemma NoFailures(a: Cloud, b: Cloud, ls: set<Listing>, ok: bool)
    requires Swept(a, b, ls, ok)
    ensures a.failures <= b.failures && (!ok ==> a.failures < b.failures)
  {
  }

  // ---------- order ----------

  /** The order in which a deletion goes through the kinds. */
  function Rank(k: Kind): nat {
    match k
    case Secret => 0
    case ConfigMap => 1
    case Service => 2
    case Deployment => 3
    case ClusterRoleBinding => 4
    case ClusterRole => 5
    case Namespace => 6
    case _ => 0
  }

  /** What a deletion of binding n is to remove on the binding's own account. */
  predicate OwnedBy(s: State, n: string, at: Address, o: Resource)
    requires n in s.pairs
  {
    || (at.site.Management? && at.kind in {Secret, ConfigMap} && BoundTo(o.labels, n))
    || (AllConnected(s.pairs[n], s.cloud.connected) && Removable(s.pairs[n], false, at, o))
  }

  lemma PassOf(s: State, n: string, kind: Kind)
    requires n in s.pairs && kind in {Secret, ConfigMap, Service, Deployment, ClusterRoleBinding, ClusterRole,
              Namespace}
    ensures var pair, connected := s.pairs[n], s.cloud.connected;
            && Rank(kind) < |PassesOf(s, n)|
            && PassesOf(s, n)[Rank(kind)] ==
                 if kind in {Secret, ConfigMap} then {LocalListing(kind, n)}
                 else if kind in {Service, Deployment} then IfConnected(pair, connected, DeletedWorkloads(pair, kind))
                 else IfConnected(pair, connected, DeletedClusterWide(pair, kind, true))
  {
    hide LocalListing, IfConnected;
  }

  /** What belongs to the binding is hit by a listing of its kind. */
  lemma OwnHit(s: State, n: string, at: Address, o: Resource) returns (l: Listing)
    requires Inv(s) && n in s.pairs && OwnedBy(s, n, at, o)
    ensures Hits(l, at, o)
    ensures if at.site.Management? then at.kind in {Secret, ConfigMap} && l == LocalListing(at.kind, n)
            else AllConnected(s.pairs[n], s.cloud.connected)
                 && if at.kind in {Service, Deployment} then l in DeletedWorkloads(s.pairs[n], at.kind)
                    else
                      && at.kind in {ClusterRole, ClusterRoleBinding, Namespace}
                      && l in DeletedClusterWide(s.pairs[n], at.kind, true)
  {
    InvWellKeyed(s, n);
    hide Inv, Matches, BoundTo, ManagedBindingLabels, DeletedWorkloads, DeletedClusterWide, AllConnected;
    var pair, c := s.pairs[n], if at.site.Managed? then at.site.cluster else "";
    SelectorMeaning(n, c, o.labels);
    l := if at.site.Management? then LocalListing(at.kind, n)
         else if at.kind in {Service, Deployment} then Listing(at.site, at.kind, ManagedBindingLabels(n, c), [])
         else ClusterWideListing(pair, at.kind, c, true);
    DeletedWorkloadListing(pair, at.kind, l);
    DeletedClusterWideListing(pair, at.kind, true, l);
  }

  lemma OwnDoomed(s: State, n: string, j: nat, at: Address, o: Resource)
    requires Inv(s) && n in s.pairs && OwnedBy(s, n, at, o) && Rank(at.kind) < j <= |PassesOf(s, n)|
    ensures Doomed(AllOf(PassesOf(s, n)[..j]), at, o)
  {
    var l := OwnHit(s, n, at, o);
    PassOf(s, n, at.kind);
    hide Inv, OwnedBy, Hits, DeletedWorkloads, DeletedClusterWide, PassesOf, AllConnected;
    assert l in PassesOf(s, n)[..j][Rank(at.kind)];
  }

  lemma PassKinds(s: State, n: string, i: nat, l: Listing)
    requires n in s.pairs && i < 7 && l in PassesOf(s, n)[i]
    ensures Rank(l.kind) == i
  {
  }

  /**
   A deletion is staged: once it has removed any object, no object of the binding of an earlier kind is
   left, wherever the deletion stopped. So a namespace goes only after all services, deployments,
   roles and role bindings of the binding.
   */
  lemma DeletionIsStaged(s: State, n: string, vmis: Cloud, s': State, vmiOk: bool, ok: bool, gone: Address,
                         left: Address)
    requires Inv(s) && n in s.pairs && DeletionRun(s, n, vmis, s', vmiOk, ok)
    requires gone in vmis.objects && gone !in s'.cloud.objects
    requires left in s'.cloud.objects && Rank(left.kind) < Rank(gone.kind)
    ensures !OwnedBy(s, n, left, s'.cloud.objects[left])
  {
    hide OwnedBy, Swept, SweptInOrder, DeletionPasses, Inv, Matches;
    var ps, j := PassesOf(s, n), Rank(gone.kind);
    assert |ps| >= 7 by { PassCount(s, n); }
    forall l | l in AllOf(ps[..j]) ensures l.kind != gone.kind {
      var i :| 0 <= i < j && l in ps[..j][i];
      PassKinds(s, n, i, l);
    }
    InOrderStages(vmis, s'.cloud, ps, ok, j, gone);
    if OwnedBy(s, n, left, s'.cloud.objects[left]) {
      OwnDoomed(s, n, j, left, s'.cloud.objects[left]);
    }
  }

  lemma PassCount(s: State, n: string)
    requires n in s.pairs
    ensures |PassesOf(s, n)| >= 7
  {
  }

  // ---------- retries ----------

  /** One call of the deletion handler that gets past its two guards. */
  ghost predicate Attempt(s: State, n: string, s': State) {
    n in s.pairs && exists vmis, vmiOk, ok :: DeletionRun(s, n, vmis, s', vmiOk, ok)
  }

  /** b is a later state of deleting n: same maps, and only doomed objects gone. */
  ghost predicate Progress(a: State, n: string, b: State)
    requires n in a.pairs
  {
    && b == a.(cloud := b.cloud) && b.cloud.connected == a.cloud.connected
    && (forall at | at in b.cloud.objects :: at in a.cloud.objects && b.cloud.objects[at] == a.cloud.objects[at])
    && (forall at | at in a.cloud.objects && at !in b.cloud.objects ::
          at.kind == Vmi || Doomed(Deletion(a, n), at, a.cloud.objects[at]))
  }

  /** An attempt that stops early keeps the maps and never adds a matching object. */
  lemma FailedAttempt(s: State, n: string, s': State)
    requires Attempt(s, n, s') && n in s'.pairs
    ensures Progress(s, n, s') && Deletion(s', n) == Deletion(s, n)
  {
    hide Deletion, PassesOf;
    var vmis, vmiOk, ok :| DeletionRun(s, n, vmis, s', vmiOk, ok);
    RunSweeps(s, n, vmis, s', vmiOk, ok);
    OnlyVmis(n);
    SameDeletion(s, s', n);
  }

  lemma OnlyVmis(n: string)
    ensures forall at, o: Resource :: Doomed({LocalListing(Vmi, n)}, at, o) ==> at.kind == Vmi
  {
  }

  lemma {:induction false} FailedAttempts(states: seq<State>, n: string)
    requires |states| > 0 && n in states[0].pairs
    requires forall i | 0 <= i < |states| - 1 :: Attempt(states[i], n, states[i + 1])
    requires forall i | 0 <= i < |states| :: n in states[i].pairs
    ensures Progress(states[0], n, states[|states| - 1])
    ensures Deletion(states[|states| - 1], n) == Deletion(states[0], n)
  {
    hide Deletion, Attempt;
    var k := |states| - 1;
    if k > 0 {
      FailedAttempts(states[..k], n);
      FailedAttempt(states[k - 1], n, states[k]);
    }
  }

  /**
   However many attempts fail and wherever they stop, the first one that completes leaves exactly
   what a single error-free deletion would have left, VMIs aside: every doomed object is gone, every
   other object is untouched.
   */
  lemma RetryFinishes(states: seq<State>, n: string)
    requires |states| > 1
    requires forall i | 0 <= i < |states| - 1 :: Attempt(states[i], n, states[i + 1]) && n in states[i].pairs
    requires n !in states[|states| - 1].pairs
    ensures var a, b := states[0], states[|states| - 1];
            && b == Forgotten(a, n).(cloud := b.cloud)
            && (forall at | at in a.cloud.objects && at.kind != Vmi ::
                  at in b.cloud.objects <==> !Doomed(Deletion(a, n), at, a.cloud.objects[at]))
            && (forall at | at in b.cloud.objects ::
                  at in a.cloud.objects && b.cloud.objects[at] == a.cloud.objects[at])
  {
    hide Deletion, PassesOf;
    var k := |states| - 1;
    var s, s' := states[k - 1], states[k];
    FailedAttempts(states[..k], n);
    var vmis, vmiOk, ok :| DeletionRun(s, n, vmis, s', vmiOk, ok);
    assert ok;
    RunSweeps(s, n, vmis, s', vmiOk, ok);
    OnlyVmis(n);
  }

  /**
   When a completed deletion fails its purpose: something removable is left on the managed clusters
   exactly if a cluster of the pair was not connected and there was something to remove. The maps
   have then forgotten the binding, so no retry will come.
   */
  lemma LeftoversIff(s: State, n: string, vmis: Cloud, s': State, vmiOk: bool)
    requires Inv(s) && n in s.pairs && DeletionRun(s, n, vmis, s', vmiOk, true)
    ensures (exists at :: at in s'.cloud.objects && Removable(s.pairs[n], |s.pairs| == 1, at, s'.cloud.objects[at]))
       <==> !AllConnected(s.pairs[n], s.cloud.connected)
            && exists at :: at in s.cloud.objects && Removable(s.pairs[n], |s.pairs| == 1, at, s.cloud.objects[at])
  {
    CompletedDeletion(s, n, vmis, s', vmiOk);
    hide DeletionRun, Inv, Matches;
    var last := |s.pairs| == 1;
    assert forall at, o: Resource :: Removable(s.pairs[n], last, at, o) ==> at.site.Managed?;
    hide Removable;
  }
}

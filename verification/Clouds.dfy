/**
 The objects of the management cluster and of all managed clusters, and the two ways a pass of
 the operator changes them. A deleting pass is a set of listings: list by kind and selector on one
 site, delete what is not spared by name. A creating pass is a set of desired objects. Every API
 call may fail, with or without having taken effect, and a pass may stop at the first failure.
 */
module Clouds {
  import opened Labels

  datatype Kind =
    | Namespace | ServiceAccount | ConfigMap | ClusterRole | ClusterRoleBinding | Deployment | Service | DaemonSet
    | Vmi | Secret

  datatype Site = Management | Managed(cluster: string)

  /** Where an object lives; cluster-wide kinds have the empty namespace. */
  datatype Address = Address(site: Site, kind: Kind, namespace: string, name: string)

  datatype Resource = Resource(labels: LabelSet, content: string)

  /** writes counts create, update and delete requests, failures the calls and waits that ended with an error. */
  datatype Cloud = Cloud(objects: map<Address, Resource>, connected: set<string>, writes: nat, failures: nat)

  /** Nothing happened but failing calls. */
  predicate Untouched(a: Cloud, b: Cloud) {
    a.failures <= b.failures && b == a.(failures := b.failures)
  }

  /** A call failed, and nothing else happened. */
  predicate Failed(a: Cloud, b: Cloud) {
    Untouched(a, b) && a.failures < b.failures
  }

  // ---------- deleting passes ----------

  datatype Listing = Listing(site: Site, kind: Kind, selector: LabelSet, spared: seq<string>)

  predicate Hits(l: Listing, at: Address, o: Resource) {
    at.site == l.site && at.kind == l.kind && Matches(l.selector, o.labels) && at.name !in l.spared
  }

  ghost predicate Doomed(ls: set<Listing>, at: Address, o: Resource) {
    exists l :: l in ls && Hits(l, at, o)
  }

  /** Nothing is left for the listings to delete. */
  ghost predicate Idle(c: Cloud, ls: set<Listing>) {
    forall at | at in c.objects :: !Doomed(ls, at, c.objects[at])
  }

  /**
   What a deleting pass may do: objects only disappear, each of them hit by a listing; a pass without
   error leaves nothing to delete; an error means that a call failed; a pass with nothing to delete writes nothing.
   */
  ghost predicate Swept(a: Cloud, b: Cloud, ls: set<Listing>, ok: bool) {
    && b.connected == a.connected
    && a.writes <= b.writes && a.failures <= b.failures && (!ok ==> a.failures < b.failures)
    && (forall at | at in b.objects :: at in a.objects && b.objects[at] == a.objects[at])
    && (forall at | at in a.objects && at !in b.objects :: Doomed(ls, at, a.objects[at]))
    && (ok ==> Idle(b, ls))
    && (Idle(a, ls) ==> Untouched(a, b))
  }

  /** Sweeping a single listing, in terms of what it hits. */
  lemma SweptOne(a: Cloud, b: Cloud, l: Listing, ok: bool)
    requires b.connected == a.connected && a.writes <= b.writes
    requires a.failures <= b.failures && (!ok ==> a.failures < b.failures)
    requires forall at | at in b.objects :: at in a.objects && b.objects[at] == a.objects[at]
    requires forall at | at in a.objects && at !in b.objects :: Hits(l, at, a.objects[at])
    requires ok ==> forall at | at in b.objects :: !Hits(l, at, b.objects[at])
    requires (forall at | at in a.objects :: !Hits(l, at, a.objects[at])) ==>
              b.objects == a.objects && b.writes == a.writes
    ensures Swept(a, b, {l}, ok)
  {
    hide Hits;
    assert forall at, o: Resource :: Doomed({l}, at, o) <==> Hits(l, at, o);
  }

  lemma SweptNothing(a: Cloud)
    ensures Swept(a, a, {}, true)
  {
  }

  lemma SweptThen(a: Cloud, b: Cloud, c: Cloud, ls: set<Listing>, ms: set<Listing>, ok: bool, ok': bool)
    requires Swept(a, b, ls, ok) && Swept(b, c, ms, ok')
    ensures Swept(a, c, ls + ms, ok && ok')
  {
    forall at, o: Resource ensures Doomed(ls + ms, at, o) <==> Doomed(ls, at, o) || Doomed(ms, at, o) {
      DoomedUnion(ls, ms, at, o);
    }
    if Idle(a, ls + ms) {
      assert Idle(a, ls);
      assert Idle(b, ms);
    }
  }

  lemma DoomedUnion(ls: set<Listing>, ms: set<Listing>, at: Address, o: Resource)
    ensures Doomed(ls + ms, at, o) <==> Doomed(ls, at, o) || Doomed(ms, at, o)
  {
  }

  /** A pass stopped by a failure is also a stopped run of any longer pass. */
  lemma SweptStopped(a: Cloud, b: Cloud, ls: set<Listing>, ms: set<Listing>)
    requires Swept(a, b, ls, false) && ls <= ms
    ensures Swept(a, b, ms, false)
  {
    if Idle(a, ms) {
      forall at | at in a.objects ensures !Doomed(ls, at, a.objects[at]) {
        assert !Doomed(ms, at, a.objects[at]);
      }
      assert Idle(a, ls);
    }
  }

  // ---------- deleting passes one after the other ----------

  ghost function AllOf(ps: seq<set<Listing>>): set<Listing> {
    set i, l | 0 <= i < |ps| && l in ps[i] :: l
  }

  /** The passes run in order, and the first one with an error is the last one to run. */
  ghost predicate SweptInOrder(a: Cloud, b: Cloud, ps: seq<set<Listing>>, ok: bool)
    decreases |ps|
  {
    if ps == [] then ok && b == a
    else
      var k := |ps| - 1;
      || (!ok && SweptInOrder(a, b, ps[..k], false))
      || exists m :: SweptInOrder(a, m, ps[..k], true) && Swept(m, b, ps[k], ok)
  }

  lemma InOrderNext(a: Cloud, m: Cloud, b: Cloud, ps: seq<set<Listing>>, k: nat, ok: bool)
    requires k < |ps| && SweptInOrder(a, m, ps[..k], true) && Swept(m, b, ps[k], ok)
    ensures SweptInOrder(a, b, ps[..k + 1], ok)
  {
    hide Swept;
    assert ps[..k + 1][..k] == ps[..k];
  }

  lemma {:induction false} InOrderStopped(a: Cloud, b: Cloud, ps: seq<set<Listing>>, k: nat)
    requires k <= |ps| && SweptInOrder(a, b, ps[..k], false)
    ensures SweptInOrder(a, b, ps, false)
    decreases |ps|
  {
    if k == |ps| {
      assert ps[..k] == ps;
    } else {
      assert ps[..|ps| - 1][..k] == ps[..k];
      InOrderStopped(a, b, ps[..|ps| - 1], k);
    }
  }

  /** Passes run in order do together what one pass over all their listings may do. */
  lemma {:induction false} InOrderSwept(a: Cloud, b: Cloud, ps: seq<set<Listing>>, ok: bool)
    requires SweptInOrder(a, b, ps, ok)
    ensures Swept(a, b, AllOf(ps), ok)
    decreases |ps|
  {
    hide Swept;
    if ps == [] {
      assert AllOf(ps) == {};
      SweptNothing(a);
    } else {
      var k := |ps| - 1;
      assert AllOf(ps) == AllOf(ps[..k]) + ps[k];
      if !ok && SweptInOrder(a, b, ps[..k], false) {
        InOrderSwept(a, b, ps[..k], false);
        SweptStopped(a, b, AllOf(ps[..k]), AllOf(ps));
      } else {
        var m :| SweptInOrder(a, m, ps[..k], true) && Swept(m, b, ps[k], ok);
        InOrderSwept(a, m, ps[..k], true);
        SweptThen(a, m, b, AllOf(ps[..k]), ps[k], true, ok);
      }
    }
  }

  /** Once an object is gone that the first j passes do not touch, those passes are done. */
  lemma {:induction false} InOrderStages(a: Cloud, b: Cloud, ps: seq<set<Listing>>, ok: bool, j: nat, at: Address)
    requires SweptInOrder(a, b, ps, ok) && j < |ps|
    requires at in a.objects && at !in b.objects && !Doomed(AllOf(ps[..j]), at, a.objects[at])
    ensures Idle(b, AllOf(ps[..j]))
    decreases |ps|
  {
    hide Swept;
    var k := |ps| - 1;
    if !ok && SweptInOrder(a, b, ps[..k], false) {
      InOrderSwept(a, b, ps[..k], false);
      assert j < k by {
        GoneIsDoomed(a, b, AllOf(ps[..k]), false, at);
      }
      assert ps[..k][..j] == ps[..j];
      InOrderStages(a, b, ps[..k], false, j, at);
    } else {
      var m :| SweptInOrder(a, m, ps[..k], true) && Swept(m, b, ps[k], ok);
      InOrderSwept(a, m, ps[..k], true);
      StaysIdle(a, m, b, AllOf(ps[..j]), AllOf(ps[..k]), ps[k], ok);
    }
  }

  lemma GoneIsDoomed(a: Cloud, b: Cloud, ls: set<Listing>, ok: bool, at: Address)
    requires Swept(a, b, ls, ok) && at in a.objects && at !in b.objects
    ensures Doomed(ls, at, a.objects[at])
  {
  }

  lemma StaysIdle(a: Cloud, m: Cloud, b: Cloud, ls: set<Listing>, ms: set<Listing>, next: set<Listing>, ok: bool)
    requires Swept(a, m, ms, true) && Swept(m, b, next, ok) && ls <= ms
    ensures Idle(b, ls)
  {
    forall at | at in b.objects ensures !Doomed(ls, at, b.objects[at]) {
      assert !Doomed(ms, at, m.objects[at]);
    }
  }

  // ---------- creating passes ----------

  type Differ = (Resource, Resource) -> bool

  datatype Desired = Desired(at: Address, resource: Resource)

  /** A stored object that came from writing a desired one. */
  predicate Realises(differs: Differ, o: Resource, desired: Resource) {
    o.labels == desired.labels && !differs(o, desired)
  }

  /** Namespaces are created but never updated; every other kind is updated when it differs. */
  predicate Replaceable(k: Kind) {
    k != Namespace
  }

  predicate SettledAt(differs: Differ, c: Cloud, d: Desired) {
    d.at in c.objects && (Replaceable(d.at.kind) ==> !differs(c.objects[d.at], d.resource))
  }

  ghost predicate Settled(differs: Differ, c: Cloud, ds: set<Desired>) {
    forall d | d in ds :: SettledAt(differs, c, d)
  }

  ghost predicate Distinct(ds: set<Desired>) {
    forall d, e | d in ds && e in ds && d.at == e.at :: d == e
  }

  ghost predicate WrittenFor(differs: Differ, ds: set<Desired>, at: Address, o: Resource) {
    exists d :: d in ds && d.at == at && Realises(differs, o, d.resource)
  }

  /** No object is written that exists and does not differ. */
  ghost predicate LeftAlone(differs: Differ, a: Cloud, b: Cloud, ds: set<Desired>)
    requires a.objects.Keys <= b.objects.Keys
  {
    forall d | d in ds && SettledAt(differs, a, d) :: b.objects[d.at] == a.objects[d.at]
  }

  /**
   What a creating pass may do: objects only appear or are replaced, each written for a desired object;
   existing namespaces are never touched; without error every desired object is present, and up to date when
   no two desired objects share an address, and then what was up to date is left alone; an error means that a
   call failed; a settled cloud is not written to.
   */
  ghost predicate Provisioned(differs: Differ, a: Cloud, b: Cloud, ds: set<Desired>, ok: bool) {
    && b.connected == a.connected
    && a.writes <= b.writes && a.failures <= b.failures && (!ok ==> a.failures < b.failures)
    && a.objects.Keys <= b.objects.Keys
    && (forall at | at in b.objects ::
          (at in a.objects && b.objects[at] == a.objects[at]) || WrittenFor(differs, ds, at, b.objects[at]))
    && (forall at | at in a.objects && !Replaceable(at.kind) :: b.objects[at] == a.objects[at])
    && (ok ==> forall d | d in ds :: d.at in b.objects)
    && (ok && Distinct(ds) ==> Settled(differs, b, ds))
    && (Distinct(ds) ==> LeftAlone(differs, a, b, ds))
    && (Settled(differs, a, ds) ==> Untouched(a, b))
  }

  lemma ProvisionedNothing(differs: Differ, a: Cloud)
    ensures Provisioned(differs, a, a, {}, true)
  {
  }

  lemma ProvisionedThen(differs: Differ, a: Cloud, b: Cloud, c: Cloud, ds: set<Desired>, es: set<Desired>, ok: bool,
                        ok': bool)
    requires Provisioned(differs, a, b, ds, ok) && Provisioned(differs, b, c, es, ok')
    ensures Provisioned(differs, a, c, ds + es, ok && ok')
  {
    forall at | at in c.objects
      ensures (at in a.objects && c.objects[at] == a.objects[at]) || WrittenFor(differs, ds + es, at, c.objects[at])
    {
      if WrittenFor(differs, es, at, c.objects[at]) {
        var d :| d in es && d.at == at && Realises(differs, c.objects[at], d.resource);
        assert d in ds + es;
      } else if WrittenFor(differs, ds, at, c.objects[at]) {
        var d :| d in ds && d.at == at && Realises(differs, c.objects[at], d.resource);
        assert d in ds + es;
      }
    }
    if ok && ok' && Distinct(ds + es) {
      SettledBoth(differs, b, c, ds, es, ok');
    }
    if Distinct(ds + es) {
      LeftAloneBoth(differs, a, b, c, ds, es, ok, ok');
    }
    if Settled(differs, a, ds + es) {
      assert Settled(differs, a, ds);
      assert Settled(differs, b, es);
    }
  }

  lemma SettledBoth(differs: Differ, b: Cloud, c: Cloud, ds: set<Desired>, es: set<Desired>, ok: bool)
    requires ok && Provisioned(differs, b, c, es, ok) && Distinct(ds + es)
    requires Distinct(ds) ==> Settled(differs, b, ds)
    ensures Settled(differs, c, ds + es)
  {
    assert forall d | d in ds || d in es :: d in ds + es;
    assert Distinct(ds) && Distinct(es);
    forall d | d in ds + es ensures SettledAt(differs, c, d) {
      if d in es {
        assert SettledAt(differs, c, d);
      } else {
        assert SettledAt(differs, b, d);
        assert !WrittenFor(differs, es, d.at, c.objects[d.at]);
      }
    }
  }

  lemma LeftAloneBoth(differs: Differ, a: Cloud, b: Cloud, c: Cloud, ds: set<Desired>, es: set<Desired>, ok: bool,
                      ok': bool)
    requires Provisioned(differs, a, b, ds, ok) && Provisioned(differs, b, c, es, ok') && Distinct(ds + es)
    ensures LeftAlone(differs, a, c, ds + es)
  {
    assert forall d | d in ds || d in es :: d in ds + es;
    assert Distinct(ds) && Distinct(es);
    forall d | d in ds + es && SettledAt(differs, a, d) ensures c.objects[d.at] == a.objects[d.at] {
      assert b.objects[d.at] == a.objects[d.at] by {
        assert d !in ds ==> !WrittenFor(differs, ds, d.at, b.objects[d.at]);
      }
      assert SettledAt(differs, b, d);
      assert d !in es ==> !WrittenFor(differs, es, d.at, c.objects[d.at]);
    }
  }

  lemma ProvisionedStopped(differs: Differ, a: Cloud, b: Cloud, ds: set<Desired>, es: set<Desired>)
    requires Provisioned(differs, a, b, ds, false) && ds <= es
    ensures Provisioned(differs, a, b, es, false)
  {
    forall at | at in b.objects && WrittenFor(differs, ds, at, b.objects[at])
      ensures WrittenFor(differs, es, at, b.objects[at])
    {
      var d :| d in ds && d.at == at && Realises(differs, b.objects[at], d.resource);
      assert d in es;
    }
    if Settled(differs, a, es) {
      assert Settled(differs, a, ds);
    }
  }

  // ---------- passes that all run, whatever fails ----------

  /** Creating passes in order, none skipped; failed are the numbers of those that ended with an error. */
  ghost predicate ProvisionedEach(differs: Differ, a: Cloud, b: Cloud, ps: seq<set<Desired>>, failed: set<nat>)
    decreases |ps|
  {
    if ps == [] then Untouched(a, b) && failed == {}
    else
      var k := |ps| - 1;
      exists m, ok ::
        && ProvisionedEach(differs, a, m, ps[..k], failed - {k}) && Provisioned(differs, m, b, ps[k], ok)
        && ok == (k !in failed)
  }

  /** Deleting passes in order, none skipped. */
  ghost predicate SweptEach(a: Cloud, b: Cloud, ps: seq<set<Listing>>, failed: set<nat>)
    decreases |ps|
  {
    if ps == [] then Untouched(a, b) && failed == {}
    else
      var k := |ps| - 1;
      exists m, ok :: SweptEach(a, m, ps[..k], failed - {k}) && Swept(m, b, ps[k], ok) && ok == (k !in failed)
  }

  ghost predicate Below(failed: set<nat>, k: nat) {
    forall i | i in failed :: i < k
  }

  /** The passes so far and one more. */
  ghost function More(failed: set<nat>, k: nat, ok: bool): set<nat> {
    if ok then failed else failed + {k}
  }

  lemma ProvisionedNext(differs: Differ, a: Cloud, m: Cloud, b: Cloud, ps: seq<set<Desired>>, k: nat,
                        failed: set<nat>, ok: bool)
    requires k < |ps| && ProvisionedEach(differs, a, m, ps[..k], failed) && Provisioned(differs, m, b, ps[k], ok)
    requires Below(failed, k)
    ensures ProvisionedEach(differs, a, b, ps[..k + 1], More(failed, k, ok)) && Below(More(failed, k, ok), k + 1)
  {
    hide Provisioned;
    assert ps[..k + 1][..k] == ps[..k] && More(failed, k, ok) - {k} == failed;
  }

  lemma SweptNext(a: Cloud, m: Cloud, b: Cloud, ps: seq<set<Listing>>, k: nat, failed: set<nat>, ok: bool)
    requires k < |ps| && SweptEach(a, m, ps[..k], failed) && Swept(m, b, ps[k], ok) && Below(failed, k)
    ensures SweptEach(a, b, ps[..k + 1], More(failed, k, ok)) && Below(More(failed, k, ok), k + 1)
  {
    hide Swept;
    assert ps[..k + 1][..k] == ps[..k] && More(failed, k, ok) - {k} == failed;
  }

  ghost function AllDesired(ps: seq<set<Desired>>): set<Desired> {
    set i, d | 0 <= i < |ps| && d in ps[i] :: d
  }

  lemma LastProvisioned(differs: Differ, a: Cloud, b: Cloud, ps: seq<set<Desired>>, failed: set<nat>)
    returns (m: Cloud, ok: bool)
    requires ps != [] && ProvisionedEach(differs, a, b, ps, failed)
    ensures ProvisionedEach(differs, a, m, ps[..|ps| - 1], failed - {|ps| - 1})
    ensures Provisioned(differs, m, b, ps[|ps| - 1], ok) && ok == (|ps| - 1 !in failed)
  {
    hide Provisioned;
    var k := |ps| - 1;
    m, ok :| && ProvisionedEach(differs, a, m, ps[..k], failed - {k}) && Provisioned(differs, m, b, ps[k], ok)
             && ok == (k !in failed);
  }

  lemma LastDesired(ps: seq<set<Desired>>)
    requires ps != []
    ensures AllDesired(ps) == AllDesired(ps[..|ps| - 1]) + ps[|ps| - 1]
  {
  }

  /** Creating passes that all run do together what one pass over all their objects may do. */
  lemma {:induction false} EachProvisioned(differs: Differ, a: Cloud, b: Cloud, ps: seq<set<Desired>>, failed: set<nat>)
    requires ProvisionedEach(differs, a, b, ps, failed)
    ensures Provisioned(differs, a, b, AllDesired(ps), failed == {})
    decreases |ps|
  {
    if ps == [] {
      assert AllDesired(ps) == {};
    } else {
      hide Provisioned, ProvisionedEach, AllDesired;
      var m, ok := LastProvisioned(differs, a, b, ps, failed);
      var earlier, before := ps[..|ps| - 1], failed - {|ps| - 1};
      EachProvisioned(differs, a, m, earlier, before);
      LastDesired(ps);
      ProvisionedThen(differs, a, m, b, AllDesired(earlier), ps[|ps| - 1], before == {}, ok);
    }
  }

  /** No two desired objects of any passes share an address. */
  ghost predicate AllDistinct(ps: seq<set<Desired>>) {
    forall i, j, d, e | 0 <= i < |ps| && 0 <= j < |ps| && d in ps[i] && e in ps[j] && d.at == e.at :: d == e
  }

  /** Each failing call costs at most one creating pass; all others are settled in the end. */
  lemma {:induction false} EachSettles(differs: Differ, a: Cloud, b: Cloud, ps: seq<set<Desired>>, failed: set<nat>)
    requires ProvisionedEach(differs, a, b, ps, failed) && AllDistinct(ps)
    ensures b.connected == a.connected && a.failures + |failed| <= b.failures
    ensures forall i | 0 <= i < |ps| && i !in failed :: Settled(differs, b, ps[i])
    decreases |ps|
  {
    if ps != [] {
      hide Provisioned, Settled, AllDistinct, ProvisionedEach;
      var m, ok := LastProvisioned(differs, a, b, ps, failed);
      DistinctPrefix(ps, |ps| - 1);
      EachSettles(differs, a, m, ps[..|ps| - 1], failed - {|ps| - 1});
      LastSettles(differs, m, b, ps, failed, ok);
      OneMore(failed, |ps| - 1, ok);
    }
  }

  lemma LastSettles(differs: Differ, m: Cloud, b: Cloud, ps: seq<set<Desired>>, failed: set<nat>, ok: bool)
    requires ps != [] && Provisioned(differs, m, b, ps[|ps| - 1], ok) && ok == (|ps| - 1 !in failed) && AllDistinct(ps)
    requires forall i | 0 <= i < |ps| - 1 && i !in failed :: Settled(differs, m, ps[..|ps| - 1][i])
    ensures forall i | 0 <= i < |ps| && i !in failed :: Settled(differs, b, ps[i])
    ensures b.connected == m.connected && m.failures + (if ok then 0 else 1) <= b.failures
  {
    hide Provisioned, Settled, AllDistinct;
    DistinctPrefix(ps, |ps| - 1);
    ProvisionedCost(differs, m, b, ps[|ps| - 1], ok);
    forall i | 0 <= i < |ps| - 1 && i !in failed ensures Settled(differs, b, ps[i]) {
      assert Settled(differs, m, ps[..|ps| - 1][i]);
      DistinctTwo(ps, i, |ps| - 1);
      OthersStaySettled(differs, m, b, ps[i], ps[|ps| - 1], ok);
    }
  }

  lemma OneMore(failed: set<nat>, k: nat, ok: bool)
    requires ok == (k !in failed)
    ensures |failed| == |failed - {k}| + if ok then 0 else 1
  {
    assert failed == if ok then failed - {k} else (failed - {k}) + {k};
  }

  lemma ProvisionedCost(differs: Differ, a: Cloud, b: Cloud, ds: set<Desired>, ok: bool)
    requires Provisioned(differs, a, b, ds, ok)
    ensures b.connected == a.connected && a.failures + (if ok then 0 else 1) <= b.failures
    ensures ok && Distinct(ds) ==> Settled(differs, b, ds)
  {
  }

  lemma DistinctTwo(ps: seq<set<Desired>>, i: nat, k: nat)
    requires AllDistinct(ps) && i < |ps| && k < |ps|
    ensures forall d, e | d in ps[i] && e in ps[k] && d.at == e.at :: d == e
  {
  }

  lemma DistinctPrefix(ps: seq<set<Desired>>, k: nat)
    requires AllDistinct(ps) && k < |ps|
    ensures AllDistinct(ps[..k]) && Distinct(ps[k])
  {
  }

  lemma OthersStaySettled(differs: Differ, a: Cloud, b: Cloud, ds: set<Desired>, es: set<Desired>, ok: bool)
    requires Provisioned(differs, a, b, es, ok) && Settled(differs, a, ds)
    requires forall d, e | d in ds && e in es && d.at == e.at :: d == e
    ensures Settled(differs, b, ds)
  {
    forall d | d in ds ensures SettledAt(differs, b, d) {
      assert SettledAt(differs, a, d);
    }
  }

  lemma LastSwept(a: Cloud, b: Cloud, ps: seq<set<Listing>>, failed: set<nat>) returns (m: Cloud, ok: bool)
    requires ps != [] && SweptEach(a, b, ps, failed)
    ensures SweptEach(a, m, ps[..|ps| - 1], failed - {|ps| - 1}) && Swept(m, b, ps[|ps| - 1], ok)
    ensures ok == (|ps| - 1 !in failed)
  {
    hide Swept;
    var k := |ps| - 1;
    m, ok :| SweptEach(a, m, ps[..k], failed - {k}) && Swept(m, b, ps[k], ok) && ok == (k !in failed);
  }

  lemma LastListings(ps: seq<set<Listing>>)
    requires ps != []
    ensures AllOf(ps) == AllOf(ps[..|ps| - 1]) + ps[|ps| - 1]
  {
  }

  /** Deleting passes that all run do together what one pass over all their listings may do. */
  lemma {:induction false} EachSwept(a: Cloud, b: Cloud, ps: seq<set<Listing>>, failed: set<nat>)
    requires SweptEach(a, b, ps, failed)
    ensures Swept(a, b, AllOf(ps), failed == {}) && a.failures + |failed| <= b.failures
    decreases |ps|
  {
    if ps == [] {
      assert AllOf(ps) == {};
    } else {
      hide Swept, SweptEach, AllOf;
      var m, ok := LastSwept(a, b, ps, failed);
      var earlier, before := ps[..|ps| - 1], failed - {|ps| - 1};
      EachSwept(a, m, earlier, before);
      LastListings(ps);
      SweptThen(a, m, b, AllOf(earlier), ps[|ps| - 1], before == {}, ok);
      SweptCost(m, b, ps[|ps| - 1], ok);
      OneMore(failed, |ps| - 1, ok);
    }
  }

  lemma SweptCost(a: Cloud, b: Cloud, ls: set<Listing>, ok: bool)
    requires Swept(a, b, ls, ok)
    ensures a.failures + (if ok then 0 else 1) <= b.failures && (ok ==> Idle(b, ls))
  {
  }

  lemma StillIdle(a: Cloud, b: Cloud, ls: set<Listing>, ms: set<Listing>, ok: bool)
    requires Swept(a, b, ls, ok) && Idle(a, ms)
    ensures Idle(b, ms)
  {
  }

  /** Each failing call costs at most one deleting pass; nothing is left for the others to delete. */
  lemma {:induction false} EachIdles(a: Cloud, b: Cloud, ps: seq<set<Listing>>, failed: set<nat>)
    requires SweptEach(a, b, ps, failed)
    ensures forall i | 0 <= i < |ps| && i !in failed :: Idle(b, ps[i])
    decreases |ps|
  {
    if ps != [] {
      hide Swept, Idle, SweptEach;
      var m, ok := LastSwept(a, b, ps, failed);
      EachIdles(a, m, ps[..|ps| - 1], failed - {|ps| - 1});
      LastIdle(m, b, ps, failed, ok);
    }
  }

  lemma LastIdle(m: Cloud, b: Cloud, ps: seq<set<Listing>>, failed: set<nat>, ok: bool)
    requires ps != [] && Swept(m, b, ps[|ps| - 1], ok) && ok == (|ps| - 1 !in failed)
    requires forall i | 0 <= i < |ps| - 1 && i !in failed :: Idle(m, ps[..|ps| - 1][i])
    ensures forall i | 0 <= i < |ps| && i !in failed :: Idle(b, ps[i])
  {
    hide Swept, Idle;
    SweptCost(m, b, ps[|ps| - 1], ok);
    forall i | 0 <= i < |ps| - 1 && i !in failed ensures Idle(b, ps[i]) {
      assert Idle(m, ps[..|ps| - 1][i]);
      StillIdle(m, b, ps[|ps| - 1], ps[i], ok);
    }
  }

  // ---------- passes without a failing call ----------

  /** The objects an error-free pass leaves: all but the doomed ones. */
  ghost function Survivors(c: Cloud, ls: set<Listing>): map<Address, Resource> {
    map at | at in c.objects && !Doomed(ls, at, c.objects[at]) :: c.objects[at]
  }

  /** From every state a deleting pass can end without error. */
  lemma CanSweep(a: Cloud, ls: set<Listing>) returns (b: Cloud)
    ensures Swept(a, b, ls, true) && b.failures == a.failures
  {
    b := if Idle(a, ls) then a else a.(objects := Survivors(a, ls), writes := a.writes + 1);
  }

  lemma {:induction false} CanSweepInOrder(a: Cloud, ps: seq<set<Listing>>) returns (b: Cloud)
    ensures SweptInOrder(a, b, ps, true) && b.failures == a.failures
    decreases |ps|
  {
    hide Swept;
    b := a;
    if ps != [] {
      var m := CanSweepInOrder(a, ps[..|ps| - 1]);
      b := CanSweep(m, ps[|ps| - 1]);
    }
  }

  lemma {:induction false} CanSweepEach(a: Cloud, ps: seq<set<Listing>>) returns (b: Cloud)
    ensures SweptEach(a, b, ps, {}) && b.failures == a.failures
    decreases |ps|
  {
    hide Swept;
    b := a;
    if ps != [] {
      var k := |ps| - 1;
      var m := CanSweepEach(a, ps[..k]);
      b := CanSweep(m, ps[k]);
      assert {} - {k} == {};
    }
  }

  ghost predicate Missing(differs: Differ, a: Cloud, ds: set<Desired>, at: Address, d: Desired) {
    d in ds && d.at == at && !SettledAt(differs, a, d)
  }

  /** What a pass that writes each desired object at most once leaves at an address. */
  ghost function Content(differs: Differ, a: Cloud, ds: set<Desired>, at: Address): Resource
    requires at in a.objects || exists d :: Missing(differs, a, ds, at, d)
  {
    if exists d :: Missing(differs, a, ds, at, d) then
      var d :| Missing(differs, a, ds, at, d);
      d.resource
    else a.objects[at]
  }

  ghost predicate ContentAt(differs: Differ, a: Cloud, ds: set<Desired>, at: Address, o: Resource) {
    || (at in a.objects && o == a.objects[at] && forall d :: !Missing(differs, a, ds, at, d))
    || exists d :: Missing(differs, a, ds, at, d) && o == d.resource
  }

  /** From every state a creating pass can end without error. */
  lemma CanProvision(differs: Differ, a: Cloud, ds: set<Desired>) returns (b: Cloud)
    requires forall o: Resource :: !differs(o, o)
    ensures Provisioned(differs, a, b, ds, true) && b.failures == a.failures
  {
    if Settled(differs, a, ds) {
      b := a;
    } else {
      forall d | d in ds && d.at !in a.objects ensures Missing(differs, a, ds, d.at, d) {
      }
      hide Provisioned, Missing, Settled;
      var objects := map at | at in a.objects.Keys + set d | d in ds :: d.at :: Content(differs, a, ds, at);
      b := a.(objects := objects, writes := a.writes + 1);
      WrittenOnce(differs, a, b, ds);
    }
  }

  lemma {:induction false} CanProvisionEach(differs: Differ, a: Cloud, ps: seq<set<Desired>>) returns (b: Cloud)
    requires forall o: Resource :: !differs(o, o)
    ensures ProvisionedEach(differs, a, b, ps, {}) && b.failures == a.failures
    decreases |ps|
  {
    hide Provisioned;
    b := a;
    if ps != [] {
      var k := |ps| - 1;
      var m := CanProvisionEach(differs, a, ps[..k]);
      b := CanProvision(differs, m, ps[k]);
      assert {} - {k} == {};
    }
  }

  lemma WrittenOnce(differs: Differ, a: Cloud, b: Cloud, ds: set<Desired>)
    requires (forall o: Resource :: !differs(o, o)) && !Settled(differs, a, ds)
    requires b == a.(objects := b.objects, writes := a.writes + 1)
    requires b.objects.Keys == a.objects.Keys + set d | d in ds :: d.at
    requires forall at | at in b.objects :: ContentAt(differs, a, ds, at, b.objects[at])
    ensures Provisioned(differs, a, b, ds, true)
  {
    hide Settled;
    forall at | at in b.objects
      ensures (at in a.objects && b.objects[at] == a.objects[at]) || WrittenFor(differs, ds, at, b.objects[at])
    {
      if d :| Missing(differs, a, ds, at, d) && b.objects[at] == d.resource {
        assert Realises(differs, b.objects[at], d.resource);
      }
    }
    if Distinct(ds) {
      forall d | d in ds ensures SettledAt(differs, b, d) {
        if e :| Missing(differs, a, ds, d.at, e) && b.objects[d.at] == e.resource {
          assert e == d;
        } else {
          assert !Missing(differs, a, ds, d.at, d);
        }
      }
      assert Settled(differs, b, ds) by { SettledAll(differs, b, ds); }
    }
  }

  lemma SettledAll(differs: Differ, b: Cloud, ds: set<Desired>)
    requires forall d | d in ds :: SettledAt(differs, b, d)
    ensures Settled(differs, b, ds)
  {
  }
}

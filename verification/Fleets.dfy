/**
 The API servers the operator talks to: the management cluster and the managed clusters it has a
 connection to. Lists read the current objects; every call may fail, a failing write may or may not
 have taken effect.
 */
module Fleets {
  import opened Labels
  import opened Clouds
  import opened Types

  ghost predicate NoRepeats(s: seq<string>) {
    forall i, j | 0 <= i < j < |s| :: s[i] != s[j]
  }

  class Fleet {
    const differs: Differ
    var objects: map<Address, Resource>
    var connected: set<string>
    var writes: nat
    var failures: nat
    /** Connections read-locked by the running call. */
    var held: set<string>

    /** What was just written shows no difference from what was asked for. */
    ghost predicate Valid() {
      forall o: Resource :: !differs(o, o)
    }

    ghost function View(): Cloud
      reads this
    {
      Cloud(objects, connected, writes, failures)
    }

    /** The read locks to release when the running call returns. */
    ghost predicate Holds(deferred: seq<string>)
      reads this
    {
      NoRepeats(deferred) && forall c :: c in deferred <==> c in held
    }

    constructor (differs: Differ, objects: map<Address, Resource>)
      requires forall o: Resource :: !differs(o, o)
      ensures Valid() && this.differs == differs && held == {}
      ensures View() == Cloud(objects, {}, 0, 0)
    {
      this.differs := differs;
      this.objects := objects;
      connected, writes, failures, held := {}, 0, 0, {};
    }

    /** Read-lock a connection and defer its release; a connection may be locked only once in a call. */
    method RLock(c: string, deferred: seq<string>) returns (deferred': seq<string>)
      requires c in connected && c !in held && Holds(deferred)
      modifies this`held
      ensures held == old(held) + {c} && deferred' == deferred + [c] && Holds(deferred')
    {
      held := held + {c};
      deferred' := deferred + [c];
    }

    /** The deferred releases run in reverse order when the call returns. */
    method RunDeferred(deferred: seq<string>)
      requires Holds(deferred)
      modifies this`held
      ensures held == {}
    {
      var i := |deferred|;
      while i > 0
        invariant 0 <= i <= |deferred|
        invariant Holds(deferred[..i])
      {
        i := i - 1;
        assert deferred[i] in deferred[..i + 1];
        held := held - {deferred[i]};
      }
    }

    /** A call returns, with or without an error. */
    method Outcome() returns (ok: bool)
      modifies this`failures
      ensures failures == old(failures) + if ok then 0 else 1
    {
      ok := *;
      if !ok {
        failures := failures + 1;
      }
    }

    /** Objects of the management cluster may be changed in any way by the local passes. */
    method ChangeLocally()
      modifies this`objects
      ensures AgreeOnManaged(old(objects), objects)
    {
      var changed: map<Address, Resource> := *;
      objects := (map at | at in objects && at.site.Managed? :: objects[at])
                 + (map at | at in changed && at.site.Management? :: changed[at]);
    }

    /** One delete request; the object is known to exist. */
    method Delete(at: Address) returns (ok: bool)
      modifies this`objects, this`writes, this`failures
      ensures writes == old(writes) + 1 && failures == old(failures) + if ok then 0 else 1
      ensures objects == old(objects) || objects == old(objects) - {at}
      ensures ok ==> objects == old(objects) - {at}
    {
      writes := writes + 1;
      ok := Outcome();
      var applied: bool := *;
      if ok || applied {
        objects := objects - {at};
      }
    }

    /** Delete what was found and is not spared; with wait, watch each deleted object disappear, which may time out. */
    method DeleteFound(found: set<Address>, spared: seq<string>, wait: bool) returns (ok: bool)
      requires found <= objects.Keys
      modifies this`objects, this`writes, this`failures
      ensures old(writes) <= writes && failures == old(failures) + if ok then 0 else 1
      ensures forall at | at in objects :: at in old(objects) && objects[at] == old(objects)[at]
      ensures forall at | at in old(objects) && at !in objects :: at in found && at.name !in spared
      ensures ok ==> forall at | at in found && at in objects :: at.name in spared
      ensures (forall at | at in found :: at.name in spared) ==> objects == old(objects) && writes == old(writes)
    {
      ok := true;
      ghost var start, gone := objects, {};
      var todo := found;
      while todo != {} && ok
        invariant todo <= found && gone <= found && objects == start - gone
        invariant forall at | at in gone :: at.name !in spared
        invariant ok ==> todo !! gone && forall at | at in found - gone - todo :: at.name in spared
        invariant (forall at | at in found :: at.name in spared) ==> gone == {} && writes == old(writes)
        invariant old(writes) <= writes && failures == old(failures) + if ok then 0 else 1
        decreases todo, ok
      {
        var at :| at in todo;
        todo := todo - {at};
        var keep := Contains(spared, at.name);
        if !keep {
          ok := Delete(at);
          gone := gone + if at in objects then {} else {at};
          if ok && wait {
            ok := Outcome();
          }
        }
      }
    }

    /** List by kind and selector, then delete what is not spared. */
    method DeleteListed(l: Listing, wait: bool) returns (ok: bool)
      requires l.site.Managed? ==> l.site.cluster in held && l.site.cluster in connected
      modifies this`objects, this`writes, this`failures
      ensures Swept(old(View()), View(), {l}, ok)
    {
      hide Swept, Matches;
      ghost var a := View();
      ok := Outcome();
      if ok {
        var found := set at | at in objects && at.site == l.site && at.kind == l.kind
            && Matches(l.selector, objects[at].labels);
        ok := DeleteFound(found, l.spared, wait);
      }
      SweptOne(a, View(), l, ok);
    }

    /**
     Write the object if it is missing, or if it differs and its kind is updated in place. The server
     may complete what it stores, within what the comparison ignores.
     */
    method Upsert(d: Desired) returns (ok: bool)
      requires Valid()
      requires d.at.site.Managed? && d.at.site.cluster in held && d.at.site.cluster in connected
      modifies this`objects, this`writes, this`failures
      ensures Provisioned(differs, old(View()), View(), {d}, ok)
    {
      ok := true;
      if d.at !in objects || (Replaceable(d.at.kind) && differs(objects[d.at], d.resource)) {
        writes := writes + 1;
        ok := Outcome();
        var applied: bool := *;
        if ok || applied {
          var content: string := *;
          var stored := Resource(d.resource.labels, content);
          if differs(stored, d.resource) {
            stored := d.resource;
          }
          assert Realises(differs, stored, d.resource);
          objects := objects[d.at := stored];
          assert WrittenFor(differs, {d}, d.at, stored);
        }
        assert !SettledAt(differs, old(View()), d);
        assert !Settled(differs, old(View()), {d});
      }
    }
  }

  /** Two states that agree on everything outside the management cluster. */
  ghost predicate AgreeOnManaged(a: map<Address, Resource>, b: map<Address, Resource>) {
    && (forall at | at in a && at.site.Managed? :: at in b && b[at] == a[at])
    && (forall at | at in b && at.site.Managed? :: at in a)
  }
}

/** How many unchanged events a binding needs before it is synced or paired. */
module Throttle {
  import opened Labels
  import opened Clouds
  import opened Types
  import opened Location
  import opened Machine
  import opened Isolation

  predicate PlainAdd(e: Event, n: string) {
    e.AddBinding? && e.binding.name == n && !e.binding.deleting
  }

  /** An add event for binding n that brings nothing new. */
  predicate Tick(s: State, e: Event, n: string) {
    PlainAdd(e, n) && Unchanged(s, e.binding)
  }

  predicate Passes(s: State, e: Event, n: string) {
    Tick(s, e, n) && !Throttled(s, e.binding)
  }

  ghost function Ticks(states: seq<State>, events: seq<Event>, n: string): nat
    requires |states| == |events| + 1
  {
    if events == [] then 0
    else
      var k := |events| - 1;
      Ticks(states[..k + 1], events[..k], n) + if Tick(states[k], events[k], n) then 1 else 0
  }

  ghost function Passed(states: seq<State>, events: seq<Event>, n: string): nat
    requires |states| == |events| + 1
  {
    if events == [] then 0
    else
      var k := |events| - 1;
      Passed(states[..k + 1], events[..k], n) + if Passes(states[k], events[k], n) then 1 else 0
  }

  lemma AddCounter(differs: Differ, s: State, b: SyntheticBinding, s': State, n: string)
    requires BindingAdded(differs, s, b, s') && n in s.bindings && n in s'.bindings
    ensures if Tick(s, AddBinding(b), n) then
              n in s'.counters && s'.counters[n]
                  == (if n in s.counters && s.counters[n] < 4 then s.counters[n] + 1 else 0)
            else (n in s'.counters <==> n in s.counters) && (n in s.counters ==> s'.counters[n] == s.counters[n])
  {
    hide BindingAdded, PairOf;
    if b.deleting {
      DeletingAddMaps(differs, s, b, s');
    } else {
      PlainAddMaps(differs, s, b, s');
    }
  }

  /** A binding that stays known: only a tick touches its counter. */
  lemma StepCounter(differs: Differ, s: State, e: Event, s': State, n: string)
    requires Inv(s) && Step(differs, s, e, s') && n in s.bindings && n in s'.bindings
    ensures if Tick(s, e, n) then
              n in s'.counters && s'.counters[n]
                  == (if n in s.counters && s.counters[n] < 4 then s.counters[n] + 1 else 0)
            else (n in s'.counters <==> n in s.counters) && (n in s.counters ==> s'.counters[n] == s.counters[n])
  {
    hide BindingAdded, BindingDeleted, ClusterConnected, PairOf, BuiltFor, Inv;
    match e
    case AddModel(m) =>
    case DeleteModel(m) =>
    case AddBinding(b) =>
      AddCounter(differs, s, b, s', n);
    case DeleteBinding(b) =>
      DeletedMaps(s, b, s');
    case Connect(c) =>
      ConnectMaps(differs, s, c, s');
  }

  lemma ConnectMaps(differs: Differ, s: State, c: string, s': State)
    requires ClusterConnected(differs, s, c, s')
    ensures s' == s.(cloud := s'.cloud)
  {
  }

  /**
   The throttle in closed form. While binding n stays known, its counter after t >= 1 unchanged
   events is (t - 1) mod 5, and (t - 1) div 5 of them passed the throttle, whatever other events,
   changed ones for n included, come in between.
   */
  lemma {:induction false} ThrottleClosedForm(differs: Differ, states: seq<State>, events: seq<Event>, n: string)
    requires Run(differs, states, events) && Inv(states[0]) && n !in states[0].counters
    requires forall i | 0 <= i < |states| :: n in states[i].bindings
    ensures Inv(states[|events|])
    ensures var t, s := Ticks(states, events, n), states[|events|];
            if t == 0 then n !in s.counters && Passed(states, events, n) == 0
            else n in s.counters && s.counters[n] == (t - 1) % 5 && Passed(states, events, n) == (t - 1) / 5
  {
    hide Step, Inv, Unchanged;
    if events != [] {
      var k := |events| - 1;
      ThrottleClosedForm(differs, states[..k + 1], events[..k], n);
      assert Step(differs, states[k], events[k], states[k + 1]);
      StepCounter(differs, states[k], events[k], states[k + 1], n);
      StepKeepsInv(differs, states[k], events[k], states[k + 1]);
    }
  }

  // ---------- pairing ----------

  /** Unchanged events left until the throttle lets one through. */
  function Budget(s: State, n: string): int {
    if n in s.counters then
      var c: int := s.counters[n];
      5 - c
    else 6
  }

  predicate Deletes(e: Event, n: string) {
    (e.DeleteBinding? && e.binding.name == n) || (e.AddBinding? && e.binding.name == n && e.binding.deleting)
  }

  predicate ModelKnownFor(s: State, e: Event, n: string) {
    PlainAdd(e, n) ==> e.binding.modelName in s.models
  }

  lemma AddPairs(differs: Differ, s: State, b: SyntheticBinding, s': State, n: string)
    requires BindingAdded(differs, s, b, s') && n in s.bindings
              && (b.name == n ==> !b.deleting && b.modelName in s.models)
    ensures n in s'.bindings
    ensures n in s.pairs ==> n in s'.pairs
    ensures b.name == n && !Throttled(s, b) ==> n in s'.pairs
  {
    hide BindingAdded, PairOf;
    if b.deleting {
      DeletingAddMaps(differs, s, b, s');
    } else {
      PlainAddMaps(differs, s, b, s');
    }
  }

  /** Without a deletion a pair stays, and a passing or changed event makes one if the model is known. */
  lemma StepPairs(differs: Differ, s: State, e: Event, s': State, n: string)
    requires Inv(s) && Step(differs, s, e, s') && n in s.bindings && !Deletes(e, n) && ModelKnownFor(s, e, n)
    ensures n in s'.bindings
    ensures n in s.pairs ==> n in s'.pairs
    ensures PlainAdd(e, n) && (Tick(s, e, n) ==> Passes(s, e, n)) ==> n in s'.pairs
  {
    hide BindingAdded, BindingDeleted, ClusterConnected, PairOf, BuiltFor, Inv;
    match e
    case AddModel(m) =>
    case DeleteModel(m) =>
    case AddBinding(b) =>
      AddPairs(differs, s, b, s', n);
    case DeleteBinding(b) =>
      DeletedMaps(s, b, s');
    case Connect(c) =>
      ConnectMaps(differs, s, c, s');
  }

  /**
   Bounded pairing: if binding n is known, each of its events finds its model known and nothing
   deletes it, then six unchanged events (5 - c of them when counter c is stored) are enough to have a pair,
   whatever else happens in between.
   */
  lemma {:induction false} BoundedPairing(differs: Differ, states: seq<State>, events: seq<Event>, n: string)
    requires Run(differs, states, events) && Inv(states[0]) && n in states[0].bindings
    requires forall i | 0 <= i < |events| :: !Deletes(events[i], n) && ModelKnownFor(states[i], events[i], n)
    ensures Inv(states[|events|]) && n in states[|events|].bindings
    ensures n in states[|events|].pairs
              || Budget(states[|events|], n) + Ticks(states, events, n) == Budget(states[0], n)
    ensures Ticks(states, events, n) >= Budget(states[0], n) ==> n in states[|events|].pairs
  {
    hide Step, Unchanged, Inv;
    if events == [] {
      BudgetPositive(states[0], n);
    } else {
      var k := |events| - 1;
      BoundedPairing(differs, states[..k + 1], events[..k], n);
      assert Step(differs, states[k], events[k], states[k + 1]);
      StepPairs(differs, states[k], events[k], states[k + 1], n);
      StepCounter(differs, states[k], events[k], states[k + 1], n);
      StepKeepsInv(differs, states[k], events[k], states[k + 1]);
      BudgetPositive(states[k + 1], n);
    }
  }

  lemma BudgetPositive(s: State, n: string)
    requires Inv(s)
    ensures 1 <= Budget(s, n) <= 6
  {
    hide BuiltFor;
  }

  /** The bound is exact: fed only unchanged events, a waiting binding is paired by the Budget-th and not before. */
  lemma {:induction false} PairingIsExact(differs: Differ, states: seq<State>, events: seq<Event>, n: string)
    requires Run(differs, states, events) && Inv(states[0]) && n in states[0].bindings && n !in states[0].pairs
    requires forall i | 0 <= i < |events| :: Tick(states[i], events[i], n) && ModelKnownFor(states[i], events[i], n)
    ensures Ticks(states, events, n) == |events|
    ensures n in states[|events|].pairs <==> |events| >= Budget(states[0], n)
  {
    hide Step, Unchanged, Inv, Throttled;
    BoundedPairing(differs, states, events, n);
    if events != [] {
      var k := |events| - 1;
      PairingIsExact(differs, states[..k + 1], events[..k], n);
      BoundedPairing(differs, states[..k + 1], events[..k], n);
      assert Step(differs, states[k], events[k], states[k + 1]);
      if n !in states[k].pairs {
        ThrottledStep(differs, states[k], events[k], states[k + 1], n);
      }
    }
  }

  lemma ThrottledStep(differs: Differ, s: State, e: Event, s': State, n: string)
    requires Inv(s) && Step(differs, s, e, s') && Tick(s, e, n) && n !in s.pairs
    ensures n in s'.pairs ==> Budget(s, n) == 1
  {
    hide BindingAdded, PairOf, BuiltFor;
    PlainAddMaps(differs, s, e.binding, s');
  }

  /** One accepted model event pairs exactly one waiting binding if there is one, and touches no other pair. */
  lemma ModelPairsOne(s: State, model: SyntheticModel, s': State)
    requires ModelAdded(s, model, s') && !KnownModel(s, model)
    ensures forall n | n in s.pairs :: n in s'.pairs && s'.pairs[n] == s.pairs[n]
    ensures forall n | n in s'.pairs && n !in s.pairs ::
              Waiting(s, n, model) && s'.pairs[n] == PairOf(model, s.bindings[n])
    ensures |s'.pairs.Keys - s.pairs.Keys| == if exists n :: Waiting(s, n, model) then 1 else 0
  {
    hide PairOf;
    if n :| Waiting(s, n, model) && s'.pairs == s.pairs[n := PairOf(model, s.bindings[n])] {
      OneNewKey(s.pairs, n, s'.pairs[n]);
    } else {
      assert s'.pairs.Keys - s.pairs.Keys == {};
    }
  }

  lemma OneNewKey(pairs: map<string, Pair>, n: string, pair: Pair)
    requires n !in pairs
    ensures |pairs[n := pair].Keys - pairs.Keys| == 1
  {
    assert pairs[n := pair].Keys - pairs.Keys == {n};
  }
}

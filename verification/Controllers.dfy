/** The controller: its maps and the four event handlers, each proved against a step of the machine. */
module Controllers {
  import opened Labels
  import opened Clouds
  import opened Types
  import opened Connections
  import opened Passes
  import opened Location
  import opened Fleets
  import opened Machine
  import Managed

  class Controller {
    const fleet: Fleet
    var models: map<string, SyntheticModel>
    var bindings: map<string, SyntheticBinding>
    var pairs: map<string, SyntheticModelBinding>
    var counters: map<string, nat>

    function Pairs(): map<string, Pair>
      reads this`pairs, pairs.Values
    {
      map n | n in pairs :: pairs[n].View()
    }

    ghost function View(): State
      reads this, fleet, pairs.Values
    {
      State(models, bindings, Pairs(), counters, fleet.View())
    }

    /** No two keys share a pair object, and no handler leaves a lock taken. */
    ghost predicate Separate()
      reads this`pairs, pairs.Values, set p | p in pairs.Values :: p.lock
    {
      && (forall m, n | m in pairs && n in pairs && m != n :: pairs[m] != pairs[n])
      && (forall n | n in pairs :: !pairs[n].lock.locked)
    }

    ghost predicate Valid()
      reads this, fleet, pairs.Values, set p | p in pairs.Values :: p.lock
    {
      fleet.Valid() && fleet.held == {} && Separate() && Inv(View())
    }

    constructor (fleet: Fleet)
      requires fleet.Valid() && fleet.held == {} && fleet.connected == {}
      ensures Valid() && Initial(View()) && this.fleet == fleet
    {
      this.fleet := fleet;
      models, bindings, pairs, counters := map[], map[], map[], map[];
    }

    /** Build a pair and enter it under its binding's name. */
    method AddPair(model: SyntheticModel, binding: SyntheticBinding)
      requires Separate()
      modifies this`pairs
      ensures Separate() && Pairs() == old(Pairs())[binding.name := PairOf(model, binding)]
    {
      hide PairOf;
      var pair := CreateSyntheticModelBinding(model, binding);
      pairs := pairs[binding.name := pair];
    }

    // ---------- models ----------

    /** Pair the model with the first binding found waiting for it. */
    method PairWaitingBinding(model: SyntheticModel)
      requires Separate() && forall n | n in bindings :: bindings[n].name == n
      modifies this`pairs
      ensures Separate()
      ensures (forall n :: !Waiting(old(View()), n, model)) ==> View() == old(View())
      ensures (exists n :: Waiting(old(View()), n, model)) ==>
                exists n :: Waiting(old(View()), n, model) && n in bindings
                            && View() == old(View()).(pairs := old(Pairs())[n := PairOf(model, bindings[n])])
    {
      hide PairOf;
      ghost var s := View();
      var todo := bindings.Keys;
      while todo != {}
        invariant todo <= bindings.Keys
        invariant pairs == old(pairs)
        invariant forall n | n in bindings.Keys - todo :: !Waiting(s, n, model)
      {
        var n :| n in todo;
        todo := todo - {n};
        if bindings[n].name !in pairs && model.name == bindings[n].modelName {
          assert Waiting(s, n, model);
          AddPair(model, bindings[n]);
          return;
        }
      }
    }

    method ProcessApplicationModelAdded(model: SyntheticModel)
      requires Valid()
      modifies this
      ensures Valid() && ModelAdded(old(View()), model, View())
    {
      hide ModelAdded, Waiting, Inv, PairOf, Separate;
      ghost var s := View();
      KeyedByName(s);
      if model.name in models && models[model.name].resourceVersion == model.resourceVersion {
        SameModel(s, model);
      } else {
        models := models[model.name := model];
        ghost var t := View();
        PairWaitingBinding(model);
        NewModel(s, model, t, View());
      }
      StepKeepsInv(fleet.differs, s, AddModel(model), View());
    }

    lemma KeyedByName(s: State)
      requires Inv(s)
      ensures forall n | n in s.bindings :: s.bindings[n].name == n
    {
    }

    lemma SameModel(s: State, model: SyntheticModel)
      requires KnownModel(s, model)
      ensures ModelAdded(s, model, s)
    {
    }

    lemma NewModel(s: State, model: SyntheticModel, t: State, u: State)
      requires !KnownModel(s, model) && t == s.(models := s.models[model.name := model])
      requires (forall n :: !Waiting(t, n, model)) ==> u == t
      requires (exists n :: Waiting(t, n, model)) ==>
                 exists n :: Waiting(t, n, model) && n in t.bindings
                     && u == t.(pairs := t.pairs[n := PairOf(model, t.bindings[n])])
      ensures ModelAdded(s, model, u)
    {
      hide PairOf;
      assert forall n :: Waiting(s, n, model) <==> Waiting(t, n, model);
    }

    method ProcessApplicationModelDeleted(model: SyntheticModel)
      requires Valid()
      modifies this`models
      ensures Valid() && View() == old(View()).(models := old(models) - {model.name})
    {
      hide BuiltFor, Inv, PairOf;
      ghost var s := View();
      if model.name in models {
        models := models - {model.name};
      }
      assert View() == s.(models := s.models - {model.name});
      StepKeepsInv(fleet.differs, s, DeleteModel(model), View());
    }

    // ---------- sync ----------

    /** One create pass after others; an error is logged and the next pass still runs. */
    method CreateNext(pair: Pair, kind: Kind, ghost start: Cloud, ghost k: nat, ghost failed: set<nat>)
      returns (ghost failed': set<nat>)
      requires fleet.Valid() && fleet.held == {}
      requires WellKeyed(pair) && AllConnected(pair, fleet.connected)
      requires k < |CREATE_KINDS| && CREATE_KINDS[k] == kind && Below(failed, k)
      requires ProvisionedEach(fleet.differs, start, fleet.View(), CreatePasses(pair)[..k], failed)
      modifies fleet
      ensures fleet.held == {} && fleet.connected == old(fleet.connected) && Below(failed', k + 1)
      ensures ProvisionedEach(fleet.differs, start, fleet.View(), CreatePasses(pair)[..k + 1], failed')
    {
      ghost var before := fleet.View();
      var created := Managed.Create(fleet, pair, kind);
      hide Provisioned, ProvisionedEach, WantedOf, Below;
      ProvisionedNext(fleet.differs, start, before, fleet.View(), CreatePasses(pair), k, failed, created);
      failed' := More(failed, k, created);
    }

    lemma FirstPass(differs: Differ, a: Cloud, ps: seq<set<Desired>>, ls: seq<set<Listing>>)
      ensures ProvisionedEach(differs, a, a, ps[..0], {}) && SweptEach(a, a, ls[..0], {}) && Below({}, 0)
    {
    }

    /** The create passes in the controller's order; an error in one does not stop the next. */
    method CreateManagedClusterResources(pair: Pair) returns (ghost failed: set<nat>)
      requires fleet.Valid() && fleet.held == {}
      requires WellKeyed(pair) && AllConnected(pair, fleet.connected)
      modifies fleet
      ensures fleet.held == {} && fleet.connected == old(fleet.connected)
      ensures ProvisionedEach(fleet.differs, old(fleet.View()), fleet.View(), CreatePasses(pair), failed)
    {
      hide ProvisionedEach, WantedOf, Below;
      ghost var start := fleet.View();
      FirstPass(fleet.differs, start, CreatePasses(pair), []);
      failed := CreateNext(pair, Namespace, start, 0, {});
      failed := CreateNext(pair, ServiceAccount, start, 1, failed);
      failed := CreateNext(pair, ConfigMap, start, 2, failed);
      failed := CreateNext(pair, ClusterRole, start, 3, failed);
      failed := CreateNext(pair, ClusterRoleBinding, start, 4, failed);
      failed := CreateNext(pair, Deployment, start, 5, failed);
      failed := CreateNext(pair, Service, start, 6, failed);
      failed := CreateNext(pair, DaemonSet, start, 7, failed);
      assert CreatePasses(pair)[..8] == CreatePasses(pair);
    }

    /** A clean-up that has no body touches none of the modelled kinds; it may fail. */
    method CleanupNothing(ghost a: Cloud, ghost ps: seq<set<Listing>>, ghost k: nat, ghost failed: set<nat>)
      returns (ghost failed': set<nat>)
      requires k < |ps| && ps[k] == {} && SweptEach(a, fleet.View(), ps[..k], failed) && Below(failed, k)
      modifies fleet`failures
      ensures SweptEach(a, fleet.View(), ps[..k + 1], failed') && Below(failed', k + 1)
    {
      ghost var before := fleet.View();
      var cleaned := fleet.Outcome();
      assert Swept(before, fleet.View(), {}, cleaned);
      hide Swept, SweptEach, Below;
      SweptNext(a, before, fleet.View(), ps, k, failed, cleaned);
      failed' := More(failed, k, cleaned);
    }

    /** The clean-up of services or deployments after other passes. */
    method CleanupWorkloads(pair: Pair, kind: Kind, ghost a: Cloud, ghost ps: seq<set<Listing>>, ghost k: nat,
                            ghost failed: set<nat>)
      returns (ghost failed': set<nat>)
      requires fleet.held == {} && WellKeyed(pair) && (kind == Service || kind == Deployment)
      requires k < |ps| && ps[k] == OrphanedWorkloads(pair, kind, fleet.connected)
      requires SweptEach(a, fleet.View(), ps[..k], failed) && Below(failed, k)
      modifies fleet
      ensures fleet.held == {} && fleet.connected == old(fleet.connected)
      ensures SweptEach(a, fleet.View(), ps[..k + 1], failed') && Below(failed', k + 1)
    {
      hide Swept, SweptEach, Below, OrphanedWorkloads;
      ghost var before := fleet.View();
      var cleaned := Managed.CleanupOrphanedWorkloads(fleet, pair, kind);
      SweptNext(a, before, fleet.View(), ps, k, failed, cleaned);
      failed' := More(failed, k, cleaned);
    }

    /** The clean-up of cluster role bindings, cluster roles or config maps after other passes. */
    method CleanupUnmatched(pair: Pair, kind: Kind, ghost a: Cloud, ghost ps: seq<set<Listing>>, ghost k: nat,
                            ghost failed: set<nat>)
      returns (ghost failed': set<nat>)
      requires fleet.held == {} && WellKeyed(pair)
      requires k < |ps| && ps[k] == UnmatchedOrphans(pair, kind, fleet.connected, [])
      requires SweptEach(a, fleet.View(), ps[..k], failed) && Below(failed, k)
      modifies fleet
      ensures fleet.held == {} && fleet.connected == old(fleet.connected)
      ensures SweptEach(a, fleet.View(), ps[..k + 1], failed') && Below(failed', k + 1)
    {
      hide Swept, SweptEach, Below, UnmatchedOrphans;
      ghost var before := fleet.View();
      var cleaned := Managed.CleanupOrphanedUnmatched(fleet, pair, kind);
      SweptNext(a, before, fleet.View(), ps, k, failed, cleaned);
      failed' := More(failed, k, cleaned);
    }

    /** All clean-up passes, in the controller's order; again an error does not stop the next pass. */
    method CleanupOrphanedResources(pair: Pair, pairs: map<string, Pair>) returns (ghost failed: set<nat>)
      requires fleet.held == {} && WellKeyed(pair)
      modifies fleet
      ensures fleet.held == {} && fleet.connected == old(fleet.connected)
      ensures SweptEach(old(fleet.View()), fleet.View(), CleanupPasses(pair, pairs, fleet.connected), failed)
    {
      hide Swept, SweptEach, Below, OrphanedWorkloads, UnmatchedOrphans, OrphanedNamespaces;
      ghost var a, ps := fleet.View(), CleanupPasses(pair, pairs, fleet.connected);
      FirstPass(fleet.differs, a, [], ps);
      failed := CleanupNothing(a, ps, 0, {});
      failed := CleanupWorkloads(pair, Service, a, ps, 1, failed);
      failed := CleanupWorkloads(pair, Deployment, a, ps, 2, failed);
      failed := CleanupNothing(a, ps, 3, failed);
      failed := CleanupNothing(a, ps, 4, failed);
      failed := CleanupUnmatched(pair, ClusterRoleBinding, a, ps, 5, failed);
      failed := CleanupUnmatched(pair, ClusterRole, a, ps, 6, failed);
      failed := CleanupUnmatched(pair, ConfigMap, a, ps, 7, failed);
      ghost var before := fleet.View();
      var last := Managed.CleanupOrphanedNamespaces(fleet, pair, pairs);
      SweptNext(a, before, fleet.View(), ps, 8, failed, last);
      failed := More(failed, 8, last);
      assert ps[..9] == ps;
    }

    /** Waiting ends with an error, or after all clusters of the pair were seen connected. */
    method WaitForManagedClusters(pair: Pair) returns (ok: bool)
      requires WellKeyed(pair)
      modifies fleet`failures
      ensures fleet.failures == old(fleet.failures) + if ok then 0 else 1
      ensures ok ==> AllConnected(pair, fleet.connected)
    {
      Partition(pair, fleet.connected);
      var matched := ManagedClustersFor(pair, fleet.connected);
      ok := fleet.Outcome();
      if ok && matched.None? {
        fleet.failures, ok := fleet.failures + 1, false;
      }
    }

    // ---------- bindings ----------

    /** Rebuild a pair where it is; the map of pairs itself does not change. */
    method UpdatePair(model: SyntheticModel, binding: SyntheticBinding)
      requires Separate() && binding.name in pairs
      modifies pairs[binding.name], pairs[binding.name].lock
      ensures Separate() && Pairs() == old(Pairs())[binding.name := PairOf(model, binding)]
    {
      hide PairOf;
      pairs[binding.name].Update(model, binding);
    }

    /** Create the pair of a known model, or rebuild it. */
    method PairUp(binding: SyntheticBinding)
      requires Separate()
      modifies this`pairs, pairs.Values, set p | p in pairs.Values :: p.lock
      ensures Separate() && View() == Paired(old(View()), binding)
    {
      hide PairOf;
      if binding.modelName in models {
        if binding.name in pairs {
          UpdatePair(models[binding.modelName], binding);
        } else {
          AddPair(models[binding.modelName], binding);
        }
      }
    }

    /** Sync a pair with its clusters once they are all connected. */
    method Sync(name: string)
      requires fleet.Valid() && fleet.held == {} && name in pairs && WellKeyed(Pairs()[name])
      modifies fleet
      ensures fleet.held == {} && Reconciled(fleet.differs, old(View()), name, View())
    {
      hide ProvisionedEach, SweptEach, Reconciled, CreatePasses, CleanupPasses;
      ghost var s := View();
      var all := Pairs();
      var pair := all[name];
      var ready := WaitForManagedClusters(pair);
      if !ready {
        WaitFailed(fleet.differs, s, name, View());
        return;
      }
      fleet.ChangeLocally();
      ghost var local := fleet.View();
      ghost var unmade := CreateManagedClusterResources(pair);
      ghost var made := fleet.View();
      ghost var uncleaned := CleanupOrphanedResources(pair, all);
      PairSynced(fleet.differs, s, name, local, made, View(), unmade, uncleaned);
    }

    lemma WaitFailed(differs: Differ, s: State, n: string, u: State)
      requires n in s.pairs && u == s.(cloud := u.cloud) && Failed(s.cloud, u.cloud)
      ensures Reconciled(differs, s, n, u)
    {
    }

    lemma PairSynced(differs: Differ, s: State, n: string, local: Cloud, made: Cloud, u: State, unmade: set<nat>,
                     uncleaned: set<nat>)
      requires n in s.pairs && u == s.(cloud := u.cloud) && AllConnected(s.pairs[n], s.cloud.connected)
      requires local == s.cloud.(objects := local.objects) && AgreeOnManaged(s.cloud.objects, local.objects)
      requires ProvisionedEach(differs, local, made, CreatePasses(s.pairs[n]), unmade)
      requires SweptEach(made, u.cloud, CleanupPasses(s.pairs[n], s.pairs, s.cloud.connected), uncleaned)
      ensures Reconciled(differs, s, n, u)
    {
      hide Provisioned, Swept, Orphans, AllWanted, AgreeOnManaged, AllConnected, ProvisionedEach, SweptEach,
        CreatePasses, CleanupPasses;
      EachProvisioned(differs, local, made, CreatePasses(s.pairs[n]), unmade);
      AllCreatePasses(s.pairs[n]);
      EachSwept(made, u.cloud, CleanupPasses(s.pairs[n], s.pairs, s.cloud.connected), uncleaned);
      AllCleanupPasses(s.pairs[n], s.pairs, s.cloud.connected);
      assert Synced(differs, s.cloud, local, made, u.cloud, s.pairs[n], s.pairs, unmade == {}, uncleaned == {});
      assert EachPassRan(differs, local, made, u.cloud, s.pairs[n], s.pairs);
    }

    /** Count an unchanged binding, record a new or changed one; skip while the throttle is on. */
    method Record(binding: SyntheticBinding) returns (skip: bool)
      modifies this`bindings, this`counters
      ensures skip <==> Throttled(old(View()), binding)
      ensures View() == Recorded(old(View()), binding)
    {
      var n := binding.name;
      if n in bindings {
        if bindings[n].resourceVersion == binding.resourceVersion {
          var counter: nat := 0;
          if n !in counters {
            counters := counters[n := 0];
          } else {
            counter := counters[n];
            counters := counters[n := counter + 1];
          }
          if counter < 4 {
            return true;
          }
          counters := counters[n := 0];
        } else {
          bindings := bindings[n := binding];
        }
      } else {
        bindings := bindings[n := binding];
      }
      skip := false;
    }

    /** A binding marked for deletion is first made known, with its pair if the model is known. */
    method Adopt(binding: SyntheticBinding)
      requires Separate()
      modifies this`bindings, this`pairs, pairs.Values, set p | p in pairs.Values :: p.lock
      ensures Separate() && View() == Adopted(old(View()), binding)
    {
      hide PairOf, Paired, Separate;
      ghost var s := View();
      if binding.name !in bindings {
        bindings := bindings[binding.name := binding];
      }
      ghost var t := View();
      assert t == if binding.name in s.bindings then s else s.(bindings := s.bindings[binding.name := binding]);
      if binding.name !in pairs {
        PairUp(binding);
        assert View() == Paired(t, binding);
      }
    }

    method AddDeleting(binding: SyntheticBinding)
      requires Valid() && binding.deleting
      modifies this, fleet, pairs.Values, set p | p in pairs.Values :: p.lock
      ensures Valid() && BindingAdded(fleet.differs, old(View()), binding, View())
    {
      hide Adopted, BindingDeleted, Inv, Separate, PairOf;
      if FINALIZER in binding.finalizers {
        ghost var s := View();
        Adopt(binding);
        AdoptedKeepsInv(s, binding);
        ProcessApplicationBindingDeleted(binding);
      }
    }

    method AddPlain(binding: SyntheticBinding)
      requires Valid() && !binding.deleting
      modifies this, fleet, pairs.Values, set p | p in pairs.Values :: p.lock
      ensures Valid() && BindingAdded(fleet.differs, old(View()), binding, View())
    {
      hide Recorded, Paired, Throttled, Reconciled, Inv, Separate, PairOf, BuiltFor;
      ghost var s := View();
      var skip := Record(binding);
      RecordedKeepsInv(s, binding);
      if !skip {
        PairAndSync(binding);
      }
      BindingAddedKeepsInv(fleet.differs, s, binding, View());
    }

    /** Pair the binding if its model is known, and sync the pair if there is one. */
    method PairAndSync(binding: SyntheticBinding)
      requires fleet.Valid() && fleet.held == {} && Separate() && Inv(View()) && binding.name in bindings
      modifies this`pairs, fleet, pairs.Values, set p | p in pairs.Values :: p.lock
      ensures fleet.held == {} && Separate()
      ensures var t := Paired(old(View()), binding);
              if binding.name in t.pairs then Reconciled(fleet.differs, t, binding.name, View()) else View() == t
    {
      hide Paired, Reconciled, Inv, Separate, PairOf, BuiltFor, WellKeyed;
      ghost var s := View();
      PairUp(binding);
      PairedKeepsInv(s, binding);
      if binding.name in pairs {
        InvWellKeyed(View(), binding.name);
        Sync(binding.name);
      }
    }

    method ProcessApplicationBindingAdded(binding: SyntheticBinding)
      requires Valid()
      modifies this, fleet, pairs.Values, set p | p in pairs.Values :: p.lock
      ensures Valid() && BindingAdded(fleet.differs, old(View()), binding, View())
    {
      hide BindingAdded, Inv, Separate;
      if binding.deleting {
        AddDeleting(binding);
      } else {
        AddPlain(binding);
      }
    }

    // ---------- deletion ----------

    /** Cluster role bindings, cluster roles, then namespaces; stop at the first error. */
    method DeleteRolesAndNamespaces(pair: Pair, bindingLabel: bool, ghost a: Cloud, ghost ps: seq<set<Listing>>,
                                    ghost k: nat)
      returns (ok: bool)
      requires fleet.held == {} && WellKeyed(pair)
      requires k + 3 <= |ps| && ps[k..k + 3] == ClusterWidePasses(pair, fleet.connected, bindingLabel)
      requires SweptInOrder(a, fleet.View(), ps[..k], true)
      modifies fleet
      ensures fleet.held == {} && fleet.connected == old(fleet.connected)
      ensures SweptInOrder(a, fleet.View(), ps[..k + 3], ok)
    {
      hide Swept, SweptInOrder, DeletedClusterWide;
      assert ps[k] == ps[k..k + 3][0] && ps[k + 1] == ps[k..k + 3][1] && ps[k + 2] == ps[k..k + 3][2];
      ghost var done, before := k + 1, fleet.View();
      ok := Managed.DeleteClusterWide(fleet, pair, ClusterRoleBinding, bindingLabel);
      InOrderNext(a, before, fleet.View(), ps, k, ok);
      if ok {
        done, before := k + 2, fleet.View();
        ok := Managed.DeleteClusterWide(fleet, pair, ClusterRole, bindingLabel);
        InOrderNext(a, before, fleet.View(), ps, k + 1, ok);
      }
      if ok {
        done, before := k + 3, fleet.View();
        ok := Managed.DeleteClusterWide(fleet, pair, Namespace, bindingLabel);
        InOrderNext(a, before, fleet.View(), ps, k + 2, ok);
      }
      if !ok {
        assert ps[..k + 3][..done] == ps[..done];
        InOrderStopped(a, fleet.View(), ps[..k + 3], done);
      }
    }

    /** Services and deployments, on the connections of the pair if they all exist. */
    method DeleteWorkloads(pair: Pair, ghost a: Cloud, ghost ps: seq<set<Listing>>, ghost k: nat) returns (ok: bool)
      requires fleet.held == {} && WellKeyed(pair)
      requires k + 2 <= |ps| && ps[k..k + 2] == WorkloadPasses(pair, fleet.connected)
      requires SweptInOrder(a, fleet.View(), ps[..k], true)
      modifies fleet
      ensures fleet.held == {} && fleet.connected == old(fleet.connected)
      ensures SweptInOrder(a, fleet.View(), ps[..k + 2], ok)
    {
      hide Swept, SweptInOrder;
      assert ps[k] == ps[k..k + 2][0] && ps[k + 1] == ps[k..k + 2][1];
      Partition(pair, fleet.connected);
      var matched := ManagedClustersFor(pair, fleet.connected);
      var filtered := if matched.Some? then matched.value else {};
      WorkloadsFiltered(pair, fleet.connected);
      ghost var done, before := k + 1, fleet.View();
      ok := fleet.Outcome();  // DeleteCustomResources touches none of the modelled kinds
      if ok {
        before := fleet.View();
        ok := Managed.DeleteWorkloads(fleet, pair, Service, filtered);
      } else {
        SweptFailed(before, fleet.View(), ps[k]);
      }
      InOrderNext(a, before, fleet.View(), ps, k, ok);
      if ok {
        done, before := k + 2, fleet.View();
        ok := Managed.DeleteWorkloads(fleet, pair, Deployment, filtered);
        InOrderNext(a, before, fleet.View(), ps, k + 1, ok);
      }
      if !ok {
        assert ps[..k + 2][..done] == ps[..done];
        InOrderStopped(a, fleet.View(), ps[..k + 2], done);
      }
    }

    lemma WorkloadsFiltered(pair: Pair, connected: set<string>)
      ensures forall kind :: IfConnected(pair, connected, DeletedWorkloads(pair, kind))
                 == DeletedWorkloadsOn(pair, kind, if AllConnected(pair, connected) then pair.clusters.Keys else {})
    {
    }

    lemma SweptFailed(a: Cloud, b: Cloud, ls: set<Listing>)
      requires Failed(a, b)
      ensures Swept(a, b, ls, false)
    {
    }

    /** Everything deleted after the VMIs, in the management cluster and on the managed clusters. */
    method DeleteResources(name: string) returns (ok: bool)
      requires fleet.held == {} && name in pairs && WellKeyed(Pairs()[name])
      modifies fleet
      ensures fleet.held == {} && fleet.connected == old(fleet.connected)
      ensures SweptInOrder(old(fleet.View()), fleet.View(), PassesOf(old(View()), name), ok)
    {
      hide Swept, SweptInOrder, LocalListing, WorkloadPasses, ClusterWidePasses;
      ghost var a, ps := fleet.View(), PassesOf(View(), name);
      var pair := pairs[name].View();
      assert |Pairs()| == |pairs| by {
        assert Pairs().Keys == pairs.Keys;
      }
      PassesLayout(name, pair, fleet.connected, |pairs| == 1);
      InOrderNothing(a, ps);
      ghost var done, before := 1, a;
      ok := Managed.DeleteLocal(fleet, Secret, name);
      InOrderNext(a, before, fleet.View(), ps, 0, ok);
      if ok {
        done, before := 2, fleet.View();
        ok := Managed.DeleteLocal(fleet, ConfigMap, name);
        InOrderNext(a, before, fleet.View(), ps, 1, ok);
      }
      if ok {
        done := 4;
        ok := DeleteWorkloads(pair, a, ps, 2);
      }
      if ok {
        done := 7;
        ok := DeleteRolesAndNamespaces(pair, true, a, ps, 4);
      }
      if ok && |pairs| == 1 {
        done := 10;
        ok := DeleteRolesAndNamespaces(pair, false, a, ps, 7);
      }
      if ok {
        assert ps[..done] == ps;
      } else {
        InOrderStopped(a, fleet.View(), ps, done);
      }
    }

    lemma InOrderNothing(a: Cloud, ps: seq<set<Listing>>)
      ensures SweptInOrder(a, a, ps[..0], true)
    {
    }

    lemma PassesLayout(name: string, pair: Pair, connected: set<string>, last: bool)
      ensures var ps := DeletionPasses(name, pair, connected, last);
              && |ps| == (if last then 10 else 7)
              && ps[0] == {LocalListing(Secret, name)} && ps[1] == {LocalListing(ConfigMap, name)}
              && ps[2..4] == WorkloadPasses(pair, connected) && ps[4..7] == ClusterWidePasses(pair, connected, true)
              && (last ==> ps[7..10] == ClusterWidePasses(pair, connected, false))
    {
      hide LocalListing, IfConnected;
    }

    method Forget(name: string)
      requires Separate()
      modifies this`bindings, this`pairs, this`counters
      ensures Separate() && View() == Forgotten(old(View()), name)
    {
      if name in bindings {
        bindings := bindings - {name};
      }
      DropPair(name);
      if name in counters {
        counters := counters - {name};
      }
      assert bindings == old(bindings) - {name} && counters == old(counters) - {name};
    }

    method DropPair(name: string)
      requires Separate()
      modifies this`pairs
      ensures Separate() && Pairs() == old(Pairs()) - {name}
    {
      pairs := pairs - {name};
    }

    /**
     Delete a binding's resources and forget it. Errors stop the deletion before the maps change, except
     for an error while deleting the VMIs.
     */
    method DeletePair(name: string)
      requires fleet.held == {} && Separate() && name in pairs && WellKeyed(Pairs()[name])
      modifies this`bindings, this`pairs, this`counters, fleet
      ensures fleet.held == {} && Separate()
      ensures exists vmis, vmiOk, ok :: DeletionRun(old(View()), name, vmis, View(), vmiOk, ok)
    {
      hide Swept, SweptInOrder, PassesOf, Deletion, WellKeyed, Separate, Forgotten, DeletionRun;
      ghost var s := View();
      ghost var vmiOk := Managed.DeleteLocal(fleet, Vmi, name);
      ghost var vmis := fleet.View();
      SameDeletion(s, View(), name);
      var ok := DeleteResources(name);
      ghost var t := View();
      if ok {
        Forget(name);
      }
      RunMade(s, name, vmis, t, View(), vmiOk, ok);
    }

    lemma RunMade(s: State, n: string, vmis: Cloud, t: State, u: State, vmiOk: bool, ok: bool)
      requires n in s.pairs && Swept(s.cloud, vmis, {LocalListing(Vmi, n)}, vmiOk)
      requires SweptInOrder(vmis, t.cloud, PassesOf(s, n), ok)
      requires t == s.(cloud := t.cloud) && u == if ok then Forgotten(t, n) else t
      ensures DeletionRun(s, n, vmis, u, vmiOk, ok)
    {
      hide Swept, SweptInOrder, PassesOf;
    }

    method ProcessApplicationBindingDeleted(binding: SyntheticBinding)
      requires Valid()
      modifies this`bindings, this`pairs, this`counters, fleet
      ensures Valid() && BindingDeleted(old(View()), binding, View())
    {
      hide DeletionRun, BuiltFor, Inv, Separate;
      ghost var s := View();
      if FINALIZER in binding.finalizers && binding.name in pairs {
        InvWellKeyed(s, binding.name);
        DeletePair(binding.name);
        BindingDeletedKeepsInv(s, binding, View());
      }
    }

    // ---------- clusters ----------

    /**
     Connect to a cluster once and create the operator's own objects there. Without the operator's
     service account, or a client for the cluster, nothing happens.
     */
    method ProcessManagedCluster(cluster: string)
      requires Valid()
      modifies fleet
      ensures Valid() && ClusterConnected(fleet.differs, old(View()), cluster, View())
    {
      hide ClusterConnected, Inv;
      ghost var s := View();
      ConnectCluster(cluster);
      StepKeepsInv(fleet.differs, s, Connect(cluster), View());
    }

    /** A failed wait for the caches of a new connection is only logged. */
    method CreateAfterCacheSync(pair: Pair) returns (ghost failed: set<nat>)
      requires fleet.Valid() && fleet.held == {}
      requires WellKeyed(pair) && AllConnected(pair, fleet.connected)
      modifies fleet
      ensures fleet.held == {} && fleet.connected == old(fleet.connected)
      ensures ProvisionedEach(fleet.differs, old(fleet.View()), fleet.View(), CreatePasses(pair), failed)
    {
      hide ProvisionedEach, CreatePasses;
      ghost var before := fleet.View();
      var synced := fleet.Outcome();
      ghost var start := fleet.View();
      failed := CreateManagedClusterResources(pair);
      EachAfterFailure(fleet.differs, before, start, fleet.View(), CreatePasses(pair), failed);
    }

    lemma {:induction false} EachAfterFailure(differs: Differ, a: Cloud, b: Cloud, c: Cloud, ps: seq<set<Desired>>,
                                              failed: set<nat>)
      requires Untouched(a, b) && ProvisionedEach(differs, b, c, ps, failed)
      ensures ProvisionedEach(differs, a, c, ps, failed)
      decreases |ps|
    {
      hide Provisioned;
      if ps != [] {
        var k := |ps| - 1;
        var m, ok :| && ProvisionedEach(differs, b, m, ps[..k], failed - {k}) && Provisioned(differs, m, c, ps[k], ok)
                     && ok == (k !in failed);
        EachAfterFailure(differs, a, b, m, ps[..k], failed - {k});
      }
    }

    method ConnectCluster(cluster: string)
      requires fleet.Valid() && fleet.held == {}
      modifies fleet
      ensures fleet.held == {} && ClusterConnected(fleet.differs, old(View()), cluster, View())
    {
      hide Provisioned, AllWanted, ProvisionedEach, CreatePasses;
      var serviceAccount := fleet.Outcome();
      if serviceAccount && cluster !in fleet.connected {
        var client := fleet.Outcome();
        if client {
          fleet.connected := fleet.connected + {cluster};
          var pair := SystemPair(cluster);
          ghost var before := fleet.View();
          ghost var failed := CreateAfterCacheSync(pair);
          EachProvisioned(fleet.differs, before, fleet.View(), CreatePasses(pair), failed);
          AllCreatePasses(pair);
          assert Provisioned(fleet.differs, before, fleet.View(), AllWanted(SystemPair(cluster)), failed == {});
        }
      }
    }
  }
}

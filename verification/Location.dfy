/** Building and rebuilding a model/binding pair in place. */
module Location {
  import opened Labels
  import opened Clouds
  import opened Types
  import Reference

  /** The pair every build yields: one cluster per placement name, each with only the system namespace. */
  function PairOf(model: SyntheticModel, binding: SyntheticBinding): Pair {
    Pair(model, binding, map p | p in PlacementNames(binding) :: BuiltCluster(p))
  }

  function BuiltCluster(name: string): ManagedCluster {
    ManagedCluster(name, [VERRAZZANO_SYSTEM], map[], [], [], [])
  }

  class RWMutex {
    var locked: bool

    constructor ()
      ensures !locked
    {
      locked := false;
    }

    method Lock()
      requires !locked
      modifies this
      ensures locked
    {
      locked := true;
    }

    method Unlock()
      requires locked
      modifies this
      ensures !locked
    {
      locked := false;
    }
  }

  class SyntheticModelBinding {
    var model: SyntheticModel
    var binding: SyntheticBinding
    var clusters: map<string, ManagedCluster>
    var lock: RWMutex

    function View(): Pair
      reads this
    {
      Pair(model, binding, clusters)
    }

    constructor Empty(model: SyntheticModel, binding: SyntheticBinding)
      ensures View() == Pair(model, binding, map[])
      ensures fresh(lock) && !lock.locked
    {
      this.model := model;
      this.binding := binding;
      clusters := map[];
      lock := new RWMutex();
    }

    /** Add what the binding's placements need to the clusters; placements may repeat a name. */
    method Build()
      requires !lock.locked && clusters == map[]
      modifies this`clusters, lock
      ensures View() == PairOf(model, binding)
      ensures !lock.locked
    {
      lock.Lock();
      var placements := binding.placements;
      for i := 0 to |placements|
        invariant lock == old(lock) && lock.locked
        invariant clusters.Keys == set p | p in placements[..i] :: p.name
        invariant forall c | c in clusters :: clusters[c] == BuiltCluster(c)
      {
        var name := placements[i].name;
        if name !in clusters {
          clusters := clusters[name := ManagedCluster(name, [], map[], [], [], [])];
        }
        var namespaces := AppendNamespace(clusters[name].namespaces, VERRAZZANO_SYSTEM);
        clusters := clusters[name := clusters[name].(namespaces := namespaces)];
      }
      assert placements[..|placements|] == placements;
      lock.Unlock();
    }

    /**
     Overwrite all fields, the lock field included. The lock taken before is released, not the one
     the pair holds afterwards.
     */
    method Update(model: SyntheticModel, binding: SyntheticBinding)
      requires !lock.locked
      modifies this, lock
      ensures View() == PairOf(model, binding)
      ensures fresh(lock) && !lock.locked && !old(lock).locked
    {
      var rebuilt := CreateSyntheticModelBinding(model, binding);
      var taken := this.lock;
      taken.Lock();
      this.model, this.binding := rebuilt.model, rebuilt.binding;
      this.clusters, this.lock := rebuilt.clusters, rebuilt.lock;
      taken.Unlock();
    }
  }

  method CreateSyntheticModelBinding(model: SyntheticModel, binding: SyntheticBinding)
    returns (pair: SyntheticModelBinding)
    ensures fresh(pair) && fresh(pair.lock) && !pair.lock.locked
    ensures pair.View() == PairOf(model, binding)
  {
    pair := new SyntheticModelBinding.Empty(model, binding);
    pair.Build();
  }

  /** Append a namespace unless the list has it. */
  method AppendNamespace(namespaces: seq<string>, namespace: string) returns (r: seq<string>)
    ensures r == if namespace in namespaces then namespaces else namespaces + [namespace]
  {
    var found := false;
    for i := 0 to |namespaces|
      invariant !found && namespace !in namespaces[..i]
    {
      if namespaces[i] == namespace {
        found := true;
        break;
      }
    }
    r := if found then namespaces else namespaces + [namespace];
  }

  /** Whatever duplicates the placements contain, each placement gets one cluster with the system namespace only. */
  lemma BuiltPair(model: SyntheticModel, binding: SyntheticBinding)
    ensures Reference.IsBuilt(PairOf(model, binding), model, binding)
    ensures WellKeyed(PairOf(model, binding))
  {
    assert PairOf(model, binding).clusters.Keys == PlacementNames(binding);
  }
}

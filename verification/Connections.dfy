/** Which connections apply to a model/binding pair and which do not. */
module Connections {
  import opened Types

  datatype Option<+T> = None | Some(value: T)

  function ClusterNames(pair: Pair): set<string> {
    set c | c in pair.clusters :: pair.clusters[c].name
  }

  /** The connections of the pair's clusters; an error if one of them is not available. */
  method ManagedClustersFor(pair: Pair, available: set<string>) returns (filtered: Option<set<string>>)
    ensures filtered.Some? <==> ClusterNames(pair) <= available
    ensures filtered.Some? ==> filtered.value == ClusterNames(pair)
  {
    var found: set<string> := {};
    var todo := pair.clusters.Keys;
    while todo != {}
      invariant todo <= pair.clusters.Keys
      invariant found == set c | c in pair.clusters.Keys - todo :: pair.clusters[c].name
      invariant found <= available
    {
      var c :| c in todo;
      assert pair.clusters[c].name in ClusterNames(pair);
      if pair.clusters[c].name !in available {
        return None;
      }
      found := found + {pair.clusters[c].name};
      todo := todo - {c};
    }
    return Some(found);
  }

  /** The available connections to clusters the pair does not use. */
  method ManagedClustersNotFor(pair: Pair, available: set<string>) returns (filtered: set<string>)
    ensures filtered == available - ClusterNames(pair)
  {
    filtered := {};
    var todo := available;
    while todo != {}
      invariant todo <= available
      invariant filtered == (available - todo) - ClusterNames(pair)
    {
      var name :| name in todo;
      var found := false;
      var rest := pair.clusters.Keys;
      while rest != {}
        invariant rest <= pair.clusters.Keys
        invariant !found && forall c | c in pair.clusters.Keys - rest :: pair.clusters[c].name != name
      {
        var c :| c in rest;
        if name == pair.clusters[c].name {
          found := true;
          break;
        }
        rest := rest - {c};
      }
      assert found <==> name in ClusterNames(pair);
      if !found {
        filtered := filtered + {name};
      }
      todo := todo - {name};
    }
  }

  method IsClusterInBinding(cluster: string, pairs: map<string, Pair>) returns (found: bool)
    ensures found <==> ClusterInBinding(cluster, pairs)
  {
    var todo := pairs.Keys;
    while todo != {}
      invariant todo <= pairs.Keys
      invariant forall n | n in pairs.Keys - todo :: cluster !in PlacementNames(pairs[n].binding)
    {
      var n :| n in todo;
      var placements := pairs[n].binding.placements;
      for i := 0 to |placements|
        invariant forall j | 0 <= j < i :: placements[j].name != cluster
      {
        if placements[i].name == cluster {
          assert cluster in PlacementNames(pairs[n].binding);
          return true;
        }
      }
      todo := todo - {n};
    }
    return false;
  }

  /** For a pair keyed by cluster name the two filters split the available connections. */
  lemma Partition(pair: Pair, available: set<string>)
    requires WellKeyed(pair)
    ensures ClusterNames(pair) == pair.clusters.Keys
    ensures pair.clusters.Keys <= available ==> ClusterNames(pair) + (available - ClusterNames(pair)) == available
    ensures ClusterNames(pair) !! (available - ClusterNames(pair))
  {
    forall c | c in pair.clusters ensures c in ClusterNames(pair) {
      assert pair.clusters[c].name == c;
    }
  }
}

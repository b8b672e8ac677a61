/** Models, bindings and the model/binding pairs the operator reconciles. */
module Types {
  import opened Clouds

  datatype SyntheticModel = SyntheticModel(name: string, resourceVersion: string)

  datatype ClusterPlacement = ClusterPlacement(name: string, namespaces: seq<string>)

  /** deleting stands for a deletion timestamp that is set. */
  datatype SyntheticBinding = SyntheticBinding(
    name: string,
    resourceVersion: string,
    deleting: bool,
    finalizers: seq<string>,
    modelName: string,
    placements: seq<ClusterPlacement>)

  /** A deployment, service or config map with the labels and content it shall have. */
  datatype Workload = Workload(namespace: string, name: string, resource: Resource)

  datatype ManagedCluster = ManagedCluster(
    name: string,
    namespaces: seq<string>,
    secrets: map<string, seq<string>>,
    deployments: seq<Workload>,
    services: seq<Workload>,
    configMaps: seq<Workload>)

  /** The value of a model/binding pair; clusters is keyed by cluster name. */
  datatype Pair = Pair(model: SyntheticModel, binding: SyntheticBinding, clusters: map<string, ManagedCluster>)

  ghost predicate WellKeyed(pair: Pair) {
    forall c | c in pair.clusters :: pair.clusters[c].name == c
  }

  function PlacementNames(binding: SyntheticBinding): set<string> {
    set p | p in binding.placements :: p.name
  }

  /** Some pair places something on the cluster. */
  ghost predicate ClusterInBinding(cluster: string, pairs: map<string, Pair>) {
    exists n :: n in pairs && cluster in PlacementNames(pairs[n].binding)
  }

  method Contains(s: seq<string>, e: string) returns (found: bool)
    ensures found <==> e in s
  {
    for i := 0 to |s|
      invariant e !in s[..i]
    {
      if s[i] == e {
        return true;
      }
    }
    return false;
  }
}

/**
 What each pass of the managed package wants to exist and what it lists for deletion, as functions of
 the model/binding pair. The passes themselves are the methods of module Managed.
 */
module Passes {
  import opened Labels
  import opened Clouds
  import opened Types

  // ---------- desired objects ----------

  const NAMESPACE_CONTENT := "finalizers: kubernetes"
  const SYSTEM_ROLE_CONTENT := "policy rules of the operator"
  const NODE_EXPORTER_ROLE_CONTENT := "use of pod security policy system-node-exporter"
  const ROLE_BINDING_CONTENT := "service account verrazzano-system/verrazzano-system"
  const NODE_EXPORTER_ROLE_BINDING_CONTENT := "service account monitoring/node-exporter"
  const NODE_EXPORTER_SERVICE_CONTENT := "metrics port 9100"
  const NODE_EXPORTER_DAEMON_SET_CONTENT := "node exporter on every node"
  const SERVICE_ACCOUNT_CONTENT := "image pull secrets"

  /** The system namespace is shared by all bindings, so it carries no binding label. */
  function NamespaceLabels(binding: string, cluster: string, namespace: string): LabelSet {
    if namespace == VERRAZZANO_SYSTEM then ManagedLabelsNoBinding(cluster) else ManagedBindingLabels(binding, cluster)
  }

  function DesiredNamespace(binding: string, mc: ManagedCluster, c: string, namespace: string): Desired {
    Desired(Address(Managed(c), Namespace, "", namespace),
            Resource(NamespaceLabels(binding, mc.name, namespace), NAMESPACE_CONTENT))
  }

  function DesiredWorkload(kind: Kind, c: string, w: Workload): Desired {
    Desired(Address(Managed(c), kind, w.namespace, w.name), w.resource)
  }

  function DesiredRole(c: string, system: bool): Desired {
    if system then
      Desired(Address(Managed(c), ClusterRole, "", NODE_EXPORTER),
          Resource(NodeExporterLabels(c), NODE_EXPORTER_ROLE_CONTENT))
    else
      Desired(Address(Managed(c), ClusterRole, "", VERRAZZANO_SYSTEM),
          Resource(ManagedLabelsNoBinding(c), SYSTEM_ROLE_CONTENT))
  }

  function DesiredRoleBinding(c: string, system: bool): Desired {
    if system then
      Desired(Address(Managed(c), ClusterRoleBinding, "", NODE_EXPORTER),
              Resource(NodeExporterLabels(c), NODE_EXPORTER_ROLE_BINDING_CONTENT))
    else
      Desired(Address(Managed(c), ClusterRoleBinding, "", VERRAZZANO_SYSTEM),
              Resource(ManagedLabelsNoBinding(c), ROLE_BINDING_CONTENT))
  }

  function NodeExporterService(c: string): Workload {
    Workload(MONITORING, NODE_EXPORTER, Resource(NodeExporterLabels(c), NODE_EXPORTER_SERVICE_CONTENT))
  }

  function NodeExporterDaemonSet(c: string): Workload {
    Workload(MONITORING, NODE_EXPORTER, Resource(NodeExporterLabels(c), NODE_EXPORTER_DAEMON_SET_CONTENT))
  }

  function SystemAccount(c: string, namespace: string): Desired {
    Desired(Address(Managed(c), ServiceAccount, namespace, VERRAZZANO_SYSTEM),
            Resource(ManagedLabelsNoBinding(c), SERVICE_ACCOUNT_CONTENT))
  }

  function NodeExporterAccount(c: string): Desired {
    Desired(Address(Managed(c), ServiceAccount, MONITORING, NODE_EXPORTER),
        Resource(NodeExporterLabels(c), SERVICE_ACCOUNT_CONTENT))
  }

  predicate IsSystem(pair: Pair) {
    pair.binding.name == SYSTEM_BINDING
  }

  function DesiredServices(pair: Pair, c: string): seq<Workload>
    requires c in pair.clusters
  {
    if IsSystem(pair) then [NodeExporterService(c)] else pair.clusters[c].services
  }

  function DesiredWorkloads(kind: Kind, c: string, ws: seq<Workload>): seq<Desired> {
    seq(|ws|, i requires 0 <= i < |ws| => DesiredWorkload(kind, c, ws[i]))
  }

  /** One account in each namespace, or a single one for the node exporter. */
  function DesiredAccounts(pair: Pair, c: string): seq<Desired>
    requires c in pair.clusters
  {
    var namespaces := pair.clusters[c].namespaces;
    if !IsSystem(pair) then seq(|namespaces|, i requires 0 <= i < |namespaces| => SystemAccount(c, namespaces[i]))
    else if namespaces == [] then []
    else [NodeExporterAccount(c)]
  }

  function DesiredConfigMaps(pair: Pair, c: string): seq<Workload>
    requires c in pair.clusters
  {
    if IsSystem(pair) then [] else pair.clusters[c].configMaps
  }

  function DesiredDaemonSets(pair: Pair, c: string): seq<Desired>
    requires c in pair.clusters
  {
    if IsSystem(pair) then [DesiredWorkload(DaemonSet, c, NodeExporterDaemonSet(c))] else []
  }

  /** What the pair wants of one kind on one of its clusters. */
  function Wanted(pair: Pair, kind: Kind, c: string): seq<Desired>
    requires c in pair.clusters
  {
    var mc := pair.clusters[c];
    match kind
    case Namespace =>
      seq(|mc.namespaces|, i requires 0 <= i < |mc.namespaces| =>
            DesiredNamespace(pair.binding.name, mc, c, mc.namespaces[i]))
    case ServiceAccount => DesiredAccounts(pair, c)
    case ConfigMap => DesiredWorkloads(kind, c, DesiredConfigMaps(pair, c))
    case ClusterRole => [DesiredRole(c, IsSystem(pair))]
    case ClusterRoleBinding => [DesiredRoleBinding(c, IsSystem(pair))]
    case Deployment => DesiredWorkloads(kind, c, mc.deployments)
    case Service => DesiredWorkloads(kind, c, DesiredServices(pair, c))
    case DaemonSet => DesiredDaemonSets(pair, c)
    case _ => []
  }

  function WantedOn(pair: Pair, kind: Kind, clusters: set<string>): set<Desired> {
    set c, d | c in clusters && c in pair.clusters && d in Wanted(pair, kind, c) :: d
  }

  function WantedOf(pair: Pair, kind: Kind): set<Desired> {
    WantedOn(pair, kind, pair.clusters.Keys)
  }

  function AllWanted(pair: Pair): set<Desired> {
    WantedOf(pair, Namespace) + WantedOf(pair, ServiceAccount) + WantedOf(pair, ConfigMap) + WantedOf(pair, ClusterRole)
    + WantedOf(pair, ClusterRoleBinding) + WantedOf(pair, Deployment) + WantedOf(pair, Service)
    + WantedOf(pair, DaemonSet)
  }

  /** The kind of a wanted object tells which pass wants it. */
  lemma WantedKind(pair: Pair, d: Desired) returns (kind: Kind)
    requires d in AllWanted(pair)
    ensures d.at.kind == kind && kind !in {Vmi, Secret}
    ensures d.at.site.Managed? && d.at.site.cluster in pair.clusters && d in Wanted(pair, kind, d.at.site.cluster)
  {
    kind := if d in WantedOf(pair, Namespace) then Namespace
            else if d in WantedOf(pair, ServiceAccount) then ServiceAccount
            else if d in WantedOf(pair, ConfigMap) then ConfigMap
            else if d in WantedOf(pair, ClusterRole) then ClusterRole
            else if d in WantedOf(pair, ClusterRoleBinding) then ClusterRoleBinding
            else if d in WantedOf(pair, Deployment) then Deployment
            else if d in WantedOf(pair, Service) then Service
            else DaemonSet;
    hide Wanted;
    var c :| c in pair.clusters && d in Wanted(pair, kind, c);
    WantedAt(pair, kind, c, d);
  }

  lemma WantedAt(pair: Pair, kind: Kind, c: string, d: Desired)
    requires c in pair.clusters && d in Wanted(pair, kind, c)
    ensures d.at.site == Managed(c) && d.at.kind == kind
  {
    var i :| 0 <= i < |Wanted(pair, kind, c)| && d == Wanted(pair, kind, c)[i];
  }

  // ---------- listings of the orphan clean-up ----------

  function Names(ws: seq<Workload>): seq<string> {
    seq(|ws|, i requires 0 <= i < |ws| => ws[i].name)
  }

  /** Expected names on a cluster: only the names are compared, not the namespaces. */
  function ExpectedNames(pair: Pair, kind: Kind, c: string): seq<string>
    requires c in pair.clusters
  {
    if kind == Service then Names(pair.clusters[c].services)
    else if kind == Deployment then Names(pair.clusters[c].deployments)
    else pair.clusters[c].namespaces
  }

  function OwnListing(pair: Pair, kind: Kind, c: string, spared: seq<string>): Listing {
    Listing(Managed(c), kind, BindingClusterSelector(pair.binding.name, c), spared)
  }

  function SharedListing(kind: Kind, c: string, spared: seq<string>): Listing {
    Listing(Managed(c), kind, ManagedLabelsNoBinding(c), spared)
  }

  function MatchedOrphans(pair: Pair, kind: Kind): set<Listing> {
    set c | c in pair.clusters :: OwnListing(pair, kind, c, ExpectedNames(pair, kind, c))
  }

  function UnmatchedOrphans(pair: Pair, kind: Kind, connected: set<string>, spared: seq<string>): set<Listing> {
    set c | c in connected - pair.clusters.Keys :: OwnListing(pair, kind, c, spared)
  }

  /** Every cluster of the pair has a connection. */
  predicate AllConnected(pair: Pair, connected: set<string>) {
    pair.clusters.Keys <= connected
  }

  /** Deployments and services: nothing is cleaned up unless all clusters of the pair are connected. */
  function OrphanedWorkloads(pair: Pair, kind: Kind, connected: set<string>): set<Listing> {
    if AllConnected(pair, connected) then MatchedOrphans(pair, kind) + UnmatchedOrphans(pair, kind, connected, [])
    else {}
  }

  const KEPT_NAMESPACES := [MONITORING, VERRAZZANO_SYSTEM]
  const KEPT_ROLES := [VERRAZZANO_SYSTEM, VERRAZZANO_SYSTEM_ADMIN]

  /** A cluster that lists no namespaces at all is skipped. */
  function MatchedNamespaces(pair: Pair): set<Listing> {
    set c | c in pair.clusters && pair.clusters[c].namespaces != [] ::
      OwnListing(pair, Namespace, c, ExpectedNames(pair, Namespace, c))
  }

  /** Shared namespaces go when no pair uses the cluster any more. */
  ghost function UnusedClusterNamespaces(pair: Pair, pairs: map<string, Pair>, connected: set<string>): set<Listing> {
    set c | c in connected - pair.clusters.Keys && !ClusterInBinding(c, pairs) ::
        SharedListing(Namespace, c, KEPT_NAMESPACES)
  }

  ghost function OrphanedNamespaces(pair: Pair, pairs: map<string, Pair>, connected: set<string>): set<Listing> {
    if AllConnected(pair, connected) then
      MatchedNamespaces(pair) + UnmatchedOrphans(pair, Namespace, connected, [MONITORING])
      + UnusedClusterNamespaces(pair, pairs, connected)
    else {}
  }

  ghost function Orphans(pair: Pair, pairs: map<string, Pair>, connected: set<string>): set<Listing> {
    OrphanedWorkloads(pair, Service, connected) + OrphanedWorkloads(pair, Deployment, connected)
    + UnmatchedOrphans(pair, ClusterRoleBinding, connected, []) + UnmatchedOrphans(pair, ClusterRole, connected, [])
    + UnmatchedOrphans(pair, ConfigMap, connected, []) + OrphanedNamespaces(pair, pairs, connected)
  }

  // ---------- the passes of a sync in order ----------

  const CREATE_KINDS: seq<Kind> :=
    [Namespace, ServiceAccount, ConfigMap, ClusterRole, ClusterRoleBinding, Deployment, Service, DaemonSet]

  function CreatePasses(pair: Pair): seq<set<Desired>> {
    seq(|CREATE_KINDS|, i requires 0 <= i < |CREATE_KINDS| => WantedOf(pair, CREATE_KINDS[i]))
  }

  /** The clean-ups of custom resources, service entries and ingresses have no body. */
  ghost function CleanupPasses(pair: Pair, pairs: map<string, Pair>, connected: set<string>): seq<set<Listing>> {
    [{}, OrphanedWorkloads(pair, Service, connected), OrphanedWorkloads(pair, Deployment, connected), {}, {},
     UnmatchedOrphans(pair, ClusterRoleBinding, connected, []), UnmatchedOrphans(pair, ClusterRole, connected, []),
     UnmatchedOrphans(pair, ConfigMap, connected, []), OrphanedNamespaces(pair, pairs, connected)]
  }

  lemma AllCreatePasses(pair: Pair)
    ensures AllDesired(CreatePasses(pair)) == AllWanted(pair)
  {
    hide WantedOf;
    var ps := CreatePasses(pair);
    forall d | d in AllWanted(pair) ensures d in AllDesired(ps) {
      assert d in ps[0] || d in ps[1] || d in ps[2] || d in ps[3]
             || d in ps[4] || d in ps[5] || d in ps[6] || d in ps[7];
    }
  }

  lemma AllCleanupPasses(pair: Pair, pairs: map<string, Pair>, connected: set<string>)
    ensures AllOf(CleanupPasses(pair, pairs, connected)) == Orphans(pair, pairs, connected)
  {
    hide OrphanedWorkloads, UnmatchedOrphans, OrphanedNamespaces;
    var ps := CleanupPasses(pair, pairs, connected);
    forall l | l in Orphans(pair, pairs, connected) ensures l in AllOf(ps) {
      assert l in ps[1] || l in ps[2] || l in ps[5] || l in ps[6] || l in ps[7] || l in ps[8];
    }
  }

  // ---------- listings of a binding's deletion ----------

  function DeletedWorkloadsOn(pair: Pair, kind: Kind, clusters: set<string>): set<Listing> {
    set c | c in clusters :: Listing(Managed(c), kind, ManagedBindingLabels(pair.binding.name, c), [])
  }

  function DeletedWorkloads(pair: Pair, kind: Kind): set<Listing> {
    DeletedWorkloadsOn(pair, kind, pair.clusters.Keys)
  }

  /** Names that survive the deletion of namespaces, cluster roles and cluster role bindings. */
  function Kept(kind: Kind): seq<string> {
    if kind == Namespace then KEPT_NAMESPACES else KEPT_ROLES
  }

  function ClusterWideListing(pair: Pair, kind: Kind, c: string, bindingLabel: bool): Listing {
    if bindingLabel then Listing(Managed(c), kind, BindingSelector(pair.binding.name), Kept(kind))
    else SharedListing(kind, c, Kept(kind))
  }

  function DeletedClusterWide(pair: Pair, kind: Kind, bindingLabel: bool): set<Listing> {
    set c | c in pair.clusters :: ClusterWideListing(pair, kind, c, bindingLabel)
  }

  function DeletedRolesAndNamespaces(pair: Pair, bindingLabel: bool): set<Listing> {
    DeletedClusterWide(pair, ClusterRoleBinding, bindingLabel) + DeletedClusterWide(pair, ClusterRole, bindingLabel)
    + DeletedClusterWide(pair, Namespace, bindingLabel)
  }

  /** Everything deleted on the managed clusters; last: no other pair is left. */
  function DeletedManaged(pair: Pair, last: bool): set<Listing> {
    DeletedWorkloads(pair, Service) + DeletedWorkloads(pair, Deployment) + DeletedRolesAndNamespaces(pair, true)
    + (if last then DeletedRolesAndNamespaces(pair, false) else {})
  }

  /** With a cluster of the pair unconnected the managed clusters are skipped altogether. */
  function Deleted(pair: Pair, connected: set<string>, last: bool): set<Listing> {
    if AllConnected(pair, connected) then DeletedManaged(pair, last) else {}
  }

  function LocalListing(kind: Kind, binding: string): Listing {
    Listing(Management, kind, BindingSelector(binding), [])
  }

  // ---------- the passes of a deletion in order ----------

  function IfConnected(pair: Pair, connected: set<string>, ls: set<Listing>): set<Listing> {
    if AllConnected(pair, connected) then ls else {}
  }

  function ClusterWidePasses(pair: Pair, connected: set<string>, bindingLabel: bool): seq<set<Listing>> {
    [IfConnected(pair, connected, DeletedClusterWide(pair, ClusterRoleBinding, bindingLabel)),
     IfConnected(pair, connected, DeletedClusterWide(pair, ClusterRole, bindingLabel)),
     IfConnected(pair, connected, DeletedClusterWide(pair, Namespace, bindingLabel))]
  }

  function WorkloadPasses(pair: Pair, connected: set<string>): seq<set<Listing>> {
    [IfConnected(pair, connected, DeletedWorkloads(pair, Service)),
     IfConnected(pair, connected, DeletedWorkloads(pair, Deployment))]
  }

  function LocalPasses(binding: string): seq<set<Listing>> {
    [{LocalListing(Secret, binding)}, {LocalListing(ConfigMap, binding)}]
  }

  /** Everything after the VMIs: namespaces last, and what is shared only after the binding's own. */
  function DeletionPasses(binding: string, pair: Pair, connected: set<string>, last: bool): seq<set<Listing>> {
    LocalPasses(binding) + WorkloadPasses(pair, connected) + ClusterWidePasses(pair, connected, true)
    + (if last then ClusterWidePasses(pair, connected, false) else [])
  }

  lemma AllOfSum(ps: seq<set<Listing>>, qs: seq<set<Listing>>)
    ensures AllOf(ps + qs) == AllOf(ps) + AllOf(qs)
  {
    forall l | l in AllOf(qs) ensures l in AllOf(ps + qs) {
      var i :| 0 <= i < |qs| && l in qs[i];
      assert l in (ps + qs)[|ps| + i];
    }
    forall l | l in AllOf(ps) ensures l in AllOf(ps + qs) {
      var i :| 0 <= i < |ps| && l in ps[i];
      assert l in (ps + qs)[i];
    }
  }

  lemma AllDeletionPasses(binding: string, pair: Pair, connected: set<string>, last: bool)
    ensures AllOf(DeletionPasses(binding, pair, connected, last))
         == {LocalListing(Secret, binding), LocalListing(ConfigMap, binding)} + Deleted(pair, connected, last)
  {
    hide DeletedWorkloads, DeletedClusterWide, LocalListing;
    var local, workloads := LocalPasses(binding), WorkloadPasses(pair, connected);
    var own := ClusterWidePasses(pair, connected, true);
    var shared := if last then ClusterWidePasses(pair, connected, false) else [];
    AllOfSum(local, workloads);
    AllOfSum(local + workloads, own);
    AllOfSum(local + workloads + own, shared);
    AllOfTwo(local);
    AllOfTwo(workloads);
    AllOfThree(own);
    if last {
      AllOfThree(shared);
    }
  }

  lemma AllOfTwo(ps: seq<set<Listing>>)
    requires |ps| == 2
    ensures AllOf(ps) == ps[0] + ps[1]
  {
  }

  lemma AllOfThree(ps: seq<set<Listing>>)
    requires |ps| == 3
    ensures AllOf(ps) == ps[0] + ps[1] + ps[2]
  {
  }

  // ---------- the listings one by one ----------

  /** One listing of a clean-up, seen from its cluster. */
  ghost predicate OrphanListing(pair: Pair, pairs: map<string, Pair>, connected: set<string>, l: Listing) {
    && l.site.Managed? && l.kind in {Service, Deployment, ClusterRole, ClusterRoleBinding, ConfigMap, Namespace}
    && var c := l.site.cluster;
       if c in pair.clusters then
         l.kind in {Service, Deployment, Namespace} && l == OwnListing(pair, l.kind, c, ExpectedNames(pair, l.kind, c))
       else
         && c in connected
         && (|| l == OwnListing(pair, l.kind, c, if l.kind == Namespace then [MONITORING] else [])
             || (l == SharedListing(Namespace, c, KEPT_NAMESPACES) && !ClusterInBinding(c, pairs)))
  }

  lemma OrphanListings(pair: Pair, pairs: map<string, Pair>, connected: set<string>, l: Listing)
    requires l in Orphans(pair, pairs, connected)
    ensures OrphanListing(pair, pairs, connected, l)
  {
    hide ExpectedNames, ClusterInBinding, OwnListing, SharedListing;
    if l in OrphanedNamespaces(pair, pairs, connected) {
      NamespaceListings(pair, pairs, connected, l);
    } else if l in UnmatchedOrphans(pair, ClusterRoleBinding, connected, []) {
      UnmatchedListing(pair, ClusterRoleBinding, connected, [], l);
    } else if l in UnmatchedOrphans(pair, ClusterRole, connected, []) {
      UnmatchedListing(pair, ClusterRole, connected, [], l);
    } else if l in UnmatchedOrphans(pair, ConfigMap, connected, []) {
      UnmatchedListing(pair, ConfigMap, connected, [], l);
    } else {
      var kind := if l in OrphanedWorkloads(pair, Service, connected) then Service else Deployment;
      WorkloadListing(pair, kind, connected, l);
    }
  }

  lemma UnmatchedListing(pair: Pair, kind: Kind, connected: set<string>, spared: seq<string>, l: Listing)
    requires l in UnmatchedOrphans(pair, kind, connected, spared)
    ensures l.site.Managed? && l.site.cluster in connected && l.site.cluster !in pair.clusters
    ensures l.kind == kind && l == OwnListing(pair, kind, l.site.cluster, spared)
  {
  }

  lemma WorkloadListing(pair: Pair, kind: Kind, connected: set<string>, l: Listing)
    requires l in OrphanedWorkloads(pair, kind, connected)
    ensures l.site.Managed? && l.kind == kind
    ensures var c := l.site.cluster;
            if c in pair.clusters then l == OwnListing(pair, kind, c, ExpectedNames(pair, kind, c))
            else c in connected && l == OwnListing(pair, kind, c, [])
  {
    hide ExpectedNames;
    if l in UnmatchedOrphans(pair, kind, connected, []) {
      UnmatchedListing(pair, kind, connected, [], l);
    }
  }

  lemma NamespaceListings(pair: Pair, pairs: map<string, Pair>, connected: set<string>, l: Listing)
    requires l in OrphanedNamespaces(pair, pairs, connected)
    ensures OrphanListing(pair, pairs, connected, l)
  {
    hide ClusterInBinding;
    if l in UnmatchedOrphans(pair, Namespace, connected, [MONITORING]) {
      UnmatchedListing(pair, Namespace, connected, [MONITORING], l);
    }
  }

  /** One listing of a deletion. */
  predicate DeletedListing(pair: Pair, last: bool, l: Listing) {
    && l.site.Managed? && l.site.cluster in pair.clusters
    && var c := l.site.cluster;
       || (l.kind in {Service, Deployment}
           && l == Listing(Managed(c), l.kind, ManagedBindingLabels(pair.binding.name, c), []))
       || (l.kind in {ClusterRole, ClusterRoleBinding, Namespace}
           && (l == ClusterWideListing(pair, l.kind, c, true)
               || (last && l == ClusterWideListing(pair, l.kind, c, false))))
  }

  lemma DeletedListings(pair: Pair, last: bool, l: Listing)
    ensures l in DeletedManaged(pair, last) <==> DeletedListing(pair, last, l)
  {
    hide DeletedClusterWide, DeletedWorkloads, Kept;
    DeletedWorkloadListing(pair, Service, l);
    DeletedWorkloadListing(pair, Deployment, l);
    forall bindingLabel: bool
      ensures l in DeletedRolesAndNamespaces(pair, bindingLabel)
         <==> l.site.Managed? && l.site.cluster in pair.clusters
              && l.kind in {ClusterRole, ClusterRoleBinding, Namespace}
              && l == ClusterWideListing(pair, l.kind, l.site.cluster, bindingLabel)
    {
      DeletedClusterWideListing(pair, ClusterRole, bindingLabel, l);
      DeletedClusterWideListing(pair, ClusterRoleBinding, bindingLabel, l);
      DeletedClusterWideListing(pair, Namespace, bindingLabel, l);
    }
  }

  lemma DeletedClusterWideListing(pair: Pair, kind: Kind, bindingLabel: bool, l: Listing)
    ensures l in DeletedClusterWide(pair, kind, bindingLabel)
       <==> l.site.Managed? && l.site.cluster in pair.clusters
            && l == ClusterWideListing(pair, kind, l.site.cluster, bindingLabel)
  {
  }

  lemma DeletedWorkloadListing(pair: Pair, kind: Kind, l: Listing)
    ensures l in DeletedWorkloads(pair, kind)
       <==> l.site.Managed? && l.site.cluster in pair.clusters
            && l == Listing(l.site, kind, ManagedBindingLabels(pair.binding.name, l.site.cluster), [])
  {
  }
}

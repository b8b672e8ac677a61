/**
 The controller as a state machine: its four maps, the cloud, and one step relation per event handler.
 Class Controllers.Controller implements the steps; the run theorems are about this machine.
 */
module Machine {
  import opened Labels
  import opened Clouds
  import opened Types
  import opened Passes
  import opened Location
  import opened Fleets

  datatype State = State(
    models: map<string, SyntheticModel>,
    bindings: map<string, SyntheticBinding>,
    pairs: map<string, Pair>,
    counters: map<string, nat>,
    cloud: Cloud)

  datatype Event =
    | AddModel(model: SyntheticModel)
    | DeleteModel(model: SyntheticModel)
    | AddBinding(binding: SyntheticBinding)
    | DeleteBinding(binding: SyntheticBinding)
    | Connect(cluster: string)

  // ---------- models ----------

  ghost predicate Waiting(s: State, n: string, model: SyntheticModel) {
    n in s.bindings && n !in s.pairs && s.bindings[n].modelName == model.name
  }

  predicate KnownModel(s: State, model: SyntheticModel) {
    model.name in s.models && s.models[model.name].resourceVersion == model.resourceVersion
  }

  /** A new or changed model pairs one of the bindings waiting for it, if there is one. */
  ghost predicate ModelAdded(s: State, model: SyntheticModel, s': State) {
    if KnownModel(s, model) then s' == s
    else
      || (s' == s.(models := s.models[model.name := model]) && forall n :: !Waiting(s, n, model))
      || exists n :: Waiting(s, n, model)
                     && s' == s.(models := s.models[model.name := model],
                         pairs := s.pairs[n := PairOf(model, s.bindings[n])])
  }

  // ---------- bindings ----------

  predicate Unchanged(s: State, b: SyntheticBinding) {
    b.name in s.bindings && s.bindings[b.name].resourceVersion == b.resourceVersion
  }

  /** An unchanged binding is only synced on every fifth event after the first. */
  predicate Throttled(s: State, b: SyntheticBinding) {
    Unchanged(s, b) && (b.name in s.counters ==> s.counters[b.name] < 4)
  }

  function Recorded(s: State, b: SyntheticBinding): State {
    if !Unchanged(s, b) then s.(bindings := s.bindings[b.name := b])
    else if b.name in s.counters && s.counters[b.name] < 4 then
      s.(counters := s.counters[b.name := s.counters[b.name] + 1])
    else s.(counters := s.counters[b.name := 0])
  }

  /** The pair is created or rebuilt if the model is known; otherwise an old pair stays as it is. */
  function Paired(s: State, b: SyntheticBinding): State {
    if b.modelName in s.models then s.(pairs := s.pairs[b.name := PairOf(s.models[b.modelName], b)]) else s
  }

  /** The sync of one pair: local passes, create passes, clean-up passes; errors do not stop it. */
  ghost predicate Synced(differs: Differ, a: Cloud, local: Cloud, made: Cloud, b: Cloud, pair: Pair,
                         pairs: map<string, Pair>, okMade: bool, ok: bool) {
    && local.connected == a.connected && local.writes == a.writes && local.failures == a.failures
    && AgreeOnManaged(a.objects, local.objects)
    && Provisioned(differs, local, made, AllWanted(pair), okMade)
    && Swept(made, b, Orphans(pair, pairs, a.connected), ok)
  }

  /** No pass was skipped, whatever failed before. */
  ghost predicate EachPassRan(differs: Differ, local: Cloud, made: Cloud, b: Cloud, pair: Pair,
                              pairs: map<string, Pair>)
  {
    && (exists failed :: ProvisionedEach(differs, local, made, CreatePasses(pair), failed))
    && exists failed :: SweptEach(made, b, CleanupPasses(pair, pairs, local.connected), failed)
  }

  /** The wait for the clusters of the pair fails and nothing else happens, or the pair is synced. */
  ghost predicate Reconciled(differs: Differ, s: State, n: string, s': State)
    requires n in s.pairs
  {
    && s' == s.(cloud := s'.cloud)
    && (Failed(s.cloud, s'.cloud)
        || (AllConnected(s.pairs[n], s.cloud.connected)
            && exists local, made, okMade, ok ::
                && Synced(differs, s.cloud, local, made, s'.cloud, s.pairs[n], s.pairs, okMade, ok)
                && EachPassRan(differs, local, made, s'.cloud, s.pairs[n], s.pairs)))
  }

  /** A binding may arrive already marked for deletion, before it or its pair is known. */
  function Adopted(s: State, b: SyntheticBinding): State {
    var t := if b.name in s.bindings then s else s.(bindings := s.bindings[b.name := b]);
    if b.name in t.pairs then t else Paired(t, b)
  }

  ghost predicate BindingAdded(differs: Differ, s: State, b: SyntheticBinding, s': State) {
    if b.deleting then
      if FINALIZER in b.finalizers then BindingDeleted(Adopted(s, b), b, s') else s' == s
    else if Throttled(s, b) then s' == Recorded(s, b)
    else
      var r := Paired(Recorded(s, b), b);
      if b.name in r.pairs then Reconciled(differs, r, b.name, s') else s' == r
  }

  /** Deleted after the VMIs: secrets and config maps, then everything on the managed clusters. */
  function Deletion(s: State, n: string): set<Listing>
    requires n in s.pairs
  {
    {LocalListing(Secret, n), LocalListing(ConfigMap, n)} + Deleted(s.pairs[n], s.cloud.connected, |s.pairs| == 1)
  }

  function PassesOf(s: State, n: string): seq<set<Listing>>
    requires n in s.pairs
  {
    DeletionPasses(n, s.pairs[n], s.cloud.connected, |s.pairs| == 1)
  }

  function Forgotten(s: State, n: string): State {
    s.(bindings := s.bindings - {n}, pairs := s.pairs - {n}, counters := s.counters - {n})
  }

  /** An error while deleting VMIs is ignored; any later error stops the deletion before the maps change. */
  ghost predicate DeletionRun(s: State, n: string, vmis: Cloud, s': State, vmiOk: bool, ok: bool)
    requires n in s.pairs
  {
    && Swept(s.cloud, vmis, {LocalListing(Vmi, n)}, vmiOk)
    && SweptInOrder(vmis, s'.cloud, PassesOf(s, n), ok)
    && s' == (if ok then Forgotten(s, n) else s).(cloud := s'.cloud)
  }

  ghost predicate BindingDeleted(s: State, b: SyntheticBinding, s': State) {
    if FINALIZER !in b.finalizers || b.name !in s.pairs then s' == s
    else exists vmis, vmiOk, ok :: DeletionRun(s, b.name, vmis, s', vmiOk, ok)
  }

  // ---------- clusters ----------

  const SYSTEM_MODEL := SyntheticModel(SYSTEM_BINDING, "")
  const SYSTEM := SyntheticBinding(SYSTEM_BINDING, "", false, [], "", [])

  /** The pair for the operator's own objects on a new cluster; it never enters the map of pairs. */
  function SystemPair(c: string): Pair {
    Pair(SYSTEM_MODEL, SYSTEM, map[c := ManagedCluster(c, [MONITORING], map[], [], [], [])])
  }

  ghost predicate ClusterConnected(differs: Differ, s: State, c: string, s': State) {
    && s' == s.(cloud := s'.cloud)
    && (Failed(s.cloud, s'.cloud)
        || (c in s.cloud.connected && s' == s)
        || (c !in s.cloud.connected
            && var before := s.cloud.(connected := s.cloud.connected + {c});
               && (exists ok :: Provisioned(differs, before, s'.cloud, AllWanted(SystemPair(c)), ok))
               && exists failed :: ProvisionedEach(differs, before, s'.cloud, CreatePasses(SystemPair(c)), failed)))
  }

  ghost predicate Step(differs: Differ, s: State, e: Event, s': State) {
    match e
    case AddModel(m) => ModelAdded(s, m, s')
    case DeleteModel(m) => s' == s.(models := s.models - {m.name})
    case AddBinding(b) => BindingAdded(differs, s, b, s')
    case DeleteBinding(b) => BindingDeleted(s, b, s')
    case Connect(c) => ClusterConnected(differs, s, c, s')
  }

  // ---------- what every step keeps ----------

  /** The pair is what building it from its own model and binding gives. */
  ghost predicate BuiltFor(n: string, p: Pair) {
    p.binding.name == n && p.model.name == p.binding.modelName && p == PairOf(p.model, p.binding)
  }

  ghost predicate Inv(s: State) {
    && (forall n | n in s.models :: s.models[n].name == n)
    && (forall n | n in s.bindings :: s.bindings[n].name == n)
    && s.pairs.Keys <= s.bindings.Keys
    && s.counters.Keys <= s.bindings.Keys
    && (forall n | n in s.counters :: s.counters[n] < 5)
    && (forall n | n in s.pairs :: BuiltFor(n, s.pairs[n]))
  }

  ghost predicate Initial(s: State) {
    s.models == map[] && s.bindings == map[] && s.pairs == map[] && s.counters == map[] && s.cloud.connected == {}
  }

  lemma BuiltByPairOf(m: SyntheticModel, b: SyntheticBinding)
    requires b.modelName == m.name
    ensures BuiltFor(b.name, PairOf(m, b))
  {
  }

  lemma PairedKeepsInv(s: State, b: SyntheticBinding)
    requires Inv(s) && b.name in s.bindings
    ensures Inv(Paired(s, b))
  {
    hide BuiltFor, PairOf;
    if b.modelName in s.models {
      BuiltByPairOf(s.models[b.modelName], b);
    }
  }

  lemma RecordedKeepsInv(s: State, b: SyntheticBinding)
    requires Inv(s)
    ensures Inv(Recorded(s, b)) && b.name in Recorded(s, b).bindings
  {
    hide BuiltFor;
  }

  lemma AdoptedKeepsInv(s: State, b: SyntheticBinding)
    requires Inv(s)
    ensures Inv(Adopted(s, b))
  {
    hide BuiltFor, PairOf;
    var t := if b.name in s.bindings then s else s.(bindings := s.bindings[b.name := b]);
    assert Inv(t);
    PairedKeepsInv(t, b);
  }

  lemma ModelAddedKeepsInv(s: State, m: SyntheticModel, s': State)
    requires Inv(s) && ModelAdded(s, m, s')
    ensures Inv(s')
  {
    hide BuiltFor, PairOf;
    forall n | Waiting(s, n, m) ensures BuiltFor(n, PairOf(m, s.bindings[n])) {
      BuiltByPairOf(m, s.bindings[n]);
    }
  }

  lemma BindingDeletedKeepsInv(s: State, b: SyntheticBinding, s': State)
    requires Inv(s) && BindingDeleted(s, b, s')
    ensures Inv(s')
  {
    hide BuiltFor, BindingDeleted;
    DeletedMaps(s, b, s');
  }

  lemma BindingAddedKeepsInv(differs: Differ, s: State, b: SyntheticBinding, s': State)
    requires Inv(s) && BindingAdded(differs, s, b, s')
    ensures Inv(s')
  {
    hide BuiltFor, BindingAdded, Recorded, Paired, Adopted, Throttled;
    AdoptedKeepsInv(s, b);
    RecordedKeepsInv(s, b);
    PairedKeepsInv(Recorded(s, b), b);
    if b.deleting {
      DeletingAddMaps(differs, s, b, s');
    } else {
      PlainAddMaps(differs, s, b, s');
    }
  }

  lemma StepKeepsInv(differs: Differ, s: State, e: Event, s': State)
    requires Inv(s) && Step(differs, s, e, s')
    ensures Inv(s')
  {
    hide ModelAdded, BindingAdded, BindingDeleted, Provisioned, AllWanted, BuiltFor;
    match e
    case AddModel(m) =>
      ModelAddedKeepsInv(s, m, s');
    case DeleteModel(m) =>
    case AddBinding(b) =>
      BindingAddedKeepsInv(differs, s, b, s');
    case DeleteBinding(b) =>
      BindingDeletedKeepsInv(s, b, s');
    case Connect(c) =>
  }

  lemma InvWellKeyed(s: State, n: string)
    requires Inv(s) && n in s.pairs
    ensures WellKeyed(s.pairs[n]) && s.pairs[n].binding.name == n
    ensures s.pairs[n].clusters.Keys == PlacementNames(s.pairs[n].binding)
    ensures forall c | c in s.pairs[n].clusters :: s.pairs[n].clusters[c] == BuiltCluster(c)
  {
    assert BuiltFor(n, s.pairs[n]);
  }

  /** No pair the controller builds, and not its own pair for a new cluster, asks for secrets to be copied. */
  lemma NoSecretsAsked(s: State, n: string, cluster: string)
    requires Inv(s) && n in s.pairs
    ensures forall c | c in s.pairs[n].clusters :: s.pairs[n].clusters[c].secrets == map[]
    ensures forall c | c in SystemPair(cluster).clusters :: SystemPair(cluster).clusters[c].secrets == map[]
  {
    InvWellKeyed(s, n);
    hide Inv;
  }

  lemma SameDeletion(s: State, t: State, n: string)
    requires n in s.pairs && s.pairs == t.pairs && s.cloud.connected == t.cloud.connected
    ensures Deletion(s, n) == Deletion(t, n) && PassesOf(s, n) == PassesOf(t, n)
  {
  }

  /** One listing of a deletion: local, or on a cluster of the pair. */
  lemma DeletionListing(s: State, n: string, l: Listing)
    requires n in s.pairs && l in Deletion(s, n)
    ensures l == LocalListing(Secret, n) || l == LocalListing(ConfigMap, n)
              || DeletedListing(s.pairs[n], |s.pairs| == 1, l)
  {
    hide DeletedManaged, DeletedListing, LocalListing;
    DeletedListings(s.pairs[n], |s.pairs| == 1, l);
  }

  lemma RunSweeps(s: State, n: string, vmis: Cloud, s': State, vmiOk: bool, ok: bool)
    requires n in s.pairs && DeletionRun(s, n, vmis, s', vmiOk, ok)
    ensures Swept(vmis, s'.cloud, Deletion(s, n), ok)
  {
    hide Swept, DeletionPasses;
    InOrderSwept(vmis, s'.cloud, PassesOf(s, n), ok);
    AllDeletionPasses(n, s.pairs[n], s.cloud.connected, |s.pairs| == 1);
  }

  // ---------- the maps after a step ----------

  lemma PlainAddMaps(differs: Differ, s: State, b: SyntheticBinding, s': State)
    requires BindingAdded(differs, s, b, s') && !b.deleting
    ensures s' == (if Throttled(s, b) then Recorded(s, b) else Paired(Recorded(s, b), b)).(cloud := s'.cloud)
  {
    hide Synced, PairOf, Recorded, Paired;
  }

  lemma ReconciledKeepsMaps(differs: Differ, s: State, n: string, s': State)
    requires n in s.pairs && Reconciled(differs, s, n, s')
    ensures s' == s.(cloud := s'.cloud)
  {
  }

  lemma DeletedMaps(s: State, b: SyntheticBinding, s': State)
    requires BindingDeleted(s, b, s')
    ensures s' == s.(cloud := s'.cloud) || s' == Forgotten(s, b.name).(cloud := s'.cloud)
  {
    hide Swept, SweptInOrder, PassesOf;
  }

  lemma DeletingAddMaps(differs: Differ, s: State, b: SyntheticBinding, s': State)
    requires BindingAdded(differs, s, b, s') && b.deleting
    ensures s' == s || s' == Adopted(s, b).(cloud := s'.cloud)
              || s' == Forgotten(Adopted(s, b), b.name).(cloud := s'.cloud)
  {
    hide Synced, PairOf, Adopted, BindingDeleted, Forgotten;
    if s' != s {
      DeletedMaps(Adopted(s, b), b, s');
    }
  }
}

/**
 What one event leaves in the maps and on the clusters, in terms of the event and the state before it, with every
 name written out.
 */
module Effects {
  import opened Labels
  import opened Clouds
  import opened Types
  import opened Passes
  import opened Reference
  import opened Location
  import opened Machine
  import opened Isolation
  import opened Convergence
  import opened Syncs
  import Limits

  // ---------- the maps ----------

  predicate SameVersion(s: State, b: SyntheticBinding) {
    b.name in s.bindings && s.bindings[b.name].resourceVersion == b.resourceVersion
  }

  /** The unchanged events that are skipped: the first one and the four after it, and then four of five. */
  predicate Skipped(s: State, b: SyntheticBinding) {
    SameVersion(s, b) && (b.name !in s.counters || s.counters[b.name] < 4)
  }

  /**
   A plain add event records a new or changed binding, counts an unchanged one, and unless it is skipped gives the
   binding a pair built from this event and its model, replacing any older pair. Without the model nothing is paired.
   */
  lemma PlainAddEffect(differs: Differ, s: State, b: SyntheticBinding, s': State)
    requires Step(differs, s, AddBinding(b), s') && !b.deleting
    ensures s'.models == s.models
    ensures s'.bindings == if SameVersion(s, b) then s.bindings else s.bindings[b.name := b]
    ensures s'.counters == if !SameVersion(s, b) then s.counters
                           else if b.name in s.counters && s.counters[b.name] < 4 then
                             s.counters[b.name := s.counters[b.name] + 1]
                           else s.counters[b.name := 0]
    ensures if !Skipped(s, b) && b.modelName in s.models then
              && b.name in s'.pairs && IsBuilt(s'.pairs[b.name], s.models[b.modelName], b)
              && s'.pairs == s.pairs[b.name := s'.pairs[b.name]]
            else s'.pairs == s.pairs
    ensures Skipped(s, b) || b.name !in s'.pairs ==> s'.cloud == s.cloud
  {
    hide PairOf, IsBuilt, Synced;
    PlainAddMaps(differs, s, b, s');
    if b.modelName in s.models {
      BuiltPair(s.models[b.modelName], b);
    }
  }

  /**
   An add event already marked for deletion: nothing at all without the finalizer; without a pair or a model to make
   one of the binding only becomes known; otherwise it is forgotten or, if a call failed, it is known and has a pair.
   */
  lemma DeletingAddEffect(differs: Differ, s: State, b: SyntheticBinding, s': State)
    requires Step(differs, s, AddBinding(b), s') && b.deleting
    ensures "vb.verrazzano.io" !in b.finalizers ==> s' == s
    ensures var bindings := if b.name in s.bindings then s.bindings else s.bindings[b.name := b];
            "vb.verrazzano.io" in b.finalizers ==>
              if b.name !in s.pairs && b.modelName !in s.models then s' == s.(bindings := bindings)
              else
                || s' == s.(bindings := s.bindings - {b.name}, pairs := s.pairs - {b.name},
                            counters := s.counters - {b.name}, cloud := s'.cloud)
                || (&& b.name in s'.pairs
                    && s' == s.(bindings := bindings, pairs := s.pairs[b.name := s'.pairs[b.name]], cloud := s'.cloud)
                    && if b.name in s.pairs then s'.pairs == s.pairs
                       else IsBuilt(s'.pairs[b.name], s.models[b.modelName], b))
  {
    hide IsBuilt, BindingDeleted, Adopted, Forgotten;
    AdoptedEffect(s, b);
    if FINALIZER in b.finalizers {
      DeleteEffect(differs, Adopted(s, b), b, s');
    }
  }

  lemma AdoptedEffect(s: State, b: SyntheticBinding)
    ensures var t := Adopted(s, b);
            && t == s.(bindings := if b.name in s.bindings then s.bindings else s.bindings[b.name := b],
                       pairs := t.pairs)
            && t.bindings - {b.name} == s.bindings - {b.name} && t.pairs - {b.name} == s.pairs - {b.name}
            && (if b.name in s.pairs || b.modelName !in s.models then t.pairs == s.pairs
                else
                  && b.name in t.pairs && t.pairs == s.pairs[b.name := t.pairs[b.name]]
                  && IsBuilt(t.pairs[b.name], s.models[b.modelName], b))
  {
    hide PairOf, IsBuilt;
    if b.modelName in s.models {
      BuiltPair(s.models[b.modelName], b);
    }
  }

  /** A delete event without the finalizer or for a binding without a pair does nothing. */
  lemma DeleteEffect(differs: Differ, s: State, b: SyntheticBinding, s': State)
    requires Step(differs, s, DeleteBinding(b), s')
    ensures "vb.verrazzano.io" !in b.finalizers || b.name !in s.pairs ==> s' == s
    ensures s' == s.(cloud := s'.cloud)
         || s' == s.(bindings := s.bindings - {b.name}, pairs := s.pairs - {b.name},
                     counters := s.counters - {b.name}, cloud := s'.cloud)
  {
    hide DeletionRun;
    DeletedMaps(s, b, s');
  }

  predicate WaitsFor(s: State, n: string, m: SyntheticModel) {
    n in s.bindings && s.bindings[n].modelName == m.name && n !in s.pairs
  }

  /** An accepted model event stores the model and pairs one binding waiting for it, built from what is stored. */
  lemma ModelEffect(differs: Differ, s: State, m: SyntheticModel, s': State)
    requires Step(differs, s, AddModel(m), s')
    ensures s' == s.(models := s'.models, pairs := s'.pairs)
    ensures if m.name in s.models && s.models[m.name].resourceVersion == m.resourceVersion then s' == s
            else
              && s'.models == s.models[m.name := m]
              && ((s'.pairs == s.pairs && forall n :: !WaitsFor(s, n, m))
                  || exists n :: WaitsFor(s, n, m) && n in s'.pairs && IsBuilt(s'.pairs[n], m, s.bindings[n])
                                 && s'.pairs == s.pairs[n := s'.pairs[n]])
  {
    hide PairOf, IsBuilt;
    if !KnownModel(s, m) {
      assert forall n :: Waiting(s, n, m) <==> WaitsFor(s, n, m);
      if n :| Waiting(s, n, m) && s'.pairs == s.pairs[n := PairOf(m, s.bindings[n])] {
        BuiltPair(m, s.bindings[n]);
      }
    }
  }

  // ---------- the clusters ----------

  /** Everything the node exporter needs on a cluster, up to date. */
  ghost predicate ExporterInstalled(differs: Differ, c: string, b: Cloud) {
    && Address(Managed(c), Namespace, "", "monitoring") in b.objects
    && UpToDate(differs, b, Address(Managed(c), ServiceAccount, "monitoring", "node-exporter"),
                Resource(ExporterLabels(c), SERVICE_ACCOUNT_CONTENT))
    && UpToDate(differs, b, Address(Managed(c), ClusterRole, "", "node-exporter"),
                Resource(ExporterLabels(c), NODE_EXPORTER_ROLE_CONTENT))
    && UpToDate(differs, b, Address(Managed(c), ClusterRoleBinding, "", "node-exporter"),
                Resource(ExporterLabels(c), NODE_EXPORTER_ROLE_BINDING_CONTENT))
    && UpToDate(differs, b, Address(Managed(c), Service, "monitoring", "node-exporter"),
                Resource(ExporterLabels(c), NODE_EXPORTER_SERVICE_CONTENT))
    && UpToDate(differs, b, Address(Managed(c), DaemonSet, "monitoring", "node-exporter"),
                Resource(ExporterLabels(c), NODE_EXPORTER_DAEMON_SET_CONTENT))
  }

  /** The objects of the node exporter and of its namespace. */
  predicate ExporterAddress(c: string, at: Address) {
    && at.site == Managed(c)
    && if at.kind == Namespace then at.namespace == "" && at.name == "monitoring"
       else if at.kind in {ClusterRole, ClusterRoleBinding} then at.namespace == "" && at.name == "node-exporter"
       else
         && at.kind in {ServiceAccount, Service, DaemonSet}
         && at.namespace == "monitoring" && at.name == "node-exporter"
  }

  function ExporterAddressLabels(c: string, at: Address): LabelSet {
    if at.kind == Namespace then OwnLabels("system", c) else ExporterLabels(c)
  }

  /** The two definitions of what a pair wants say the same of the operator's own pair for a cluster. */
  lemma SystemAsks(c: string, d: Desired)
    ensures d in AllWanted(SystemPair(c)) ==>
              ExporterAddress(c, d.at) && d.resource.labels == ExporterAddressLabels(c, d.at)
    ensures d in AllWanted(SystemPair(c)) <==> Asked(SystemPair(c), d)
  {
    hide AllWanted, OwnLabels, ExporterLabels;
    WantedIffAsked(SystemPair(c), d);
  }

  lemma AskedIsSettled(differs: Differ, b: Cloud, c: string, at: Address, r: Resource)
    requires Settled(differs, b, AllWanted(SystemPair(c))) && Asked(SystemPair(c), Desired(at, r))
    ensures SettledAt(differs, b, Desired(at, r))
  {
    hide Asked, AllWanted;
    SystemAsks(c, Desired(at, r));
  }

  lemma ExporterSettled(differs: Differ, b: Cloud, c: string)
    requires Settled(differs, b, AllWanted(SystemPair(c)))
    ensures ExporterInstalled(differs, c, b)
  {
    hide Settled, OwnLabels, ExporterLabels, AllWanted;
    var labels := ExporterLabels(c);
    AskedIsSettled(differs, b, c, Address(Managed(c), Namespace, "", "monitoring"),
        Resource(OwnLabels("system", c), NAMESPACE_CONTENT));
    AskedIsSettled(differs, b, c, Address(Managed(c), ServiceAccount, "monitoring", "node-exporter"),
        Resource(labels, SERVICE_ACCOUNT_CONTENT));
    AskedIsSettled(differs, b, c, Address(Managed(c), ClusterRole, "", "node-exporter"),
        Resource(labels, NODE_EXPORTER_ROLE_CONTENT));
    AskedIsSettled(differs, b, c, Address(Managed(c), ClusterRoleBinding, "", "node-exporter"),
        Resource(labels, NODE_EXPORTER_ROLE_BINDING_CONTENT));
    AskedIsSettled(differs, b, c, Address(Managed(c), Service, "monitoring", "node-exporter"),
        Resource(labels, NODE_EXPORTER_SERVICE_CONTENT));
    AskedIsSettled(differs, b, c, Address(Managed(c), DaemonSet, "monitoring", "node-exporter"),
        Resource(labels, NODE_EXPORTER_DAEMON_SET_CONTENT));
  }

  /**
   Connecting to a cluster for the first time installs the node exporter there, if no call fails. Whatever fails, it
   writes only the node exporter's objects on that cluster and their namespace, with their own labels. Connecting again
   does nothing, so what a failed first time left out is not created by a later one.
   */
  lemma ConnectEffect(differs: Differ, s: State, c: string, s': State)
    requires Step(differs, s, Connect(c), s')
    ensures s' == s.(cloud := s'.cloud)
    ensures c in s.cloud.connected ==> Untouched(s.cloud, s'.cloud)
    ensures s.cloud.connected <= s'.cloud.connected <= s.cloud.connected + {c}
    ensures forall at | at in s.cloud.objects :: at in s'.cloud.objects
    ensures forall at | at in s'.cloud.objects
                  && (at in s.cloud.objects ==> s'.cloud.objects[at] != s.cloud.objects[at]) ::
              ExporterAddress(c, at) && s'.cloud.objects[at].labels == ExporterAddressLabels(c, at)
    ensures s'.cloud.failures == s.cloud.failures && c !in s.cloud.connected ==>
              c in s'.cloud.connected && ExporterInstalled(differs, c, s'.cloud)
  {
    hide AllWanted, ExporterAddress, ExporterAddressLabels, ExporterInstalled, SystemPair;
    if !Failed(s.cloud, s'.cloud) && c !in s.cloud.connected {
      var before := s.cloud.(connected := s.cloud.connected + {c});
      var ok :| Provisioned(differs, before, s'.cloud, AllWanted(SystemPair(c)), ok);
      SystemDistinct(c);
      if ok {
        ExporterSettled(differs, s'.cloud, c);
      }
      forall at | at in s'.cloud.objects && WrittenFor(differs, AllWanted(SystemPair(c)), at, s'.cloud.objects[at])
        ensures ExporterAddress(c, at) && s'.cloud.objects[at].labels == ExporterAddressLabels(c, at)
      {
        var d :| d in AllWanted(SystemPair(c)) && d.at == at && Realises(differs, s'.cloud.objects[at], d.resource);
        SystemAsks(c, d);
      }
    }
  }

  lemma SystemDistinct(c: string)
    ensures Distinct(AllWanted(SystemPair(c)))
  {
    WantedDistinct(SystemPair(c));
  }

  /** The pair wants some object at this address. */
  ghost predicate AskedAt(pair: Pair, at: Address) {
    exists d :: Asked(pair, d) && d.at == at
  }

  /**
   What an add event leaves on the clusters, exactly. If it syncs and no call fails, an object is there afterwards if
   and only if the pair asks for one, or it was there before and is no orphan. What is asked for is up to date, or
   carries the labels asked for if it was made or changed; everything else is as before.
   */
  lemma AddLeaves(differs: Differ, s: State, b: SyntheticBinding, s': State, at: Address)
    requires Inv(s) && Step(differs, s, AddBinding(b), s') && Syncing(s, b) && s'.cloud.failures == s.cloud.failures
    requires b.name != SYSTEM_BINDING && at.site.Managed?
    ensures b.name in s'.pairs
    ensures var pair, before, after := s'.pairs[b.name], s.cloud.objects, s'.cloud.objects;
            && (at in after <==>
                AskedAt(pair, at) || (at in before && !Orphaned(pair, s'.pairs, s.cloud.connected, at, before[at])))
            && (at in after ==>
                || (at in before && after[at] == before[at])
                || exists d :: Asked(pair, d) && d.at == at && after[at].labels == d.resource.labels)
            && forall d | Asked(pair, d) && d.at == at :: SettledAt(differs, s'.cloud, d)
  {
    hide Inv, Step, Syncing, Synced, Asked, Orphaned, AllWanted, Orphans, Built, AllConnected;
    var local, made := Limits.AddSynced(differs, s, b, s');
    var pair := s'.pairs[b.name];
    assert WellKeyed(pair) by { BuiltKeyed(pair); }
    forall d ensures d in AllWanted(pair) <==> Asked(pair, d) {
      WantedIffAsked(pair, d);
    }
    forall o { OrphanedIffDoomed(pair, s'.pairs, s.cloud.connected, at, o); }
    forall d, o | d in AllWanted(pair) && d.at == at
      ensures !Doomed(Orphans(pair, s'.pairs, s.cloud.connected), at, o)
    {
      OrphansSpareWanted(pair, s'.pairs, s.cloud.connected, d, o);
    }
    Limits.BuiltDistinct(pair);
    SyncLeaves(differs, s.cloud, local, made, s'.cloud, pair, s'.pairs, at);
  }

  lemma BuiltKeyed(pair: Pair)
    requires Built(pair)
    ensures WellKeyed(pair)
  {
  }

  lemma SyncLeaves(differs: Differ, a: Cloud, local: Cloud, made: Cloud, b: Cloud, pair: Pair, pairs: map<string, Pair>,
                   at: Address)
    requires Synced(differs, a, local, made, b, pair, pairs, true, true)
    requires Distinct(AllWanted(pair)) && at.site.Managed?
    requires forall d, o | d in AllWanted(pair) && d.at == at :: !Doomed(Orphans(pair, pairs, a.connected), at, o)
    ensures at in b.objects
       <==> || (exists d :: d in AllWanted(pair) && d.at == at)
            || (at in a.objects && !Doomed(Orphans(pair, pairs, a.connected), at, a.objects[at]))
    ensures at in b.objects ==>
              || (at in a.objects && b.objects[at] == a.objects[at])
              || exists d :: d in AllWanted(pair) && d.at == at && b.objects[at].labels == d.resource.labels
    ensures forall d | d in AllWanted(pair) && d.at == at :: SettledAt(differs, b, d)
  {
    hide AllWanted, Orphans, Doomed;
    forall d | d in AllWanted(pair) && d.at == at ensures SettledAt(differs, b, d) {
      assert SettledAt(differs, made, d);
    }
  }
}

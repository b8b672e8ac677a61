# Reconciliation engine of the Verrazzano operator: a verified model

The operator watches models and bindings, joins them into model/binding pairs, and makes a set of
Kubernetes clusters agree with each pair: it creates what a pair wants, cleans up what it no longer wants,
and deletes everything when the binding goes. This project models that engine in Dafny and proves what
every run of it does and does not do.

## How it is modelled

- `Clouds` holds the objects of the management cluster and of all managed clusters, at addresses of
  site, kind, namespace and name. Every deleting pass is a set of *listings* (list by kind and selector on a
  site, delete what is not spared by name), every creating pass a set of *desired objects*. `Swept` and
  `Provisioned` say what such a pass may do when any API call may fail, with or without effect. Failing calls and
  waits are counted, and a pass may end with an error only if the count grew, so no step can be skipped behind an
  error. `SweptInOrder` runs several deleting passes one after the other up to the first error.
- `Passes` says, as functions of the pair, what each pass of the managed package wants and lists. `Fleets` is the API
  (class `Fleet`, with the read locks of the connections), `Managed` the passes as loops over it.
- `Reference` says the same a second time, object by object and with every name and label written out: what a pair asks
  for and what is an orphan of it. It is proved to agree with `Passes`.
- `Location` is the pair as an object that is rebuilt in place under its lock.
- `Machine` is the controller as a state machine: four maps, the cloud, and one step relation per
  handler. `Controllers.Controller` is the class with the handlers; each is proved to take a step of the machine.
- `Effects` says what one event leaves in the maps and on the clusters in terms of the event itself, `Failures` what
  failing calls cost.
- `Isolation`, `Survival`, `Deletions`, `Convergence`, `Syncs` and `Throttle` prove the main theorems, over whole
  runs, about the machine; `Limits` says exactly where isolation and survival end.
- `Vmis`, `AcmeDns`, `VmiSecrets`, `SecretCopy` and `SliceRemove` model the smaller protocols and algorithms
  with their own main theorems.

Go maps are iterated in an arbitrary order throughout. Deferred unlocks are a list that is released in reverse when a
call returns; an early return is the exit of a loop through its error flag. A connection may be
read-locked only once per call (a precondition of `Fleet.RLock`), and a cluster without a connection would be a nil
pointer in the create passes (a precondition of `Managed.Create`); the controller proves both.

## Where the code does not do what one may expect

Each of these is proved, with the exact condition:

- A deletion that runs while a cluster of the pair is not connected deletes nothing on any managed cluster,
  and still forgets the binding (`Deletions.LeftoversIff`).
- The selector for shared objects also matches a binding's labels. On a connected cluster on which no pair is placed, a
  sync of any binding deletes the namespaces of other bindings as well, but for monitoring and verrazzano-system
  (`Limits.ErrorFreeAddOnOthers`, `Limits.NamespaceTakenExample`).
- A sync of a binding named "system" overwrites a differing service monitoring/node-exporter of another binding on
  its clusters, and the clean-up of the same sync deletes it (`Limits.ErrorFreeAddOnOthers`,
  `Limits.ServiceTakenExample`). Apart from these two cases no object of another binding with a pair is ever deleted
  (`Isolation.StepIsolation`).
- A sync of a binding named "system" also deletes the operator's own monitoring namespace on the clusters of that
  binding, the node exporter's roles and role bindings on all other connected clusters, and its service on all connected
  clusters (`Limits.ErrorFreeAddOnInfrastructure`). A completed deletion of that binding deletes these roles and role
  bindings on its own clusters (`Limits.CompletedDeletionOnInfrastructure`).
- The pair of a binding named "system" never settles: each sync creates the node-exporter service and
  deletes it again (`Convergence.SystemPairNeverSettles`).
- Connecting to a cluster again does nothing. What a failed first connection did not create of the node exporter is not
  created by any later one (`Effects.ConnectEffect`, `Failures.ConnectCost`).
- An error while deleting the VMIs of a binding is ignored: the binding is forgotten and they are left
  (`Deletions.VmiErrorIgnored`). Every other error keeps the binding known (`Deletions.ForgottenMeansDeleted`).
- The ACME DNS secret is changed in the informer cache before it is written. After a lost or refused write, calls for the
  same binding send nothing until the cache is refreshed; before that only a call for another new binding can carry its
  names to the server (`AcmeDns.ReachesServerIff`, `AcmeDns.RefreshRepairs`).
- The secret with the shared VMI password is labelled with the binding whose call created it and goes
  when that binding's secrets are deleted (`VmiSecrets.PasswordStableIff`, `VmiSecrets.CreatorOwnsPassword`).
- If that secret is incomplete, or was and the cache may still show it, a call that is shown the incomplete version
  replaces the password another call has just written, because the update carries no version
  (`VmiSecrets.StableFromIff`, `VmiSecrets.StaleReadOverwrites`).
- Copying secrets takes a failed read for a missing secret. Without reporting an error it may copy the
  system namespace's secret instead of the default one's, or nothing (`SecretCopy.ErrorFreeCopyIff`,
  `SecretCopy.FailedReadExample`).
- Removing a string from a slice panics for a list that ends with a repeated string, and leaves the string
  behind if it stands twice in a row (`SliceRemove.RemovalWorksIff`).
- The comment at pkg/managed/namespace.go:237 says that istio injection is not enabled for the monitoring namespace. The
  label set used there has the label already, so it is; the model follows the code.

## Assumptions

- In the controller's machine the listers are fresh: a list returns the current objects. This holds for the managed
  clusters, and for the listers of VMIs, secrets and config maps that a deletion uses in the management cluster
  (`Managed.DeleteLocal`). `Vmis`, `AcmeDns` and `VmiSecrets` let the cache show any past version.
- In `AcmeDns` and `VmiSecrets` nobody but the operator writes the secrets; in `Vmis` the monitoring operator writes too.
- The comparison of an existing and a desired object is an arbitrary relation under which an object just written
  shows no difference from what was asked for. The server may complete the content it stores, but keeps the labels.
- Handlers run one at a time. Deleting a namespace is one direct delete; what the API server deletes inside it is not seen.
- No handler is attached to an informer in this snapshot, so any sequence of events is a run.

## Model

| member | source | states |
|---|---|---|
| Labels.SelectorMeaning | pkg/util/utils.go:60-67 | exactly which objects the selectors by binding, by binding and cluster, by all labels of a binding and by the shared labels pick out |
| Reference.LabelsWrittenOut | pkg/util/utils.go:60-67 | the two label sets of the operator's objects on managed clusters and that of the node exporter, key by key |
| Labels.NoBindingSelectorAlsoMatchesBindings | pkg/util/utils.go:60-67 | the selector for shared objects also matches every object of a binding on that cluster, but never the node exporter's |
| Connections.ManagedClustersFor | pkg/util/utils.go:123-134 | the connections of the pair's clusters, or an error exactly when one is not available |
| Connections.ManagedClustersNotFor | pkg/util/utils.go:138-153 | exactly the available connections to clusters the pair does not use |
| Connections.IsClusterInBinding | pkg/util/utils.go:156-165 | true exactly when some pair places something on the cluster |
| Connections.Partition | pkg/util/utils.go:123-153 | for a pair keyed by cluster name the two filters split the available connections, so no call locks one twice |
| Types.Contains | pkg/util/utils.go:112-119 | true exactly when the element is in the list |
| Fleets.Fleet.RLock | pkg/managed/services.go:71-72 | a connection is read-locked at most once in a call, its release deferred |
| Fleets.Fleet.RunDeferred | pkg/managed/services.go:71-72 | when a call returns, by whatever exit, it holds no lock any more |
| Fleets.Fleet.DeleteListed | pkg/managed/namespace.go:194-214 | list by selector and delete what is not spared: only hit objects go, without error all of them, no write if there is none |
| Fleets.Fleet.Upsert | pkg/managed/services.go:45-59 | create a missing object or update a differing one; nothing is written if it exists and does not differ; namespaces are never updated |
| Managed.NewNamespaces | pkg/managed/namespace.go:220-254 | the namespaces of one cluster; only the system namespace has no binding label, and the second label assignment changes nothing |
| Managed.Create | pkg/managed/services.go:23-63 | the create pass of each kind (also namespace.go:25-62, serviceaccount.go:22-100, configmaps.go:21-59, clusterroles.go:98-130, clusterrolebinding.go:21-53, deployment.go:23-58, daemonsets.go:20-64): writes only wanted objects of the kind on the pair's clusters, without error all exist and are up to date, what is up to date is not written to, all locks released; what is wanted is settled by Reference.WantedIffAsked |
| Managed.CleanupOrphanedWorkloads | pkg/managed/services.go:93-159 | orphaned services or deployments (deployment.go:88-155): on the pair's clusters unexpected names, elsewhere all of the binding; nothing at all unless every cluster of the pair is connected |
| Managed.CleanupOrphanedUnmatched | pkg/managed/clusterroles.go:133-162 | cluster roles, role bindings (clusterrolebinding.go:56-85) or config maps (configmaps.go:62-91) of the binding on clusters the pair does not use |
| Managed.CleanupOrphanedNamespaces | pkg/managed/namespace.go:65-171 | unexpected namespaces on the pair's clusters; elsewhere the binding's except monitoring, and shared ones if no pair uses the cluster |
| Managed.DeleteWorkloads | pkg/managed/services.go:66-89 | all services or deployments (deployment.go:61-84) with the binding's full labels on exactly the given connections |
| Managed.DeleteClusterWide | pkg/managed/clusterroles.go:165-200 | cluster roles, bindings (clusterrolebinding.go:88-123) or namespaces (namespace.go:174-217) by binding or by shared labels, the operator's own names kept; silently nothing if a cluster is not connected |
| Managed.DeleteLocal | pkg/local/secrets.go:31-47 | secrets, config maps or VMIs (vmis.go:68-85) of the binding in the management cluster |
| Location.SyntheticModelBinding.Build | pkg/controller/verrazzano_location.go:46-75 | whatever duplicates the placements contain, one cluster per name with exactly the system namespace; the lock is free again |
| Location.SyntheticModelBinding.Update | pkg/controller/verrazzano_location.go:37-43 | the pair is rebuilt in place; the lock taken is released although the lock field was replaced, and the new lock is free |
| Location.AppendNamespace | pkg/controller/verrazzano_location.go:82-94 | appends a namespace unless it is there |
| Location.BuiltPair | pkg/controller/verrazzano_location.go:46-75 | the pair holds the given model and binding; one cluster for each placement name, with that name, the system namespace and nothing else |
| Reference.WantedIffAsked | pkg/managed/clusterroles.go:60-130 | what the create passes want is exactly this, by address, labels and content: each namespace with its labels (namespace.go:220-254), each listed deployment, service and config map, in each namespace the operator's service account (serviceaccount.go:22-100), its role and role binding (clusterrolebinding.go:126-184), or for "system" the node exporter's objects |
| Reference.OrphanedIffDoomed | pkg/managed/namespace.go:65-171 | what the clean-up passes delete is exactly this: of the objects with the binding's and cluster's labels, on its own clusters unexpected services, deployments and namespaces, on others also roles, role bindings and config maps; and shared namespaces of clusters no pair is placed on |
| Controllers.Controller.ProcessApplicationModelAdded | pkg/controller/controller.go:438-467 | an unchanged model does nothing; otherwise it is recorded and one waiting binding, if any, is paired; every invariant kept |
| Controllers.Controller.ProcessApplicationModelDeleted | pkg/controller/controller.go:470-477 | only the model goes; pairs outlive it |
| Controllers.Controller.ProcessApplicationBindingAdded | pkg/controller/controller.go:485-603 | takes the BindingAdded step, whose effects are those of Effects.PlainAddEffect, Effects.DeletingAddEffect and Effects.AddLeaves; no lock is left taken; the local passes of a sync may change the management cluster in any way |
| Controllers.Controller.CreateManagedClusterResources | pkg/controller/controller.go:376-435 | each create pass runs, in the code's order, whatever failed before it; copying secrets is left to SecretCopy |
| Controllers.Controller.CleanupOrphanedResources | pkg/controller/controller.go:624-678 | each clean-up pass runs, in the code's order, whatever failed before it; those without a body may fail and touch nothing |
| Controllers.Controller.DeleteResources | pkg/controller/controller.go:717-808 | the passes of a deletion run in the code's order and the first error stops them; with a cluster of the pair unconnected the managed ones do nothing |
| Controllers.Controller.WaitForManagedClusters | pkg/controller/controller.go:823-843 | success implies that all clusters of the pair are connected; nothing but the count of failures changes |
| Controllers.Controller.ProcessApplicationBindingDeleted | pkg/controller/controller.go:693-821 | takes the BindingDeleted step: the maps change only if nothing after the VMIs failed |
| Controllers.Controller.ProcessManagedCluster | pkg/controller/controller.go:305-369 | a cluster is connected at most once; only the operator's own objects are created there, also after a failed wait for the caches; nothing happens without service account or client |
| Machine.StepKeepsInv | pkg/controller/controller.go:438-556 | every step of every handler keeps the invariant: maps keyed by name, pairs and counters only for known bindings, counters below 5, each pair exactly what its model and binding build |
| Machine.NoSecretsAsked | pkg/controller/verrazzano_location.go:55-70 | no pair in a reachable state, nor the operator's own, asks for secrets to be copied |
| Effects.PlainAddEffect | pkg/controller/controller.go:513-561 | an add event records a new or changed binding in place of the stored one, counts an unchanged one, and unless skipped gives it the pair of this event and its stored model, also in place of an old pair; with the model unknown no pair changes |
| Effects.DeletingAddEffect | pkg/controller/controller.go:488-511 | an add event marked for deletion does nothing without the finalizer, only makes the binding known without pair and model, and else ends with the binding forgotten or, after a failure, known with its pair |
| Effects.DeleteEffect | pkg/controller/controller.go:693-716 | a delete event without the finalizer or a pair does nothing; no other entry of the maps is ever changed |
| Effects.ModelEffect | pkg/controller/controller.go:438-467 | an accepted model is stored in place of an older one, and one waiting binding, if any, gets the pair of it and the stored binding; nothing else changes |
| Effects.ConnectEffect | pkg/controller/controller.go:305-369 | a first connection without a failing call leaves the namespace monitoring and the node exporter's service account, role, role binding, service and daemon set up to date; whatever fails nothing else is written; connecting again does nothing |
| Effects.AddLeaves | pkg/controller/controller.go:563-603 | after a syncing add event without a failing call an object is on the managed clusters exactly if the pair asks for it, or it was there and is no orphan; what is asked for is up to date, all else as before |
| Failures.FailuresCostPasses | pkg/controller/controller.go:376-435 | errors do not spread: if k calls fail in a sync, all kinds of objects but at most k are complete and free of orphans (clean-up: lines 624-678), or the wait for the clusters failed and nothing was touched |
| Failures.ConnectCost | pkg/controller/controller.go:338-369 | the same for the node exporter's objects on a new cluster, a failed wait for the caches included |
| Isolation.ReachableInv | pkg/controller/controller.go:438-821 | every reachable state satisfies the invariant |
| Isolation.OrphansSpare | pkg/managed/namespace.go:107-168 | no clean-up listing hits an object of another binding, but for namespaces with the labels of shared ones on connected clusters on which no pair is placed |
| Isolation.DeletionSpares | pkg/controller/controller.go:785-808 | no deletion listing hits an object of another live binding, because shared labels are used only for the last pair |
| Isolation.StepIsolation | pkg/controller/controller.go:485-821 | one step not concerning a binding with a pair keeps the pair and all its objects on managed clusters, with two exceptions: shared roles, role bindings, service accounts and the node exporter's service and daemon set may be rewritten; the service monitoring/node-exporter, in an event of "system", and a namespace that looks shared, on a connected cluster on which no pair is placed, may be deleted |
| Isolation.RunIsolation | pkg/controller/controller.go:438-821 | over all runs without an event for a binding its pair and all its objects stay exactly as they are, except at the few shared addresses the operator writes for all bindings, and except namespaces that look shared on clusters the binding is not placed on |
| Survival.OrphansSpareInfrastructure | pkg/managed/namespace.go:123-165 | clean-up for a binding not named "system" never hits the operator's own namespaces, service accounts, roles and role bindings, nor the node exporter's service and daemon set |
| Survival.DeletionSparesInfrastructure | pkg/managed/clusterroles.go:180-197 | nor does deletion, also for the last pair |
| Survival.RunSurvival | pkg/managed/namespace.go:65-217 | over all runs without events for "system" none of them disappears and all keep their labels |
| Limits.ErrorFreeAddOnOthers | pkg/managed/namespace.go:141-165 | an add event without a failing call takes away an object of another binding with a pair exactly if it is a namespace that looks shared and is not kept, on a connected cluster on which no pair is placed, or (services.go:34-41, 112-130) the service monitoring/node-exporter on a cluster of a binding named "system" that differs; it leaves the object as it is exactly if it is no such namespace and the pair wants nothing else there |
| Limits.ServiceTakenExample | pkg/managed/services.go:34-41 | a concrete state in which an event of "system" takes the service of another binding |
| Limits.NamespaceTakenExample | pkg/managed/namespace.go:141-165 | a concrete state in which an event of any other binding takes a namespace |
| Limits.ErrorFreeAddOnInfrastructure | pkg/managed/namespace.go:76-103 | an add event without a failing call removes of the infrastructure exactly this: for "system" the monitoring namespace of its clusters, (clusterroles.go:139-157, clusterrolebinding.go:62-80) the node exporter's roles and role bindings of all other connected clusters and (services.go:112-155) its service on all connected clusters |
| Limits.CompletedDeletionOnInfrastructure | pkg/managed/clusterroles.go:180-197 | a completed deletion removes of the infrastructure exactly this: for "system" with all clusters connected the node exporter's roles and role bindings (clusterrolebinding.go:104-120) of its clusters |
| Deletions.RemovableIffDoomed | pkg/managed/namespace.go:184-214 | the deletion's listings hit exactly the removable objects: services and deployments with the binding's labels, unprotected roles and namespaces of the binding or, for the last pair, of the cluster |
| Deletions.CompletedDeletion | pkg/controller/controller.go:693-821 | a completed deletion removes exactly the removable objects and the binding's secrets, config maps and VMIs, and forgets the binding in all three maps |
| Deletions.ErrorFreeDeletion | pkg/controller/controller.go:485-511 | a delete event for a binding with a pair, or an add event already marked for deletion with a pair or a known model, during which no call fails forgets the binding and removes exactly its VMIs, secrets, config maps and, with all clusters connected, the removable objects; the pair is the stored one or built from the event and its model |
| Deletions.ForgottenMeansDeleted | pkg/controller/controller.go:693-821 | whatever fails, such an event forgets the binding only if all of that but the VMIs is gone |
| Deletions.VmiErrorIgnored | pkg/controller/controller.go:711-715 | from any state a deletion can fail on the VMIs, leave all of them and forget the binding all the same |
| Deletions.CanDelete | pkg/controller/controller.go:693-821 | from any state a deletion can be handled without a failing call, even with clusters unconnected |
| Deletions.DeletionIsStaged | pkg/controller/controller.go:717-779 | wherever a deletion stopped, once an object is gone nothing of the binding of an earlier kind is left: namespaces go only after services, deployments, roles and role bindings |
| Deletions.FailedAttempt | pkg/controller/controller.go:718-806 | an attempt that stops early keeps the maps and only removes doomed objects |
| Deletions.RetryFinishes | pkg/controller/controller.go:693-821 | after any number of failed attempts a completing one leaves exactly what a single error-free deletion leaves |
| Deletions.LeftoversIff | pkg/controller/controller.go:735-779 | a completed deletion leaves removable objects exactly if a cluster was not connected and there were some |
| Convergence.Convergence | pkg/managed/services.go:23-159 | after an error-free sync, from any start, every desired service, deployment and config map, the operator's role and role binding on each cluster and its account in each namespace are there and up to date, all namespaces exist, and nothing else labelled with the binding and a connected cluster is left: no other service, deployment or namespace, and on clusters the pair does not use no role, role binding, config map or namespace but monitoring |
| Convergence.Quiescence | pkg/controller/controller.go:376-435 | a second sync of the unchanged pair writes nothing to the managed clusters, even if calls fail |
| Syncs.AddConverges | pkg/controller/controller.go:512-603 | an add event that passes the throttle, with a pair or a known model, and during which no call fails, makes the clusters agree with the pair, from any reachable state |
| Syncs.WaitingConverges | pkg/controller/controller.go:513-603 | a known binding without a pair that is fed only unchanged events with its model known is paired and synced by the sixth (5 - c from counter c), and if no call fails then the clusters agree with its pair |
| Syncs.RunConverges | pkg/controller/controller.go:512-603 | after any run of repeated events the clusters agree, at the same time, with all pairs that were synced without a failing call; shared objects carry the operator's labels to start with |
| Syncs.ErrorFreeAddIff | pkg/controller/controller.go:512-603 | from any reachable state such an event can be handled without a failing call exactly if all clusters of the pair are connected |
| Syncs.RunQuiescence | pkg/controller/controller.go:512-603 | after such an event without a failing call any number of repetitions of it, throttled or not and whatever fails, writes nothing to any managed cluster |
| Syncs.RunQuiescenceOfAll | pkg/controller/controller.go:512-603 | in any run of repeated events for any bindings with pairs, once each binding that still has events was synced without a failing call nothing is written to any managed cluster any more; shared objects carry the operator's labels to start with |
| Convergence.OrphansSpareWanted | pkg/managed/services.go:93-130 | what a pair wants is never among its own orphans |
| Convergence.SystemPairNeverSettles | pkg/managed/services.go:34-41 | for a pair named "system" each error-free sync creates the node-exporter service and deletes it again |
| Throttle.StepCounter | pkg/controller/controller.go:513-538 | only an unchanged plain add event touches the counter of a known binding |
| Throttle.ThrottleClosedForm | pkg/controller/controller.go:513-538 | after t unchanged events the counter is (t - 1) mod 5 and (t - 1) div 5 events passed, whatever comes in between |
| Throttle.BoundedPairing | pkg/controller/controller.go:513-549 | with its model known, six unchanged events (5 - c from counter c) suffice for a binding to get its pair |
| Throttle.PairingIsExact | pkg/controller/controller.go:513-549 | fed only unchanged events a waiting binding is paired by that event and not before |
| Throttle.ModelPairsOne | pkg/controller/controller.go:455-466 | an accepted model event pairs exactly one waiting binding, if there is one, and touches no other pair |
| Vmis.CreateUpdateVmi | pkg/local/vmis.go:29-65 | nothing under a shared instance, an error without a URI; else the server stores, if anything, the instance with name and label of the binding, URI "vmi." + binding + "." + uri, ingress, dashboards, the given settings (lines 105-176, utils.go:70-92, 186-191 in pkg/util) and the claim names the cache shows; an error-free call stored it exactly if the cache showed none or a differing one |
| Vmis.InstanceIsFound | pkg/local/vmis.go:68-85 | the deletion's selector finds the instance by its label for its own binding only, and its URI is a name ACME DNS has for this binding and for no other |
| Vmis.StepKeepsInv | pkg/local/vmis.go:44-59 | cache and pending request always come from versions the server once stored |
| Vmis.AcceptedUpdateKeepsPvcs | pkg/local/vmis.go:46-54 | an update the server accepts leaves the claim names as they are there |
| Vmis.AcceptedIffCacheCurrent | pkg/local/vmis.go:53-54 | an update is accepted exactly if the cache was current |
| Vmis.CurrentUpsertConverges | pkg/local/vmis.go:44-59 | with a current cache one upsert makes the server match the desired instance with the claim names kept |
| Vmis.PvcNamesAreTheLastGiven | pkg/local/vmis.go:44-59 | in every interleaving the claim names on the server are the last given by creation or by the monitoring operator |
| AcmeDns.UpdateAcmeDNSSecret | pkg/local/secrets.go:98-163 | missing secret, key or records, and unparsable records, change nothing; otherwise the call is a step of the runs below; an error exactly for these cases or a failed request |
| AcmeDns.Confluence | pkg/local/secrets.go:123-160 | from non-empty records, once each binding was processed since the last cache refresh, any sequence of calls, lost or refused requests and refreshes leaves records that depend only on the set of bindings |
| AcmeDns.EmptyStays | pkg/local/secrets.go:123-125 | without any records no call changes or sends anything |
| AcmeDns.Processed | pkg/local/secrets.go:128-160 | in the cache and in every version on the server existing entries stay, and added ones are vmi.b.uri or *.vmi.b.uri for a processed binding b with the credentials stored under the URI or empty ones; both names of a binding processed since the last refresh are cached, and a call sends one request exactly if one of them is not |
| AcmeDns.NamesInjective | pkg/local/secrets.go:133-140 | no two bindings share a generated name |
| AcmeDns.RecordCount | pkg/local/secrets.go:131-145 | each new binding adds exactly two records |
| AcmeDns.ReachesServerIff | pkg/local/secrets.go:148-160 | the server has a binding's names exactly if a request was accepted that was sent by a call for it, or by a later one before the next refresh |
| AcmeDns.RefreshRepairs | pkg/local/secrets.go:103-160 | a refresh and one delivered call bring a binding's names to the server, whatever was lost before |
| VmiSecrets.GenPassword | pkg/monitoring/secrets.go:65-72 | a password of the given length from the given characters |
| VmiSecrets.KubeSecrets.CreateVmiSecrets | pkg/monitoring/secrets.go:75-116 | whatever version the cache shows: nothing happens to the shared secret if that is complete, else a fresh one is stored unless the server refuses; without error the listed stray secrets are gone, no other secret changes |
| VmiSecrets.CreatedWrittenOut | pkg/monitoring/secrets.go:75-116 | field by field: a shown complete secret stays, else verrazzano-system/verrazzano with user verrazzano, 16 characters of password and the binding's labels is stored or the call fails; of the listed secrets with the binding's label all go but those named verrazzano or like the binding |
| VmiSecrets.GetVmiPassword | pkg/monitoring/secrets.go:49-61 | the password of the secret the cache shows, or an error exactly if there is none |
| VmiSecrets.ErrorFreeCompleteIff | pkg/monitoring/secrets.go:75-98 | after an error-free call the shared secret is complete, with a password, exactly unless the cache showed a complete one that is not there any more |
| VmiSecrets.PasswordReadable | pkg/monitoring/secrets.go:49-98 | after an error-free call that left a complete secret every version stored since gives the same password, in any run without a deletion that lists the secret; the call leaves one exactly unless it was shown one that is gone |
| VmiSecrets.PasswordStableIff | pkg/monitoring/secrets.go:75-116 | over any calls, reading any past versions, those from before the run included, none of them incomplete, the complete shared secret stays as it is exactly as long as no deletion removes it; only that of a binding a stored version was labelled with can |
| VmiSecrets.StableFromIff | pkg/monitoring/secrets.go:88-98 | no run without such deletions ever changes a complete shared secret exactly if neither its first state nor an earlier one the cache may show has an incomplete one |
| VmiSecrets.StaleReadOverwrites | pkg/monitoring/secrets.go:89-93 | the input that shows it: a second call shown the incomplete version replaces the password the first one stored |
| VmiSecrets.CreatorOwnsPassword | pkg/local/secrets.go:31-47 | deleting the secrets of the creating binding deletes the shared secret |
| SecretCopy.NewSecret | pkg/managed/secrets.go:110-144 | the data of the source that was found overlaid with the given data, the default namespace first; a failed read, which is counted, is taken for a missing secret; an error exactly if no read found one |
| SecretCopy.NewSecrets | pkg/managed/secrets.go:84-108 | each wanted namespace and name for which an attempt found a source is copied exactly once, as found, and nothing else; a name for which nothing was found was tried as often as it is listed |
| SecretCopy.ExactIffReadWell | pkg/managed/secrets.go:84-122 | each requested secret is copied as its proper source is, and nothing else, exactly if for each some attempt read the proper source before another one took the system namespace's secret for it |
| SecretCopy.ExactWithoutFailures | pkg/managed/secrets.go:84-122 | without a failed read the copies are exact |
| SecretCopy.FoundSomething | pkg/managed/secrets.go:112-122 | whatever fails, a copy is one of the two sources, and it is missing exactly if no read got an existing source |
| SecretCopy.CopiesUnique | pkg/managed/secrets.go:84-108 | the result is the same up to order for every iteration order, as far as the reads find the same |
| SecretCopy.ClusterSecrets.CreateSecrets | pkg/managed/secrets.go:56-80 | only copies are written, secrets already up to date and encryption secrets never touched; without error every copy is present and up to date |
| SecretCopy.ClusterSecrets.CopyAll | pkg/managed/secrets.go:36-51 | one round for one cluster: found secrets are written as found, up-to-date and encryption secrets left alone, without error all found ones are up to date; nothing is copied for "system" |
| SecretCopy.CreateSecrets | pkg/managed/secrets.go:28-54 | all clusters in any order up to the first error; nothing at all unless every cluster is connected; each cluster not reached is unchanged, and only the one that failed may be incomplete |
| SecretCopy.NothingAskedNothingCopied | pkg/managed/secrets.go:84-88 | where no secrets are asked for nothing is copied and nothing changes |
| SecretCopy.ErrorFreeCopyIff | pkg/managed/secrets.go:56-122 | after an error-free call a missing secret is there with its proper content exactly if the reads went well enough, and still missing exactly if no read got an existing source |
| SecretCopy.FailedReadExample | pkg/managed/secrets.go:112-122 | the input that shows it: one failed read copies the wrong namespace's secret, two copy none, without an error |
| SliceRemove.Remove | pkg/controller/controller.go:879-886 | panics exactly if the list ends with a repeated s; else returns the list without each s and without looking at the element after it |
| SliceRemove.RemovalWorksIff | pkg/controller/controller.go:869-886 | s is gone without a panic exactly if s neither stands twice in a row nor ends the list after an earlier s; the rest then keeps its order; at most one s is enough |

## Left out

- Controllers.Controller.ProcessApplicationBindingAdded: the local passes of a sync (VMI, VMI secrets, config maps, ACME DNS) may change the management cluster in any way; three of them are modelled on their own, and none touches a managed cluster.
- Controllers.Controller.CreateManagedClusterResources: leaves out copying secrets, which has its own model; for every pair the controller builds, and for its own, the list of secrets is empty (`Machine.NoSecretsAsked`), so that pass changes nothing (`SecretCopy.NothingAskedNothingCopied`).
- Controllers.Controller.CleanupOrphanedResources: the clean-ups of custom resources, service entries and ingresses have no body in this snapshot; they may fail and touch nothing modelled.
- Controllers.Controller.ProcessManagedCluster: leaves out what building the client and waiting for its caches do beyond succeeding or failing, and the stored image pull secrets, which only enter the opaque content of service accounts.
- The config maps of the management cluster (`UpdateConfigMaps`): their content depends on the API server's treatment of empty maps.
- Image pull secrets and the Verrazzano URI stored in a pair: no modelled pass reads them.
- Time: a wait ends with an error or after the awaited condition was seen; the ticks themselves are not modelled.
- Stale listers in the controller's machine: with one, an object relabelled since could be deleted by its old label.
- A managed cluster as a heap object: it is a value in the pair's map, and appending to its namespaces updates that map.
- Contents of roles, services, monitoring instances and daemon sets: opaque values.
- Custom resources: their deletion has no body in this snapshot; it may fail and touches nothing modelled.
- Start-up, informers, signals, logging, environment variables, dashboards, JSON encoding and the comparison library.

# SampleOperator reconciler, modelled in Dafny

This project models the reconciliation loop of the `sample-operator` Kubernetes
controller. A `SampleOperator` custom resource (the parent) declares the desired
state. For each parent, the reconciler makes sure two children exist:

- a config map named `<name>config`, holding the credentials;
- a pod named `<name>-pod`, whose single container receives the same credentials
  as environment variables.

It then records the config map's name in the parent's `status.sampleConfigMap`.

The resource store behind the controller-runtime client is a class, `ResourceStore.Store`.
It holds three maps (parents, pods, config maps), each keyed by (namespace, name), and a
fault plan. Each call returns success, `NotFound`, or the error that the fault plan
injects for that operation. Each store method is proved against a pure function on a
`Cluster` snapshot. The store's invariant, `Valid`, says that every object is stored
under its own namespace and name.

The reconciler is the class `Controllers.SampleOperatorReconciler`. Its three procedures,
`Reconcile`, `EnsureLatestPod` and `EnsureLatestConfigMap`, mutate the store step by step,
as the Go code does. Each is proved equal, in its new store state and its returned
values, to a specification function (`ReconcileSpec`, `EnsureLatestPodSpec`,
`EnsureLatestConfigMapSpec`). Module `ReconcileProperties` proves the behaviour over all
inputs from those functions:

- deterministic, collision-free child names;
- nothing written when the parent is missing;
- errors returned before the next step;
- create-only-if-absent, with existing children never modified;
- convergence, idempotence, and no rollback after a failed status write;
- the true/false result of the config-map drift helper.

`SetControllerReference` is modelled as a pure, fallible step. The `Scheme` value says,
for each child kind, whether that step fails and with what reason. On success it records
the parent (kind, name, uid) as the child's controller.

`ensureLatestConfigMap` is modelled as the code behaves. On its create path, `foundMap`
is never filled in, so the comparison sees an empty `user`. When the desired `user` is
non-empty, the helper therefore updates the map it has just created, sets the parent's
status to the empty name and returns `true` (`EnsureLatestConfigMapCreatePath`).

A pass accepts whatever already sits under a child's key. A pre-existing `<name>-pod` or
`<name>config` is never re-owned, so after a successful pass it may still have another
controller, or none (`ReconcileAcceptsForeignChildren`).

## Model

| member | source | states |
|---|---|---|
| Controllers.Credentials | controllers/sampleoperator_controller.go:55-57 | the credentials map has exactly the keys `user` and `password`, holding `sample-user` and `sample-pwd` |
| Controllers.SetControllerReference | controllers/sampleoperator_controller.go:81-83 | the owner link fails exactly when the scheme lists a failure for that child kind, and returns that reason; on success only the child's controller reference changes, and it names the parent |
| Controllers.NewConfigMapForCr | controllers/sampleoperator_controller.go:145-158 | the config map is addressed by `<name>config` in the parent's namespace, is labelled `app=<name>`, has no owner yet, and its data is exactly the credentials map passed in |
| Controllers.NewPodForCR | controllers/sampleoperator_controller.go:185-215 | the pod is addressed by `<name>-pod` in the parent's namespace, is labelled `app=<name>`, has no owner yet, and has exactly one container whose SAMPLE_SERVICE_USER / SAMPLE_SERVICE_PASSWORD variables hold `data["user"]` / `data["password"]` (empty when absent) |
| ReconcileProperties.ChildKeysInjective | controllers/sampleoperator_controller.go:151-192 | two parents share a pod key, or a config-map key, only when they are the same parent, so at most one child of each kind belongs to a parent |
| ReconcileProperties.PodEnvMirrorsConfigMap | controllers/sampleoperator_controller.go:201-210 | for the same parent and credentials, the pod's two credential variables equal the config map's `user` and `password` entries |
| ReconcileProperties.BuildersIgnoreSpecAndStatus | controllers/sampleoperator_controller.go:145-215 | both builders depend only on the parent's name and namespace (and the credentials), never on its spec, status or uid |
| Controllers.SampleOperatorReconciler.EnsureLatestPod | controllers/sampleoperator_controller.go:160-183 | the new store state and the returned error are those of `EnsureLatestPodSpec` (link, look up, create only on NotFound); the store invariant and the fault plan are kept |
| ReconcileProperties.EnsureLatestPodCreatesOnlyWhenAbsent | controllers/sampleoperator_controller.go:168-182 | the owned pod is created exactly when it is absent and every step succeeds; an existing pod is never changed; link, lookup and create failures are returned unchanged with nothing written |
| Controllers.SampleOperatorReconciler.Reconcile | controllers/sampleoperator_controller.go:51-107 | never asks for a requeue; the new store state and the returned error are those of `ReconcileSpec`; the store invariant and the fault plan are kept |
| ReconcileProperties.ReconcileParentLookup | controllers/sampleoperator_controller.go:59-72 | a missing parent gives success with the store unchanged; any other lookup failure is returned with the store unchanged |
| ReconcileProperties.ReconcileStopsAtPodFailure | controllers/sampleoperator_controller.go:74-77 | when the pod step fails (owner link, lookup or create), the pass returns that error and the store is as it was: the config map is never reached |
| ReconcileProperties.ReconcileStopsAtConfigMapLinkFailure | controllers/sampleoperator_controller.go:79-83 | when the config-map owner link fails after the pod step, that error is returned; only the pod step's write remains, and config maps and parents are untouched |
| ReconcileProperties.ReconcileConfigMapStep | controllers/sampleoperator_controller.go:79-104 | the config-map block creates the owned config map only when it is absent, never modifies an existing one, and points the stored parent's status at `<name>config` exactly when every step succeeds; it returns each failure, and a failed status write keeps the created map |
| ReconcileProperties.ReconcileCreatesOnlyMissingChildren | controllers/sampleoperator_controller.go:74-104 | whatever the outcome, a pass only adds the parent's own owned pod and config map where they are absent and only changes the parent's status to `<name>config`; nothing else in the store changes |
| ReconcileProperties.ReconcileKeepsExistingChildren | controllers/sampleoperator_controller.go:168-182 | an existing pod is never updated, even after the parent's spec changed, and an existing config map is never updated by a pass |
| ReconcileProperties.ReconcileLeavesOtherKeysAlone | controllers/sampleoperator_controller.go:51-107 | a pass for one key leaves the parent, pod and config map of every other key exactly as they were |
| ReconcileProperties.ReconcileConverges | controllers/sampleoperator_controller.go:79-106 | after a successful pass over a stored parent, both children exist, the children it created are owned by the parent, and the status names `<name>config` |
| ReconcileProperties.ReconcileIdempotent | controllers/sampleoperator_controller.go:51-107 | a second pass after a successful one succeeds and leaves the store identical |
| ReconcileProperties.ReconcileDoesNotRollBack | controllers/sampleoperator_controller.go:97-104 | when only the status write fails, that error is returned, the created pod and config map stay, and a later pass without the fault creates nothing and converges |
| Controllers.SampleOperatorReconciler.EnsureLatestConfigMap | controllers/sampleoperator_controller.go:109-143 | the new store state, the caller's instance as left, the flag and the error are those of `EnsureLatestConfigMapSpec`; the store invariant and the fault plan are kept |
| ReconcileProperties.EnsureLatestConfigMapReportsDrift | controllers/sampleoperator_controller.go:127-142 | once the map is fetched or created, the result is true exactly when the observed `user` differs from the desired one and the update and the status write both succeed; with no drift it returns false and writes nothing beyond the create; on true the map holds the desired content and the status is set |
| ReconcileProperties.EnsureLatestConfigMapErrors | controllers/sampleoperator_controller.go:109-142 | an owner-link, lookup or create failure returns false and that error with nothing written; after drift, an update failure returns false and that error with only the create kept; a failing status write returns false and its error (NotFound for a vanished parent) while the updated map stays and the instance already names the fetched map |
| ReconcileProperties.ReconcileAcceptsForeignChildren | controllers/sampleoperator_controller.go:74-95 | a pod or config map already stored under a child key keeps its controller reference after any pass, successful or not, so a child owned by another controller or by none is not taken over |
| ReconcileProperties.EnsureLatestConfigMapCreatePath | controllers/sampleoperator_controller.go:116-133 | on the create path with a non-empty desired user, the helper creates the map, updates it, sets the status to the empty name and returns true |
| ReconcileProperties.EnsureLatestConfigMapSettles | controllers/sampleoperator_controller.go:109-143 | a second call after a successful call finds no drift, returns false and writes nothing |
| Controllers.SampleOperatorReconciler.constructor | controllers/sampleoperator_controller.go:41-46 | the reconciler holds the given client and scheme |
| ResourceStore.Store.GetParent | controllers/sampleoperator_controller.go:61 | returns the stored parent, NotFound for an absent key, or the injected fault |
| ResourceStore.Store.GetPod | controllers/sampleoperator_controller.go:170 | returns the stored pod, NotFound for an absent key, or the injected fault |
| ResourceStore.Store.GetConfigMap | controllers/sampleoperator_controller.go:86 | returns the stored config map, NotFound for an absent key, or the injected fault |
| ResourceStore.Store.CreatePod | controllers/sampleoperator_controller.go:172 | inserts the pod under its own key unless the call is faulted or the key is taken; nothing else changes |
| ResourceStore.Store.CreateConfigMap | controllers/sampleoperator_controller.go:89 | inserts the config map under its own key unless the call is faulted or the key is taken; nothing else changes |
| ResourceStore.Store.UpdateConfigMap | controllers/sampleoperator_controller.go:128 | replaces the stored config map under its key unless the call is faulted or the map is absent; nothing else changes |
| ResourceStore.Store.UpdateStatus | controllers/sampleoperator_controller.go:100 | replaces only the status of the stored parent, keeping its metadata and spec, unless the call is faulted or the parent is absent |

## Left out

- `SetupWithManager`, the logger calls and `context.Background`/`context.TODO`: these are controller-runtime wiring and I/O.
- `controllerutil.SetControllerReference` and `runtime.Scheme`: these are library calls. They are modelled as a fallible step whose failures the `Scheme` value lists per child kind, and which records the parent as the child's controller. Other owner references and the AlreadyOwned check are not modelled, because the builders never produce an owner.
- The real API server: resource versions, conflicts on update, server-assigned uids, and fields that Create/Update/Get write back into the Go objects. Each call is reduced to success, NotFound (AlreadyExists for a taken key), or an injected error.
- The fault plan is fixed for one pass. This loses nothing, because each pass issues each kind of store call at most once. Retries across passes are modelled with a different plan.
- The watch/requeue/backoff framework and concurrency: the code assumes one reconcile per key at a time. `ReconcileLeavesOtherKeysAlone` shows that passes for different keys touch disjoint objects.
- `init`/`SchemeBuilder.Register` and `SampleOperatorList` (api/v1/sampleoperator_types.go:57-66) are registration only. The spec's `Size` and `ServiceInstanceName` are inert fields; `Size` is an unbounded integer because it is never read.
- The pod's container name and image are built as in the source, but no contract states them.
- EnsureLatestConfigMap, Reconcile: the Go code writes the found map's name into the parent object in place, through a pointer (lines 98 and 133). The model has no shared parent object. `EnsureLatestConfigMap` returns the changed parent as the out-parameter `after`, and `Reconcile` replaces its local `instance` value before the status write. Aliasing of that object with other holders is not modelled.

# NewResource reconciler, modelled in Dafny

This project models one reconciliation step of the `NewResource` controller,
`NewResourceReconciler.Reconcile`. The controller manages the custom resource
`NewResource` (group `apps.newresource.com`, version `v1alpha1`). One call to
`Reconcile` for a namespaced name does the following:

- It counts the attempt in `controller_reconcile_total{controller="NewResource", result="started"}`.
- It registers a deferred observation of `controller_reconcile_duration_seconds`.
- It reads the object, which decides one of three paths:
  - **not found**: it counts `not_found` and returns an empty result with no error;
  - **any other read error**: it counts `error` and `controller_reconcile_errors_total{error_type="get_resource"}`, then returns the error;
  - **object read**: it sets `Status.Ready = true` on its local copy and writes the status back. Then it either counts `success`, or counts `error` and `errors_total{error_type="status_update"}` and returns the write error.

Every path returns the empty `ctrl.Result{}`.

Files:

- `types.dfy` (module `NewResourceTypes`): the resource, its spec and status, and its key.
- `wrappers.dfy` (module `Wrappers`): `Option` and `Result`.
- `counters.dfy` (module `Counters`): labelled counter vectors as maps from label values to naturals, and the sum over a vector.
- `store.dfy` (module `Store`): the object store with the test client's failure injection. `Lookup` and `UpdateStatus` are its pure semantics. The `Client` class holds the objects, the injected errors and a record of the attempted status writes.
- `metrics.dfy` (module `Metrics`): the three metric vectors as a `Recorder` class, with the label constants.
- `controller.dfy` (module `Controllers`): the pieces of one reconciliation.
  - `Step` is the pure specification of one call over a `State` snapshot, and `Run` folds `Step` over a sequence of requests.
  - Lemmas cover each path and the bookkeeping across calls.
  - The `NewResourceReconciler` class has an imperative `Reconcile` method. Its contract says that the new client and recorder state, the result and the error are exactly what `Step` gives for the old state. It also keeps the invariant `Valid()`: every object is stored under its own key, and the metric vectors stay balanced.
- `scenarios.dfy` (module `Scenarios`): the reconciliation test cases, as methods that build a client and a reconciler. Each states what the test asserts, plus the code's counter and write facts starting from fresh metric vectors.

Modelling choices:

- The store is a map from (namespace, name) to `NewResource`. A `Get` is decided in this order:
  1. It fails with the injected error if one is set.
  2. Otherwise it returns the stored object.
  3. Otherwise it fails with `NotFound`.
- An injected read error that is itself a `NotFound` error takes the not-found path, because the code tests the error with `IgnoreNotFound`.
- A status write fails with the injected error if one is set. Otherwise it replaces only the status of the stored object under the written object's key, leaving metadata and spec alone. The test double's status writer (new-controller/test/main_test.go:399-404) returns success and stores nothing. On success the model follows the status subresource of the test API server instead, whose effect new-controller/test/main_test.go:144-150 checks.
- The list of attempted status writes is a ghost field of the client. It exists only so that contracts can speak about writes; the client itself keeps no such record.
- Writing status for a key that is not in the store fails with `NotFound`. The test double would return success there, but `Reconcile` cannot reach this case: the object it writes is the one it just read under that key.
- The duration histogram is reduced to a count of observations per controller label. The deferred observation is made on each return path.
- Counter values are unbounded naturals.
- The status write is unconditional (new-controller/controllers/resource_controller.go:79-84). Reconciling an object that is already ready writes its status again; `ReconcileReadyIsFixpoint` shows the store stays the same.
- The only `error_type` values are `get_resource` and `status_update` (new-controller/controllers/resource_controller.go:71, :86).

## Model

| member | source | states |
|---|---|---|
| NewResourceTypes.NewObject | new-controller/api/v1alpha1/newresource_types.go:10-29 | a newly created object has the requested namespace, name and spec, and its `Ready` status takes the schema default `false` |
| NewResourceTypes.MarkReady | new-controller/controllers/resource_controller.go:78-79 | after the local mutation `Ready` is true and the metadata and spec are those of the object read |
| Counters.Inc | new-controller/controllers/resource_controller.go:19-25 | incrementing a labelled counter raises exactly that counter by one, leaves every other label's counter unchanged, and makes the label present |
| Counters.SumRemove | new-controller/controllers/resource_controller.go:36-42 | the total of a counter vector is any one label's counter plus the total of the others |
| Counters.SumInc | new-controller/controllers/resource_controller.go:36-42 | one increment of any label raises the total of the vector by exactly one |
| Store.Lookup | new-controller/test/main_test.go:374-388 | a read succeeds exactly when no error is injected and the key is stored, and then yields the stored object; an injected error is returned as is; otherwise the error is `NotFound` for the requested name |
| Store.UpdateStatus | new-controller/test/main_test.go:390-404 | a status write succeeds exactly when no error is injected and the object's key is stored, and an injected error is returned as is (the test double). On success the model follows the API server's status subresource, since the double itself stores nothing: the keys stay the same, the stored status becomes the written one, the stored metadata and spec are kept, and every other object is unchanged |
| Store.UpdateStatusWellKeyed | new-controller/controllers/resource_controller.go:84-84 | a successful status write keeps every object stored under its own key |
| Store.Client.constructor | new-controller/test/main_test.go:367-372 | the client holds the given objects and injected errors, and no status write has been attempted |
| Store.Client.Get | new-controller/test/main_test.go:374-388 | reading changes nothing and returns what `Lookup` gives; with a well-keyed store, a fetched object carries the requested key |
| Store.Client.UpdateStatusOf | new-controller/test/main_test.go:399-404 | every attempt is recorded. The objects change exactly as `UpdateStatus` says on success and are unchanged on failure, with the error returned. The injected errors are unchanged |
| Metrics.Recorder.constructor | new-controller/controllers/resource_controller.go:17-43 | all three metric vectors start empty |
| Metrics.Recorder.IncTotal | new-controller/controllers/resource_controller.go:55-55 | increments one `controller_reconcile_total` counter and nothing else |
| Metrics.Recorder.IncErrors | new-controller/controllers/resource_controller.go:71-71 | increments one `controller_reconcile_errors_total` counter and nothing else |
| Metrics.Recorder.Observe | new-controller/controllers/resource_controller.go:56-59 | records one duration observation for the controller label and nothing else |
| Controllers.Step | new-controller/controllers/resource_controller.go:49-96 | on every call: `started` is counted once, one duration observation is made, and the result is empty. Exactly one of `not_found`, `error` and `success` is counted, and an error is returned exactly when `error` is counted. A status write is attempted only for the object just read, marked ready. The store changes only when `success` is counted. The injected errors are unchanged. No `reconcile_total` child other than the four `NewResource` result labels changes, and no other controller's observation count changes |
| Controllers.ReconcileNotFound | new-controller/controllers/resource_controller.go:62-68 | absent object, or a NotFound read error: no error and an empty result; `not_found` counted once; `error` and `success` unchanged; `errors_total` unchanged; no status write; store unchanged |
| Controllers.ReconcileGetError | new-controller/controllers/resource_controller.go:69-73 | any other read error: that error is returned with an empty result. `error` and `errors_total{get_resource}` are counted once each. `not_found`, `success` and every other `errors_total` label are unchanged; `started` and the observation are counted as on every call. No status write is attempted and the store is unchanged |
| Controllers.ReconcileSuccess | new-controller/controllers/resource_controller.go:78-95 | object read and status written: no error and an empty result. The stored object becomes the object read with `Ready` true; its spec, name and namespace are unchanged, and so is every other object. `success` is counted once, `errors_total` is unchanged, and the write of the ready object is recorded |
| Controllers.ReconcileStatusError | new-controller/controllers/resource_controller.go:84-89 | status write fails: that error is returned with an empty result. `error` and `errors_total{status_update}` are counted once each; `success` is not counted. The store is unchanged, and the attempted write is recorded |
| Controllers.StepErrorsMatch | new-controller/controllers/resource_controller.go:69-89 | in one call, the total of `errors_total` over all labels grows by exactly as much as `reconcile_total{error}` |
| Controllers.RunBookkeeping | new-controller/controllers/resource_controller.go:55-95 | over any sequence of calls: `started` and the duration observations each grow by the number of calls. `started` grows by as much as `not_found`, `error` and `success` together. The total of `errors_total` grows by as much as `reconcile_total{error}` |
| Controllers.EmptyBalanced | new-controller/controllers/resource_controller.go:17-43 | freshly created, empty metric vectors satisfy the balance invariant |
| Controllers.StepKeepsBalanced | new-controller/controllers/resource_controller.go:55-95 | the balance of the metric vectors is preserved by every call: `started` equals `not_found` + `error` + `success`, the `errors_total` total equals `error`, and the observations equal `started` |
| Controllers.StepKeepsWellKeyed | new-controller/controllers/resource_controller.go:78-89 | every call keeps each object stored under its own key |
| Controllers.ReconcileReadyIsFixpoint | new-controller/controllers/resource_controller.go:78-95 | reconciling an object that is already ready, with no failure injected, leaves the store unchanged; the write is still attempted |
| Controllers.RepeatKeepsReady | new-controller/controllers/resource_controller.go:78-95 | reconciling the same existing object any positive number of times, with no failure injected, leaves the store as one reconciliation does: the object is ready and nothing else changed |
| Controllers.NewResourceReconciler.constructor | new-controller/controllers/resource_controller.go:45-47 | the reconciler wraps the given client and recorder and starts valid |
| Controllers.NewResourceReconciler.Reconcile | new-controller/controllers/resource_controller.go:49-96 | the imperative step keeps `Valid()`. The new store, injected errors, recorded writes and metric vectors, along with the returned result and error, are those `Step` gives for the old state |
| Scenarios.SuccessfulReconciliation | new-controller/test/main_test.go:111-151 | reconciling an existing object gives an empty result and no error, and the stored object is ready |
| Scenarios.ResourceNotFound | new-controller/test/main_test.go:153-165 | reconciling an absent object gives an empty result and no error, with no status write and no error counted |
| Scenarios.ResourceRetrievalError | new-controller/test/main_test.go:167-183 | with a read error injected, the error is returned with an empty result, and one `get_resource` error is counted |
| Scenarios.StatusUpdateFailure | new-controller/test/main_test.go:185-223 | with a status-update error injected, the error is returned with an empty result, the stored object stays not ready, and `success` is not counted |
| Scenarios.ReconcileExisting | new-controller/test/main_test.go:340-351 | one iteration of the sequential test: reconciling an existing object with no failure injected returns the empty result and no error, marks that object ready in the store, keeps the reconciler valid and counts one more `success` |
| Scenarios.SequentialReconciliations | new-controller/test/main_test.go:314-363 | each of the three calls returns the empty result and no error; the three objects reconciled one after another all end up ready, with `success` counted three times |

## Left out

- `SetupWithManager` (new-controller/controllers/resource_controller.go:98-113): it registers the metrics and wires the reconciler into the controller runtime. It has no logic to state.
- The work queue, its deduplication, delayed re-adds and backoff, the worker pool and per-key mutual exclusion all belong to the controller runtime, not to this code.
- Optimistic-concurrency conflicts on status writes are also left out: they belong to the API server. The model's store has no generation or resource version.
- Duration values and histogram buckets are wall-clock and floating-point data. Only the number of observations is modelled.
- Logging calls are left out; they only have side effects.
- Context cancellation and the `ctx` argument are left out; the model has no I/O to cancel.
- No contract states that `started` is counted before the read. `Reconcile` performs the two steps in the code's order, but the model's read does not depend on the metric vectors, so the order is not observable in any contract.
- The three metric vectors are package-level globals in the code (new-controller/controllers/resource_controller.go:17-43), shared by every reconciler and never reset. The model makes them one `Recorder` instance passed to the reconciler, which callers may share. The scenarios each build a fresh one, so their absolute counts hold only from fresh counters.
- With a resource set, the test double's `Get` returns that one resource for any key. The model stores objects by key, as the API server does. The tests only request the key of the resource they set, so they behave the same under both.
- Failures of metric registration or recording are left out; the counters here cannot fail.
- The test environment, the manager start-up and the CRD availability checks (new-controller/test/main_test.go:21-96) are left out: they are I/O against a test API server.
- The namespace test (new-controller/test/main_test.go:267-312) and the metrics test (new-controller/test/main_test.go:225-265) are not separate scenarios. Both are covered by `Controllers.ReconcileSuccess`, which holds for any key and spec.
- The list type and the JSON and schema tags of the resource types are serialisation metadata, so they are left out.

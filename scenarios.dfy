/**
 * The reconciliation scenarios of the controller's test suite, stated as
 * methods that build a client and a reconciler and reconcile once (or once
 * per object). Each promises what the corresponding test asserts, plus the
 * code's counter and write facts starting from fresh metric vectors; the
 * proof follows from the contract of Reconcile alone.
 */
module Scenarios {
  import opened Wrappers
  import opened NewResourceTypes
  import opened Counters
  import opened Store
  import opened Metrics
  import opened Controllers

  /** An existing object is reconciled without error and is stored ready. */
  method SuccessfulReconciliation() returns (result: ReconcileResult, err: Option<Error>, ready: bool)
    ensures result == EmptyResult && err == None && ready
  {
    var key := ObjectKey("default", "test-reconcile-success");
    var obj := NewObject("default", "test-reconcile-success", NewResourceSpec("test-value", false));
    var client := new Client(map[key := obj], None, None);
    var metrics := new Recorder();
    var r := new NewResourceReconciler(client, metrics);
    ghost var s := r.Snapshot();
    ReconcileSuccess(s, key);
    result, err := r.Reconcile(key);
    ready := key in client.objects && client.objects[key].status.ready;
  }

  /** An absent object is not an error, and no status write is attempted. */
  method ResourceNotFound() returns (result: ReconcileResult, err: Option<Error>, ghost writes: nat, errorsCounted: nat)
    ensures result == EmptyResult && err == None && writes == 0 && errorsCounted == 0
  {
    var key := ObjectKey("default", "non-existent-resource");
    var client := new Client(map[], None, None);
    var metrics := new Recorder();
    var r := new NewResourceReconciler(client, metrics);
    ghost var s := r.Snapshot();
    ReconcileNotFound(s, key);
    result, err := r.Reconcile(key);
    writes := |client.statusWrites|;
    errorsCounted := Count(metrics.reconcileErrors, Labels(ControllerName, GetResource))
                     + Count(metrics.reconcileErrors, Labels(ControllerName, StatusUpdate));
  }

  /** A failing read returns its error and counts one get_resource error. */
  method ResourceRetrievalError() returns (result: ReconcileResult, err: Option<Error>, getErrors: nat)
    ensures result == EmptyResult && err == Some(Failure("mock get error")) && getErrors == 1
  {
    var key := ObjectKey("default", "test-resource");
    var client := new Client(map[], Some(Failure("mock get error")), None);
    var metrics := new Recorder();
    var r := new NewResourceReconciler(client, metrics);
    ghost var s := r.Snapshot();
    ReconcileGetError(s, key);
    result, err := r.Reconcile(key);
    getErrors := Count(metrics.reconcileErrors, Labels(ControllerName, GetResource));
  }

  /** A failing status write returns its error and leaves the object not ready. */
  method StatusUpdateFailure() returns (result: ReconcileResult, err: Option<Error>, ready: bool, successes: nat)
    ensures result == EmptyResult && err == Some(Failure("mock status update error"))
    ensures !ready && successes == 0
  {
    var key := ObjectKey("default", "test-status-failure");
    var obj := NewObject("default", "test-status-failure", NewResourceSpec("test-value", false));
    var client := new Client(map[key := obj], None, Some(Failure("mock status update error")));
    var metrics := new Recorder();
    var r := new NewResourceReconciler(client, metrics);
    ghost var s := r.Snapshot();
    ReconcileStatusError(s, key);
    result, err := r.Reconcile(key);
    ready := key in client.objects && client.objects[key].status.ready;
    successes := Count(metrics.reconcileTotal, Labels(ControllerName, SuccessResult));
  }

  /** Reconcile an existing object with no failure injected (one iteration of the sequential test). */
  method ReconcileExisting(r: NewResourceReconciler, key: ObjectKey) returns (result: ReconcileResult, err: Option<Error>)
    requires r.Valid()
    requires key in r.client.objects && r.client.getErr.None? && r.client.statusErr.None?
    modifies r.client, r.metrics
    ensures r.Valid()
    ensures result == EmptyResult && err == None
    ensures r.client.objects == old(r.client.objects)[key := MarkReady(old(r.client.objects)[key])]
    ensures r.client.getErr.None? && r.client.statusErr.None?
    ensures Count(r.metrics.reconcileTotal, Labels(ControllerName, SuccessResult))
            == old(Count(r.metrics.reconcileTotal, Labels(ControllerName, SuccessResult))) + 1
  {
    ReconcileSuccess(r.Snapshot(), key);
    result, err := r.Reconcile(key);
  }

  /** Three objects reconciled one after another all end up ready. */
  method SequentialReconciliations() returns (allOk: bool, allReady: bool, successes: nat)
    ensures allOk && allReady && successes == 3
  {
    var k1 := ObjectKey("default", "concurrent-1");
    var k2 := ObjectKey("default", "concurrent-2");
    var k3 := ObjectKey("default", "concurrent-3");
    var spec := NewResourceSpec("concurrent-test", false);
    var objects := map[k1 := NewObject("default", "concurrent-1", spec),
                       k2 := NewObject("default", "concurrent-2", spec),
                       k3 := NewObject("default", "concurrent-3", spec)];
    var client := new Client(objects, None, None);
    var metrics := new Recorder();
    var r := new NewResourceReconciler(client, metrics);
    var r1, e1 := ReconcileExisting(r, k1);
    var r2, e2 := ReconcileExisting(r, k2);
    var r3, e3 := ReconcileExisting(r, k3);
    allOk := r1 == EmptyResult && e1 == None
          && r2 == EmptyResult && e2 == None
          && r3 == EmptyResult && e3 == None;
    allReady := k1 in client.objects && client.objects[k1].status.ready
             && k2 in client.objects && client.objects[k2].status.ready
             && k3 in client.objects && client.objects[k3].status.ready;
    successes := Count(metrics.reconcileTotal, Labels(ControllerName, SuccessResult));
  }
}

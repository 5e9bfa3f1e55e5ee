/**
 * One reconciliation step of the NewResource controller: count the attempt,
 * read the object, and either stop (not found), fail (read error), or mark
 * the object ready and write its status back (success or status-update
 * error). Every step records one duration observation.
 *
 * Step is the specification of one call over the abstract state (the store
 * with its injected failures, and the metric vectors);
 * NewResourceReconciler.Reconcile is the imperative step over the client and
 * the recorder, proved to agree with it.
 */
module Controllers {
  import opened Wrappers
  import opened NewResourceTypes
  import opened Counters
  import opened Store
  import opened Metrics

  /** ctrl.Result: whether and when to requeue. */
  datatype ReconcileResult = ReconcileResult(requeue: bool, requeueAfter: nat)

  /** ctrl.Result{}: no requeue. */
  const EmptyResult: ReconcileResult := ReconcileResult(false, 0)

  /** Everything a reconciliation reads or changes. */
  datatype State = State(
    objects: Objects,
    getErr: Option<Error>,
    statusErr: Option<Error>,
    statusWrites: seq<NewResource>,
    total: map<Labels, nat>,
    errors: map<Labels, nat>,
    observations: map<string, nat>)

  /** The state after a call and what the call returned. */
  datatype Outcome = Outcome(state: State, result: ReconcileResult, err: Option<Error>)

  /** controller_reconcile_total{NewResource, result} */
  function Total(s: State, result: string): nat {
    Count(s.total, Labels(ControllerName, result))
  }

  /** controller_reconcile_errors_total{NewResource, errorType} */
  function Errors(s: State, errorType: string): nat {
    Count(s.errors, Labels(ControllerName, errorType))
  }

  /** Observations of controller_reconcile_duration_seconds{NewResource} */
  function Observations(s: State): nat {
    Count(s.observations, ControllerName)
  }

  /** How much controller_reconcile_total{NewResource, result} grew from s to t. */
  function Growth(s: State, t: State, result: string): int {
    Total(t, result) - Total(s, result)
  }

  /** Reconcile(req), over the abstract state. */
  function Step(s: State, req: ObjectKey): (o: Outcome)
    // the attempt is counted once and observed once, and nothing is requeued
    ensures Total(o.state, Started) == Total(s, Started) + 1
    ensures Observations(o.state) == Observations(s) + 1
    ensures o.result == EmptyResult
    // exactly one of not_found, error and success is counted
    ensures Growth(s, o.state, NotFoundResult) in {0, 1}
    ensures Growth(s, o.state, ErrorResult) in {0, 1}
    ensures Growth(s, o.state, SuccessResult) in {0, 1}
    ensures Growth(s, o.state, NotFoundResult) + Growth(s, o.state, ErrorResult)
            + Growth(s, o.state, SuccessResult) == 1
    // an error is returned exactly when "error" is counted
    ensures o.err.Some? <==> Growth(s, o.state, ErrorResult) == 1
    // a status write is attempted only on an object just read, marked ready
    ensures o.state.statusWrites == s.statusWrites
            || (Lookup(s.objects, s.getErr, req).Ok?
                && o.state.statusWrites == s.statusWrites + [MarkReady(Lookup(s.objects, s.getErr, req).value)])
    // the store changes only on success
    ensures o.state.objects != s.objects ==> Growth(s, o.state, SuccessResult) == 1
    ensures o.state.getErr == s.getErr && o.state.statusErr == s.statusErr
    // no other reconcile_total child and no other controller's observations change
    ensures forall l :: l !in {Labels(ControllerName, Started), Labels(ControllerName, NotFoundResult),
                               Labels(ControllerName, ErrorResult), Labels(ControllerName, SuccessResult)}
                        ==> Count(o.state.total, l) == Count(s.total, l)
    ensures forall c :: c != ControllerName ==> Count(o.state.observations, c) == Count(s.observations, c)
  {
    var total := Inc(s.total, Labels(ControllerName, Started));
    var observations := Inc(s.observations, ControllerName);  // the deferred observation
    match Lookup(s.objects, s.getErr, req)
    case Err(e) =>
      if IsNotFound(e) then
        Outcome(s.(total := Inc(total, Labels(ControllerName, NotFoundResult)), observations := observations),
                EmptyResult, None)
      else
        Outcome(s.(total := Inc(total, Labels(ControllerName, ErrorResult)),
                   errors := Inc(s.errors, Labels(ControllerName, GetResource)),
                   observations := observations),
                EmptyResult, Some(e))
    case Ok(fetched) =>
      var resource := MarkReady(fetched);
      var writes := s.statusWrites + [resource];
      match UpdateStatus(s.objects, s.statusErr, resource)
      case Err(e) =>
        Outcome(s.(statusWrites := writes,
                   total := Inc(total, Labels(ControllerName, ErrorResult)),
                   errors := Inc(s.errors, Labels(ControllerName, StatusUpdate)),
                   observations := observations),
                EmptyResult, Some(e))
      case Ok(objects) =>
        Outcome(s.(objects := objects,
                   statusWrites := writes,
                   total := Inc(total, Labels(ControllerName, SuccessResult)),
                   observations := observations),
                EmptyResult, None)
  }

  /** A sequence of reconciliations, one per request, in order. */
  function Run(s: State, reqs: seq<ObjectKey>): State
    decreases |reqs|
  {
    if reqs == [] then s else Run(Step(s, reqs[0]).state, reqs[1..])
  }

  // ---------------------------------------------------------------------
  // The four paths of one call

  /**
   * The object is absent, or the read failed with a NotFound error: no
   * error, not_found counted, no error counted, no status write.
   */
  lemma ReconcileNotFound(s: State, req: ObjectKey)
    requires (s.getErr.None? && req !in s.objects) || (s.getErr.Some? && IsNotFound(s.getErr.value))
    ensures var t := Step(s, req).state;
      && Step(s, req).err == None
      && Step(s, req).result == EmptyResult
      && Total(t, NotFoundResult) == Total(s, NotFoundResult) + 1
      && Total(t, ErrorResult) == Total(s, ErrorResult)
      && Total(t, SuccessResult) == Total(s, SuccessResult)
      && t.errors == s.errors
      && t.statusWrites == s.statusWrites
      && t.objects == s.objects
  {
  }

  /**
   * The read failed with any other error: that error is returned, error and
   * errors_total{get_resource} are each counted once, no status write.
   */
  lemma ReconcileGetError(s: State, req: ObjectKey)
    requires s.getErr.Some? && !IsNotFound(s.getErr.value)
    ensures var t := Step(s, req).state;
      && Step(s, req).err == s.getErr
      && Step(s, req).result == EmptyResult
      && Total(t, ErrorResult) == Total(s, ErrorResult) + 1
      && Total(t, NotFoundResult) == Total(s, NotFoundResult)
      && Total(t, SuccessResult) == Total(s, SuccessResult)
      && Errors(t, GetResource) == Errors(s, GetResource) + 1
      && (forall l :: l != Labels(ControllerName, GetResource) ==> Count(t.errors, l) == Count(s.errors, l))
      && t.statusWrites == s.statusWrites
      && t.objects == s.objects
  {
  }

  /**
   * The object was read and its status written: no error, success counted,
   * and the stored object is the one read with Ready set; its spec, name and
   * namespace are unchanged, and so is every other object.
   */
  lemma ReconcileSuccess(s: State, req: ObjectKey)
    requires WellKeyed(s.objects)
    requires s.getErr.None? && req in s.objects && s.statusErr.None?
    ensures var t := Step(s, req).state;
      && Step(s, req).err == None
      && Step(s, req).result == EmptyResult
      && t.objects == s.objects[req := MarkReady(s.objects[req])]
      && t.objects[req].status.ready
      && t.objects[req].spec == s.objects[req].spec
      && t.objects[req].metadata == s.objects[req].metadata
      && Total(t, SuccessResult) == Total(s, SuccessResult) + 1
      && Total(t, ErrorResult) == Total(s, ErrorResult)
      && Total(t, NotFoundResult) == Total(s, NotFoundResult)
      && t.errors == s.errors
      && t.statusWrites == s.statusWrites + [MarkReady(s.objects[req])]
  {
  }

  /**
   * The object was read but the status write failed: that error is
   * returned, error and errors_total{status_update} are each counted once,
   * success is not counted, and the store is unchanged.
   */
  lemma ReconcileStatusError(s: State, req: ObjectKey)
    requires s.getErr.None? && req in s.objects && s.statusErr.Some?
    ensures var t := Step(s, req).state;
      && Step(s, req).err == s.statusErr
      && Step(s, req).result == EmptyResult
      && Total(t, ErrorResult) == Total(s, ErrorResult) + 1
      && Total(t, SuccessResult) == Total(s, SuccessResult)
      && Total(t, NotFoundResult) == Total(s, NotFoundResult)
      && Errors(t, StatusUpdate) == Errors(s, StatusUpdate) + 1
      && (forall l :: l != Labels(ControllerName, StatusUpdate) ==> Count(t.errors, l) == Count(s.errors, l))
      && t.objects == s.objects
      && t.statusWrites == s.statusWrites + [MarkReady(s.objects[req])]
  {
  }

  // ---------------------------------------------------------------------
  // Bookkeeping across calls

  /** One call counts an error in errors_total exactly when it counts "error". */
  lemma {:induction false} StepErrorsMatch(s: State, req: ObjectKey)
    ensures Sum(Step(s, req).state.errors) == Sum(s.errors) + Growth(s, Step(s, req).state, ErrorResult)
  {
    var t := Step(s, req).state;
    if t.errors != s.errors {
      var l :| l in {Labels(ControllerName, GetResource), Labels(ControllerName, StatusUpdate)}
               && t.errors == Inc(s.errors, l);
      SumInc(s.errors, l);
    }
  }

  /**
   * Over any sequence of calls: each call counts started and one duration
   * observation once; started grows by as much as not_found, error and
   * success together; and errors_total, over all its labels, grows by as
   * much as reconcile_total{error}.
   */
  lemma {:induction false} RunBookkeeping(s: State, reqs: seq<ObjectKey>)
    ensures var t := Run(s, reqs);
      && Total(t, Started) == Total(s, Started) + |reqs|
      && Observations(t) == Observations(s) + |reqs|
      && Growth(s, t, Started)
         == Growth(s, t, NotFoundResult) + Growth(s, t, ErrorResult) + Growth(s, t, SuccessResult)
      && Sum(t.errors) - Sum(s.errors) == Growth(s, t, ErrorResult)
    decreases |reqs|
  {
    if reqs != [] {
      StepErrorsMatch(s, reqs[0]);
      RunBookkeeping(Step(s, reqs[0]).state, reqs[1..]);
    }
  }

  /** The invariant the metric vectors keep between calls, starting from empty. */
  ghost predicate Balanced(total: map<Labels, nat>, errors: map<Labels, nat>, observations: map<string, nat>) {
    var nr := ControllerName;
    && Count(total, Labels(nr, Started))
       == Count(total, Labels(nr, NotFoundResult)) + Count(total, Labels(nr, ErrorResult))
          + Count(total, Labels(nr, SuccessResult))
    && Sum(errors) == Count(total, Labels(nr, ErrorResult))
    && Count(observations, nr) == Count(total, Labels(nr, Started))
  }

  /** Fresh (empty) metric vectors are balanced. */
  lemma EmptyBalanced()
    ensures Balanced(map[], map[], map[])
  {
  }

  /** One call keeps the metric vectors balanced. */
  lemma {:induction false} StepKeepsBalanced(s: State, req: ObjectKey)
    requires Balanced(s.total, s.errors, s.observations)
    ensures var t := Step(s, req).state; Balanced(t.total, t.errors, t.observations)
  {
    StepErrorsMatch(s, req);
  }

  /** A call keeps every object stored under its own key. */
  lemma StepKeepsWellKeyed(s: State, req: ObjectKey)
    requires WellKeyed(s.objects)
    ensures WellKeyed(Step(s, req).state.objects)
  {
  }

  // ---------------------------------------------------------------------
  // Repeated reconciliation

  /**
   * Reconciling an object that is already ready, with no failure injected,
   * leaves the store as it was (the status is still written).
   */
  lemma ReconcileReadyIsFixpoint(s: State, req: ObjectKey)
    requires WellKeyed(s.objects)
    requires s.getErr.None? && s.statusErr.None? && req in s.objects
    requires s.objects[req].status.ready
    ensures Step(s, req).state.objects == s.objects
    ensures Step(s, req).state.statusWrites == s.statusWrites + [s.objects[req]]
  {
  }

  /**
   * Reconciling the same existing object any positive number of times, with
   * no failure injected, leaves the store exactly as one reconciliation
   * does: the object is ready, its spec and metadata untouched.
   */
  lemma {:induction false} RepeatKeepsReady(s: State, req: ObjectKey, n: nat)
    requires WellKeyed(s.objects)
    requires s.getErr.None? && s.statusErr.None? && req in s.objects
    requires n >= 1
    ensures Run(s, seq(n, _ => req)).objects == s.objects[req := MarkReady(s.objects[req])]
    ensures Run(s, seq(n, _ => req)).objects[req].status.ready
    decreases n
  {
    var t := Step(s, req).state;
    ReconcileSuccess(s, req);
    StepKeepsWellKeyed(s, req);
    assert seq(n, _ => req)[1..] == seq(n - 1, _ => req);
    if n == 1 {
      assert Run(t, []) == t;
    } else {
      RepeatKeepsReady(t, req, n - 1);
      ReconcileReadyIsFixpoint(t, req);
      assert MarkReady(t.objects[req]) == t.objects[req];
      assert t.objects[req := t.objects[req]] == t.objects;
    }
  }

  // ---------------------------------------------------------------------
  // The reconciler

  /** NewResourceReconciler: the client it embeds and the metric vectors it updates. */
  class NewResourceReconciler {
    const client: Client
    const metrics: Recorder

    ghost function Snapshot(): State
      reads client, metrics
    {
      State(client.objects, client.getErr, client.statusErr, client.statusWrites,
            metrics.reconcileTotal, metrics.reconcileErrors, metrics.durationObservations)
    }

    ghost predicate Valid()
      reads client, metrics
    {
      client.Valid() && Balanced(metrics.reconcileTotal, metrics.reconcileErrors, metrics.durationObservations)
    }

    constructor (client: Client, metrics: Recorder)
      requires client.Valid()
      requires Balanced(metrics.reconcileTotal, metrics.reconcileErrors, metrics.durationObservations)
      ensures this.client == client && this.metrics == metrics
      ensures Valid()
    {
      this.client := client;
      this.metrics := metrics;
    }

    /** One reconciliation of the object named by req. */
    method Reconcile(req: ObjectKey) returns (result: ReconcileResult, err: Option<Error>)
      requires Valid()
      modifies client, metrics
      ensures Valid()
      ensures var o := Step(old(Snapshot()), req);
        Snapshot() == o.state && result == o.result && err == o.err
    {
      ghost var s := Snapshot();
      StepKeepsBalanced(s, req);
      StepKeepsWellKeyed(s, req);
      metrics.IncTotal(ControllerName, Started);
      var got := client.Get(req);
      if got.Err? {
        if IsNotFound(got.error) {
          metrics.IncTotal(ControllerName, NotFoundResult);
          metrics.Observe(ControllerName);
          return EmptyResult, None;
        }
        metrics.IncTotal(ControllerName, ErrorResult);
        metrics.IncErrors(ControllerName, GetResource);
        metrics.Observe(ControllerName);
        return EmptyResult, Some(got.error);
      }
      var resource := got.value;
      resource := resource.(status := resource.status.(ready := true));
      var updateErr := client.UpdateStatusOf(resource);
      if updateErr.Some? {
        metrics.IncTotal(ControllerName, ErrorResult);
        metrics.IncErrors(ControllerName, StatusUpdate);
        metrics.Observe(ControllerName);
        return EmptyResult, updateErr;
      }
      metrics.IncTotal(ControllerName, SuccessResult);
      metrics.Observe(ControllerName);
      return EmptyResult, None;
    }
  }
}

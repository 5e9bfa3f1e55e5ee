/**
 * The three metric vectors the reconciler updates:
 *   controller_reconcile_total{controller, result}
 *   controller_reconcile_duration_seconds{controller}  (only the number of observations)
 *   controller_reconcile_errors_total{controller, error_type}
 */
module Metrics {
  import opened Counters

  /** Label values of a two-label vector: the controller and the second label. */
  datatype Labels = Labels(controller: string, value: string)

  const ControllerName: string := "NewResource"

  // values of the "result" label
  const Started: string := "started"
  const NotFoundResult: string := "not_found"
  const ErrorResult: string := "error"
  const SuccessResult: string := "success"

  // values of the "error_type" label
  const GetResource: string := "get_resource"
  const StatusUpdate: string := "status_update"

  class Recorder {
    var reconcileTotal: map<Labels, nat>
    var reconcileErrors: map<Labels, nat>
    var durationObservations: map<string, nat>

    /** All vectors start empty, as freshly created vectors are. */
    constructor ()
      ensures reconcileTotal == map[] && reconcileErrors == map[] && durationObservations == map[]
    {
      reconcileTotal := map[];
      reconcileErrors := map[];
      durationObservations := map[];
    }

    /** reconcileTotalCounter.WithLabelValues(controller, result).Inc() */
    method IncTotal(controller: string, result: string)
      modifies this
      ensures reconcileTotal == Inc(old(reconcileTotal), Labels(controller, result))
      ensures reconcileErrors == old(reconcileErrors) && durationObservations == old(durationObservations)
    {
      reconcileTotal := Inc(reconcileTotal, Labels(controller, result));
    }

    /** reconcileErrorsCounter.WithLabelValues(controller, errorType).Inc() */
    method IncErrors(controller: string, errorType: string)
      modifies this
      ensures reconcileErrors == Inc(old(reconcileErrors), Labels(controller, errorType))
      ensures reconcileTotal == old(reconcileTotal) && durationObservations == old(durationObservations)
    {
      reconcileErrors := Inc(reconcileErrors, Labels(controller, errorType));
    }

    /** reconcileDurationHistogram.WithLabelValues(controller).Observe(_) */
    method Observe(controller: string)
      modifies this
      ensures durationObservations == Inc(old(durationObservations), controller)
      ensures reconcileTotal == old(reconcileTotal) && reconcileErrors == old(reconcileErrors)
    {
      durationObservations := Inc(durationObservations, controller);
    }
  }
}

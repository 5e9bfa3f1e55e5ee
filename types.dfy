/**
 * The NewResource custom resource (apps.newresource.com/v1alpha1): object
 * metadata, the desired-state spec and the observed-state status.
 * Type metadata, the list type and the serialisation tags are not modelled.
 */
module NewResourceTypes {

  /** The identity of an object: namespace and name (a namespaced name). */
  datatype ObjectKey = ObjectKey(namespace: string, name: string)

  /** The part of the object metadata the reconciler reads. */
  datatype ObjectMeta = ObjectMeta(name: string, namespace: string)

  /** Desired state; ReconcileTrigger only exists to force a new change. */
  datatype NewResourceSpec = NewResourceSpec(foo: string, reconcileTrigger: bool)

  /** Observed state. */
  datatype NewResourceStatus = NewResourceStatus(ready: bool)

  datatype NewResource = NewResource(
    metadata: ObjectMeta,
    spec: NewResourceSpec,
    status: NewResourceStatus)

  /** The key under which an object is stored and addressed. */
  function KeyOf(r: NewResource): ObjectKey {
    ObjectKey(r.metadata.namespace, r.metadata.name)
  }

  /**
   * An object as a client creates it, with no status given: the status
   * takes its schema default, in which Ready is false.
   */
  function NewObject(namespace: string, name: string, spec: NewResourceSpec): (r: NewResource)
    ensures KeyOf(r) == ObjectKey(namespace, name)
    ensures r.spec == spec
    ensures !r.status.ready
  {
    NewResource(ObjectMeta(name, namespace), spec, NewResourceStatus(ready := false))
  }

  /** The in-place mutation the reconciler applies to its local copy. */
  function MarkReady(r: NewResource): (r': NewResource)
    ensures r'.status.ready
    ensures r'.metadata == r.metadata && r'.spec == r.spec
  {
    r.(status := r.status.(ready := true))
  }
}

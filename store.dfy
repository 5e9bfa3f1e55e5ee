/**
 * The object store the reconciler reads from and writes status to, with the
 * failure injection of the test client: a Get error that, when set, is
 * returned for every read, and a status-update error that, when set, is
 * returned for every status write.
 */
module Store {
  import opened Wrappers
  import opened NewResourceTypes

  /** Errors returned by the store. */
  datatype Error =
    | NotFound(name: string)    // the API's "not found" status
    | Failure(message: string)  // any other failure

  /** What IgnoreNotFound(err) == nil tests. */
  predicate IsNotFound(e: Error) {
    e.NotFound?
  }

  type Objects = map<ObjectKey, NewResource>

  /** Every object is stored under its own key. */
  ghost predicate WellKeyed(objects: Objects) {
    forall k | k in objects :: KeyOf(objects[k]) == k
  }

  /**
   * Get: the injected error if one is set, otherwise the stored object,
   * otherwise NotFound for the requested name.
   */
  function Lookup(objects: Objects, getErr: Option<Error>, key: ObjectKey): (r: Result<NewResource, Error>)
    ensures r.Ok? <==> getErr.None? && key in objects
    ensures r.Ok? ==> r.value == objects[key]
    ensures getErr.Some? ==> r == Err(getErr.value)
    ensures getErr.None? && key !in objects ==> r == Err(NotFound(key.name))
  {
    if getErr.Some? then Err(getErr.value)
    else if key in objects then Ok(objects[key])
    else Err(NotFound(key.name))
  }

  /**
   * Status().Update: the injected error if one is set; otherwise the status
   * of obj replaces the status of the stored object with obj's key, whose
   * metadata and spec are kept (the status subresource writes status only).
   * An object absent from the store cannot be updated.
   */
  function UpdateStatus(objects: Objects, statusErr: Option<Error>, obj: NewResource): (r: Result<Objects, Error>)
    ensures r.Ok? <==> statusErr.None? && KeyOf(obj) in objects
    ensures statusErr.Some? ==> r == Err(statusErr.value)
    ensures statusErr.None? && KeyOf(obj) !in objects ==> r == Err(NotFound(obj.metadata.name))
    ensures r.Ok? ==> r.value.Keys == objects.Keys
    ensures r.Ok? ==> r.value[KeyOf(obj)].status == obj.status
    ensures r.Ok? ==> r.value[KeyOf(obj)].metadata == objects[KeyOf(obj)].metadata
    ensures r.Ok? ==> r.value[KeyOf(obj)].spec == objects[KeyOf(obj)].spec
    ensures r.Ok? ==> forall k | k in objects && k != KeyOf(obj) :: r.value[k] == objects[k]
  {
    var k := KeyOf(obj);
    if statusErr.Some? then Err(statusErr.value)
    else if k in objects then Ok(objects[k := objects[k].(status := obj.status)])
    else Err(NotFound(obj.metadata.name))
  }

  /** A status write keeps every object under its own key. */
  lemma UpdateStatusWellKeyed(objects: Objects, statusErr: Option<Error>, obj: NewResource)
    requires WellKeyed(objects)
    requires UpdateStatus(objects, statusErr, obj).Ok?
    ensures WellKeyed(UpdateStatus(objects, statusErr, obj).value)
  {
  }

  /**
   * The client the reconciler embeds, seen as a store with injectable
   * failures; every object handed to the status writer is recorded.
   */
  class Client {
    var objects: Objects
    var getErr: Option<Error>
    var statusErr: Option<Error>
    // every object handed to the status writer, in order (instrumentation for the contracts)
    ghost var statusWrites: seq<NewResource>

    ghost predicate Valid()
      reads this
    {
      WellKeyed(objects)
    }

    constructor (objects: Objects, getErr: Option<Error>, statusErr: Option<Error>)
      requires WellKeyed(objects)
      ensures Valid()
      ensures this.objects == objects && this.getErr == getErr && this.statusErr == statusErr
      ensures statusWrites == []
    {
      this.objects := objects;
      this.getErr := getErr;
      this.statusErr := statusErr;
      statusWrites := [];
    }

    /** Read an object by key; nothing changes. */
    method Get(key: ObjectKey) returns (r: Result<NewResource, Error>)
      ensures r.Ok? <==> getErr.None? && key in objects
      ensures Valid() && r.Ok? ==> KeyOf(r.value) == key
      ensures r == Lookup(objects, getErr, key)
    {
      if getErr.Some? {
        return Err(getErr.value);
      }
      if key in objects {
        return Ok(objects[key]);
      }
      return Err(NotFound(key.name));
    }

    /** Write the status of obj; the attempt is recorded whether or not it fails. */
    method UpdateStatusOf(obj: NewResource) returns (err: Option<Error>)
      requires Valid()
      modifies this
      ensures Valid()
      ensures getErr == old(getErr) && statusErr == old(statusErr)
      ensures statusWrites == old(statusWrites) + [obj]
      ensures var r := UpdateStatus(old(objects), statusErr, obj);
        if r.Ok? then err == None && objects == r.value else err == Some(r.error) && objects == old(objects)
    {
      statusWrites := statusWrites + [obj];
      var r := UpdateStatus(objects, statusErr, obj);
      if r.Err? {
        return Some(r.error);
      }
      UpdateStatusWellKeyed(objects, statusErr, obj);
      objects := r.value;
      return None;
    }
  }
}

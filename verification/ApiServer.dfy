// The stored Distribution object and the API server's two kinds of write.
module ApiServer {
  import opened Types

  datatype OwnerReference = OwnerReference(
    apiVersion: string,
    kind: string,
    name: string,
    uid: string,
    controller: bool)

  datatype Metadata = Metadata(
    name: string,
    namespace: string,
    labels: map<string, string>,
    owners: seq<OwnerReference>)

  datatype Object = Object(
    uid: string,
    version: nat,
    meta: Metadata,
    finalizer: bool,
    deleting: bool,
    spec: DistributionSpec,
    status: DistributionStatus)

  // A write is accepted if it reaches the server and carries the version and
  // uid that are stored.
  predicate Accepted(stored: Option<Object>, local: Object, fails: bool) {
    !fails && stored.Some? && stored.value.uid == local.uid && stored.value.version == local.version
  }

  // An object that is being deleted goes away with its finalizer.
  function Settled(o: Object): Option<Object> {
    if o.deleting && !o.finalizer then None else Some(o)
  }

  // A plain update keeps the stored status.
  function Update(stored: Option<Object>, local: Object, fails: bool): Option<Object> {
    if Accepted(stored, local, fails) then
      Settled(stored.value.(meta := local.meta, finalizer := local.finalizer, spec := local.spec,
                            version := stored.value.version + 1))
    else stored
  }

  // A status update keeps everything else.
  function UpdateStatus(stored: Option<Object>, local: Object, fails: bool): Option<Object> {
    if Accepted(stored, local, fails) then
      Some(stored.value.(status := local.status, version := stored.value.version + 1))
    else stored
  }

  function RequestDeletion(stored: Option<Object>): Option<Object> {
    if stored.None? then None else Settled(stored.value.(deleting := true, version := stored.value.version + 1))
  }

  // A plain update stores everything of the copy but the status and the mark of
  // deletion; a status update nothing but the status. Each makes every other copy
  // stale; a refused one changes nothing.
  lemma WritesApart(stored: Object, local: Object, fails: bool)
    requires Settled(stored).Some?
    ensures var accepted := !fails && stored.uid == local.uid && stored.version == local.version;
      var updated := local.(deleting := stored.deleting, status := stored.status, version := stored.version + 1);
      && Update(Some(stored), local, fails) ==
         (if !accepted then Some(stored)
          else if stored.deleting && !local.finalizer then None
          else Some(updated))
      && UpdateStatus(Some(stored), local, fails) ==
         (if accepted then Some(stored.(status := local.status, version := stored.version + 1)) else Some(stored))
  {
  }

  // A request for deletion removes an object without the finalizer and marks one
  // with it.
  lemma DeletionMarks(o: Object)
    ensures RequestDeletion(Some(o)) ==
            if o.finalizer then Some(o.(deleting := true, version := o.version + 1)) else None
  {
  }
}

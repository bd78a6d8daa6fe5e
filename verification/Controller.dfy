// One pass of the Distribution controller over the whole world: the stored
// object and the account.
module Controller {
  import opened Types
  import opened Aws
  import opened ApiServer
  import opened CloudFront

  // A provider behind the CDNProvider interface: this repository's one, or any
  // other.
  datatype CDNProvider =
    | CloudFrontProvider
    | OtherProvider(
        wants: DistributionClassSpec -> bool,
        reconcile: (Account, Answers, Request, DistributionStatus) -> Out,
        delete: (Account, Answers, Request, DistributionStatus) -> Out)
  {
    predicate Wants(classSpec: DistributionClassSpec) {
      if CloudFrontProvider? then classSpec.cloudFront.Some? else wants(classSpec)
    }

    function RunReconcile(acc: Account, a: Answers, req: Request, st: DistributionStatus): Out
      requires Wants(req.classSpec)
    {
      if CloudFrontProvider? then CloudFront.Reconcile(acc, a, req, st) else reconcile(acc, a, req, st)
    }

    function RunDelete(acc: Account, a: Answers, req: Request, st: DistributionStatus): Out {
      if CloudFrontProvider? then CloudFront.Delete(acc, a, req, st) else delete(acc, a, req, st)
    }
  }

  const PROVIDERS := [CloudFrontProvider]

  // `after` is the requeue delay in minutes.
  datatype Result = Returned(requeue: bool, after: nat, error: bool) | Crashed

  datatype Lookup = ClassFound(classSpec: DistributionClassSpec) | ClassMissing | LookupFailed

  datatype World = World(uid: string, obj: Option<Object>, account: Account)

  // What a pass reads besides the object: the class, the certificate serial
  // (None if it cannot be loaded) and the services' answers.
  datatype Inputs = Inputs(lookup: Lookup, cert: Option<nat>, answers: Answers)

  // The certificate a pass over `o` works with.
  function CertificateOf(o: Object, i: Inputs): Option<nat> {
    if o.spec.tls.Some? then i.cert else None
  }

  datatype PassOut = PassOut(world: World, result: Result)

  // Only the first provider that wants the class runs.
  function FirstWanting(ps: seq<CDNProvider>, acc: Account, a: Answers, req: Request, st: DistributionStatus): Out {
    if ps == [] then Out(acc, st, Done)
    else if ps[0].Wants(req.classSpec) then ps[0].RunReconcile(acc, a, req, st)
    else FirstWanting(ps[1..], acc, a, req, st)
  }

  datatype Deletion = Deletion(account: Account, status: DistributionStatus, failed: bool, panicked: bool)

  // Every provider that wants the class runs, in order, over one status,
  // whether or not an earlier one failed.
  function AllWanting(ps: seq<CDNProvider>, a: Answers, req: Request, d: Deletion): Deletion {
    if ps == [] || d.panicked then d
    else if !ps[0].Wants(req.classSpec) then AllWanting(ps[1..], a, req, d)
    else
      var out := ps[0].RunDelete(d.account, a, req, d.status);
      AllWanting(ps[1..], a, req,
        Deletion(out.account, out.status, d.failed || out.outcome.Failed?, out.outcome.Panicked?))
  }

  predicate AnyWants(ps: seq<CDNProvider>, classSpec: DistributionClassSpec) {
    exists i :: 0 <= i < |ps| && ps[i].Wants(classSpec)
  }

  function RequeueIfNot(failed: bool, condition: bool): Result {
    Returned(failed, if !failed && !condition then 1 else 0, false)
  }

  // Writes the status only if it changed, from a copy of the object: the
  // caller's version stays as it was.
  function StoreStatus(stored: Option<Object>, local: Object, st: DistributionStatus, a: Answers): Option<Object> {
    if st != local.status then UpdateStatus(stored, local.(status := st), OpWriteStatus in a.failing) else stored
  }

  // The stored object and the local copy after making sure of the finalizer.
  function EnsureFinalizer(stored: Option<Object>, local: Object, a: Answers): (Option<Object>, Object)
    requires stored == Some(local)
  {
    if local.finalizer then (stored, local)
    else
      var wanted := local.(finalizer := true);
      var stored' := Update(stored, wanted, OpAddFinalizer in a.failing);
      (stored', if OpAddFinalizer in a.failing then wanted else stored'.value)
  }

  function ReconcilePass(ps: seq<CDNProvider>, w: World, classSpec: DistributionClassSpec, i: Inputs): PassOut
    requires w.obj.Some? && !w.obj.value.deleting
  {
    var (stored, local) := EnsureFinalizer(w.obj, w.obj.value, i.answers);
    if local.spec.tls.Some? && i.cert.None? then
      PassOut(w.(obj := StoreStatus(stored, local, EMPTY_STATUS, i.answers)), Returned(false, 0, false))
    else
      var req := Request(classSpec, local.uid, local.spec, local.status.externalId, CertificateOf(local, i));
      var out := FirstWanting(ps, w.account, i.answers, req, local.status.(ready := true));
      if out.outcome.Panicked? then PassOut(w.(obj := stored, account := out.account), Crashed)
      else
        var st := if out.outcome.Failed? then out.status.(ready := false) else out.status;
        PassOut(w.(obj := StoreStatus(stored, local, st, i.answers), account := out.account),
                RequeueIfNot(out.outcome.Failed?, st.ready))
  }

  function DeletePass(ps: seq<CDNProvider>, w: World, classSpec: DistributionClassSpec, i: Inputs): PassOut
    requires w.obj.Some?
  {
    var local := w.obj.value;
    var req := Request(classSpec, local.uid, local.spec, local.status.externalId, None);
    var d := AllWanting(ps, i.answers, req, Deletion(w.account, local.status.(ready := false), false, false));
    if d.panicked then PassOut(w.(account := d.account), Crashed)
    else
      var allDeleted := AnyWants(ps, classSpec) ==> IdsEmpty(d.status);
      var stored := StoreStatus(w.obj, local, d.status, i.answers);
      var bare := local.(finalizer := false);
      var released := if allDeleted then Update(stored, bare, OpRemoveFinalizer in i.answers.failing) else stored;
      PassOut(w.(obj := released, account := d.account), RequeueIfNot(d.failed, allDeleted))
  }

  function Pass(ps: seq<CDNProvider>, world: World, i: Inputs): PassOut {
    var w := world.(account := world.account.(calls := []));
    if w.obj.None? then PassOut(w, Returned(false, 0, false))
    else if i.lookup.ClassMissing? then PassOut(w, Returned(false, 0, false))
    else if i.lookup.LookupFailed? then PassOut(w, Returned(false, 0, true))
    else if !w.obj.value.deleting then ReconcilePass(ps, w, i.lookup.classSpec, i)
    else if w.obj.value.finalizer then DeletePass(ps, w, i.lookup.classSpec, i)
    else PassOut(w, Returned(false, 0, false))
  }
}

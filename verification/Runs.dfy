// The world's steps and runs, and what a pass does with this repository's
// provider list.
module Runs {
  import opened Types
  import opened DistributionConfig
  import opened Aws
  import opened ApiServer
  import opened CloudFront
  import opened Controller

  datatype Step =
    | ControllerPass(inputs: Inputs)
    | FinishDeployment(id: string)
    | LoseDistribution(id: string)
    | LoseCertificate(arn: string)
    | Tamper(id: string, config: Config)
    | OthersCreate(id: string, config: Config)
    | OthersImport(arn: string, serial: nat)
    | EditSpec(spec: DistributionSpec)
    | AskDeletion

  // A name nothing live has, and the object has not on record.
  predicate UnusedName(w: World, name: string, used: set<string>) {
    && Fresh(name, used)
    && (w.obj.Some? ==> name !in {w.obj.value.status.externalId, w.obj.value.status.externalCertificateId})
  }

  function Next(w: World, s: Step): World {
    var acc := w.account;
    match s
    case ControllerPass(i) => Pass(PROVIDERS, w, i).world
    case FinishDeployment(id) =>
      if id in acc.cf then w.(account := acc.(cf := acc.cf[id := acc.cf[id].(deployed := true)])) else w
    case LoseDistribution(id) => w.(account := acc.(cf := acc.cf - {id}))
    case LoseCertificate(arn) => w.(account := acc.(acm := acc.acm - {arn}))
    case Tamper(id, config) =>
      if id in acc.cf then
        var live := acc.cf[id];
        var config' := config.(callerReference := live.config.callerReference);
        w.(account := acc.(cf := acc.cf[id := Live(config', false, live.etag + 1, live.domain)]))
      else w
    case OthersCreate(id, config) =>
      if UnusedName(w, id, acc.cf.Keys) && config.callerReference != w.uid then
        w.(account := acc.(cf := acc.cf[id := Live(config, false, 0, id)]))
      else w
    case OthersImport(arn, serial) =>
      if UnusedName(w, arn, acc.acm.Keys + acc.minted) then w.(account := acc.(acm := acc.acm[arn := serial])) else w
    case EditSpec(spec) =>
      if w.obj.Some? then w.(obj := Some(w.obj.value.(spec := spec, version := w.obj.value.version + 1))) else w
    case AskDeletion => w.(obj := RequestDeletion(w.obj))
  }

  function Run(w: World, steps: seq<Step>): World
    decreases steps
  {
    if steps == [] then w else Run(Next(w, steps[0]), steps[1..])
  }

  function DeployAll(w: World): World {
    var cf := w.account.cf;
    w.(account := w.account.(cf := map id | id in cf :: cf[id].(deployed := true)))
  }

  // Deployments in flight finish, then a pass runs.
  function Round(w: World, i: Inputs): World {
    Pass(PROVIDERS, DeployAll(w), i).world
  }

  function Rounds(w: World, inputs: seq<Inputs>): World
    decreases inputs
  {
    if inputs == [] then w else Rounds(Round(w, inputs[0]), inputs[1..])
  }

  // With the one provider, the loops are one call or none.
  lemma OneProvider(acc: Account, a: Answers, req: Request, st: DistributionStatus)
    ensures FirstWanting(PROVIDERS, acc, a, req, st) ==
            if req.classSpec.cloudFront.Some? then CloudFront.Reconcile(acc, a, req, st) else Out(acc, st, Done)
    ensures AllWanting(PROVIDERS, a, req, Deletion(acc, st, false, false)) ==
            if req.classSpec.cloudFront.Some? then
              var out := CloudFront.Delete(acc, a, req, st);
              Deletion(out.account, out.status, out.outcome.Failed?, out.outcome.Panicked?)
            else Deletion(acc, st, false, false)
    ensures AnyWants(PROVIDERS, req.classSpec) <==> req.classSpec.cloudFront.Some?
  {
    assert PROVIDERS[1..] == [];
    assert PROVIDERS[0].Wants(req.classSpec) == req.classSpec.cloudFront.Some?;
  }

  // ----- what a pass stores -----

  lemma FinalizerShape(local: Object, a: Answers)
    ensures var (stored, local') := EnsureFinalizer(Some(local), local, a);
      && stored.Some? && stored.value.uid == local.uid && stored.value.version == local'.version
      && stored.value == local.(finalizer := stored.value.finalizer, version := stored.value.version)
      && local' == local.(finalizer := true, version := local'.version)
      && (stored.value.finalizer <==> local.finalizer || OpAddFinalizer !in a.failing)
  {
  }

  lemma StatusShape(o: Object, local: Object, st: DistributionStatus, a: Answers)
    requires o.uid == local.uid && o.version == local.version && o.status == local.status
    ensures var stored := StoreStatus(Some(o), local, st, a);
      && stored.Some? && stored.value == o.(status := stored.value.status, version := stored.value.version)
      && stored.value.status == (if OpWriteStatus in a.failing then o.status else st)
      && (stored.value.version == local.version <==> st == o.status || OpWriteStatus in a.failing)
  {
  }

  function RequestOf(o: Object, classSpec: DistributionClassSpec, i: Inputs): Request {
    Request(classSpec, o.uid, o.spec, o.status.externalId, if o.deleting then None else CertificateOf(o, i))
  }

  // The provider's part of a reconcile, and of a deletion.
  function Reconciled(w: World, o: Object, classSpec: DistributionClassSpec, i: Inputs): Out {
    var st := o.status.(ready := true);
    if classSpec.cloudFront.Some? then CloudFront.Reconcile(w.account, i.answers, RequestOf(o, classSpec, i), st)
    else Out(w.account, st, Done)
  }

  function Deleted(w: World, o: Object, classSpec: DistributionClassSpec, i: Inputs): Out {
    var st := o.status.(ready := false);
    if classSpec.cloudFront.Some? then CloudFront.Delete(w.account, i.answers, RequestOf(o, classSpec, i), st)
    else Out(w.account, st, Done)
  }

  function FinalStatus(out: Out): DistributionStatus {
    if out.outcome.Failed? then out.status.(ready := false) else out.status
  }

  // A reconcile pass stores, if it can, the provider's status, or the empty one
  // if there is no certificate where there should be one.
  lemma ReconcilePassShape(w: World, classSpec: DistributionClassSpec, i: Inputs)
    requires w.obj.Some? && !w.obj.value.deleting
    ensures var p, o := ReconcilePass(PROVIDERS, w, classSpec, i), w.obj.value;
      && p.world.uid == w.uid && p.world.obj.Some?
      && var o' := p.world.obj.value;
         && o' == o.(finalizer := o'.finalizer, version := o'.version, status := o'.status)
         && (o'.finalizer <==> o.finalizer || OpAddFinalizer !in i.answers.failing)
         && if o.spec.tls.Some? && i.cert.None? then
              && p.world.account == w.account && p.result == Returned(false, 0, false)
              && o'.status == (if OpWriteStatus in i.answers.failing then o.status else EMPTY_STATUS)
            else
              var out := Reconciled(w, o, classSpec, i);
              && p.world.account == out.account
              && if out.outcome.Panicked? then p.result == Crashed && o'.status == o.status
                 else
                   && p.result == RequeueIfNot(out.outcome.Failed?, FinalStatus(out).ready)
                   && o'.status == (if OpWriteStatus in i.answers.failing then o.status else FinalStatus(out))
  {
    var o := w.obj.value;
    FinalizerShape(o, i.answers);
    var (stored, local) := EnsureFinalizer(w.obj, o, i.answers);
    if o.spec.tls.Some? && i.cert.None? {
      StatusShape(stored.value, local, EMPTY_STATUS, i.answers);
    } else {
      OneProvider(w.account, i.answers, RequestOf(o, classSpec, i), o.status.(ready := true));
      var out := Reconciled(w, o, classSpec, i);
      if !out.outcome.Panicked? { StatusShape(stored.value, local, FinalStatus(out), i.answers); }
    }
  }

  // A deletion pass stores the provider's status if it can; it releases the
  // object if there was nothing to store, or it could not be stored.
  lemma DeletePassShape(w: World, classSpec: DistributionClassSpec, i: Inputs)
    requires w.obj.Some? && w.obj.value.deleting && w.obj.value.finalizer
    requires !Deleted(w, w.obj.value, classSpec, i).outcome.Panicked?
    ensures var p, o := DeletePass(PROVIDERS, w, classSpec, i), w.obj.value;
      var out := Deleted(w, o, classSpec, i);
      var allDeleted := classSpec.cloudFront.Some? ==> IdsEmpty(out.status);
      var unwritten := out.status == o.status || OpWriteStatus in i.answers.failing;
      && p.world.uid == w.uid && p.world.account == out.account
      && (p.world.obj.None? <==> allDeleted && unwritten && OpRemoveFinalizer !in i.answers.failing)
      && (p.world.obj.Some? ==>
            var o' := p.world.obj.value;
            && o' == o.(version := o'.version, status := o'.status)
            && o'.status == (if OpWriteStatus in i.answers.failing then o.status else out.status))
  {
    var o := w.obj.value;
    var out := Deleted(w, o, classSpec, i);
    OneProvider(w.account, i.answers, RequestOf(o, classSpec, i), o.status.(ready := false));
    StatusShape(o, o, out.status, i.answers);
  }
}

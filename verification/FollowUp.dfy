// A pass that leaves work undone is followed by another one.
module FollowUp {
  import opened Types
  import opened Aws
  import opened ApiServer
  import opened CloudFront
  import opened Controller
  import opened Runs
  import opened Certificates
  import opened SteadyState
  import ProviderLoops
  import Teardown
  import Watch

  // The pass asks for another one, or fails, or changes the stored object,
  // which is watched.
  predicate Followed(w: World, out: PassOut) {
    out.result.Crashed? || out.result.requeue || out.result.after > 0 || out.result.error || out.world.obj != w.obj
  }

  // There is nothing left to do before something else changes: the object is
  // gone, its class is missing, its secret cannot be read, or it is settled.
  ghost predicate AtRest(w: World, i: Inputs) {
    || w.obj.None? || i.lookup.ClassMissing?
    || (&& i.lookup.ClassFound?
        && var o, c := w.obj.value, i.lookup.classSpec.cloudFront;
           if o.deleting then !o.finalizer
           else if o.spec.tls.Some? && i.cert.None? then true
           else if c.None? then o.finalizer && o.status.ready
           else i.cert.Some? && Steady(w, c.value, i.cert.value))
  }

  // The finalizer is missing or the status is another one, and every write this
  // calls for fails.
  predicate Unwritten(o: Object, st: DistributionStatus, a: Answers) {
    && !(o.finalizer && st == o.status)
    && (!o.finalizer ==> OpAddFinalizer in a.failing)
    && (st != o.status ==> OpWriteStatus in a.failing)
  }

  // The reconcile ends ready, with a CloudFront class or without.
  ghost predicate ReconcileStuck(acc: Account, o: Object, cloudFront: Option<CloudFrontSpec>, i: Inputs) {
    match cloudFront
    case None => (o.spec.tls.Some? ==> i.cert.Some?) && Unwritten(o, o.status.(ready := true), i.answers)
    case Some(c) =>
      var id, arn := o.status.externalId, ArnAfter(acc, i.answers, o.status, CertificateOf(o, i));
      EndsReady(acc, o, i, c) && Unwritten(o, ReadyStatus(acc.cf[id], id, arn), i.answers)
  }

  // The deletion leaves nothing, and neither the status that changed by it can
  // be written nor the finalizer be removed.
  predicate DeletionStuck(acc: Account, o: Object, cloudFront: Option<CloudFrontSpec>, a: Answers) {
    && o.finalizer && OpRemoveFinalizer in a.failing
    && match cloudFront
       case None => o.status.ready ==> OpWriteStatus in a.failing
       case Some(_) =>
         && Teardown.DistributionGoes(acc, a, o.status.externalId)
         && o.status.externalCertificateId != "" && OpDeleteCert !in a.failing
         && OpWriteStatus in a.failing
  }

  // When a pass is neither followed nor done, by the object, the account, the
  // class, the certificate and the operations that fail.
  ghost predicate Stuck(w: World, i: Inputs) {
    && w.obj.Some? && i.lookup.ClassFound?
    && var o, c := w.obj.value, i.lookup.classSpec.cloudFront;
       if o.deleting then DeletionStuck(w.account, o, c, i.answers) else ReconcileStuck(w.account, o, c, i)
  }

  // Two steady statuses over one account that name one distribution are equal.
  lemma SteadyStatus(w: World, w': World, c: CloudFrontSpec, serial: nat)
    requires Steady(w, c, serial) && Steady(w', c, serial) && w.account == w'.account
    requires w.obj.value.status.externalId == w'.obj.value.status.externalId
    ensures w.obj.value.status == w'.obj.value.status
  {
  }

  lemma ReadyIsSteady(w: World, o: Object, i: Inputs, c: CloudFrontSpec)
    requires !o.deleting && CloudFrontClass(i, c) && EndsReady(w.account, o, i, c)
    ensures var out := Reconciled(w, o, i.lookup.classSpec, i);
      && i.cert.Some? && out.status.externalId == o.status.externalId
      && Steady(World(o.uid, Some(o.(finalizer := true, status := out.status)), out.account), c, i.cert.value)
  {
    EndsReadyIff(w, o, i, c);
    var req, st := RequestOf(o, i.lookup.classSpec, i), o.status.(ready := true);
    ReadyProvider(w.account, i.answers, req, st, o.(finalizer := true), c);
  }

  // What is stored then is steady if and only if it is what is in memory.
  lemma ReadyRestsIff(uid: string, o: Object, o': Object, out: Out, c: CloudFrontSpec, serial: nat)
    requires Steady(World(o.uid, Some(o.(finalizer := true, status := out.status)), out.account), c, serial)
    requires out.status.externalId == o.status.externalId
    requires o' == o.(finalizer := o'.finalizer, version := o'.version, status := o'.status)
    requires o'.status in {o.status, out.status}
    ensures Steady(World(uid, Some(o'), out.account), c, serial) <==> o'.finalizer && o'.status == out.status
  {
    var inMemory := World(o.uid, Some(o.(finalizer := true, status := out.status)), out.account);
    var stored := World(uid, Some(o'), out.account);
    if Steady(stored, c, serial) {
      SteadyStatus(stored, inMemory, c, serial);
    }
  }

  // The two writes of a reconcile leave the object as it is exactly if each is
  // needless or fails.
  lemma UnwrittenIff(o: Object, st: DistributionStatus, a: Answers)
    ensures var (stored, local) := EnsureFinalizer(Some(o), o, a);
      StoreStatus(stored, local, st, a) == Some(o) <==>
      (o.finalizer || OpAddFinalizer in a.failing) && (st == o.status || OpWriteStatus in a.failing)
  {
    FinalizerShape(o, a);
    var (stored, local) := EnsureFinalizer(Some(o), o, a);
    StatusShape(stored.value, local, st, a);
  }

  // A reconcile that ends ready in memory asks for nothing, and the object
  // stays if the writes are needless or fail; any other one is followed.
  lemma ReconcileFollowed(w: World, classSpec: DistributionClassSpec, i: Inputs)
    requires w.obj.Some? && !w.obj.value.deleting && i.lookup == ClassFound(classSpec) && w.account.calls == []
    requires w.obj.value.spec.tls.Some? ==> i.cert.Some?
    ensures var p, o := ReconcilePass(PROVIDERS, w, classSpec, i), w.obj.value;
      var out := Reconciled(w, o, classSpec, i);
      !Followed(w, p) <==>
        && out.outcome.Done? && out.status.ready
        && (o.finalizer || OpAddFinalizer in i.answers.failing)
        && (out.status == o.status || OpWriteStatus in i.answers.failing)
  {
    hide RequeueIfNot;
    var o := w.obj.value;
    var out := Reconciled(w, o, classSpec, i);
    OneProvider(w.account, i.answers, RequestOf(o, classSpec, i), o.status.(ready := true));
    ProviderLoops.ReconcileRequeue(PROVIDERS, w, i);
    UnwrittenIff(o, FinalStatus(out), i.answers);
  }

  lemma ReconcileFollowedUp(w: World, classSpec: DistributionClassSpec, i: Inputs)
    requires w.obj.Some? && !w.obj.value.deleting && i.lookup == ClassFound(classSpec) && w.account.calls == []
    ensures var p := ReconcilePass(PROVIDERS, w, classSpec, i);
      Followed(w, p) || AtRest(p.world, i) <==>
      !ReconcileStuck(w.account, w.obj.value, classSpec.cloudFront, i)
  {
    var o, p := w.obj.value, ReconcilePass(PROVIDERS, w, classSpec, i);
    ReconcilePassShape(w, classSpec, i);
    if o.spec.tls.Some? && i.cert.None? {
    } else if classSpec.cloudFront.None? {
      ReconcileFollowed(w, classSpec, i);
    } else {
      hide EndsReady, Steady, ReconcilePass;
      var c, out := classSpec.cloudFront.value, Reconciled(w, o, classSpec, i);
      ReconcileFollowed(w, classSpec, i);
      EndsReadyIff(w, o, i, c);
      if EndsReady(w.account, o, i, c) {
        ReadyIsSteady(w, o, i, c);
        ReadyRestsIff(w.uid, o, p.world.obj.value, out, c, i.cert.value);
      }
    }
  }

  lemma DeletedIff(w: World, o: Object, classSpec: DistributionClassSpec, i: Inputs)
    requires o.deleting && classSpec.cloudFront.Some?
    ensures var out := Deleted(w, o, classSpec, i);
      && !out.outcome.Panicked?
      && (out.outcome.Done? && IdsEmpty(out.status) <==>
            && Teardown.DistributionGoes(w.account, i.answers, o.status.externalId)
            && o.status.externalCertificateId != "" && OpDeleteCert !in i.answers.failing)
      && (out.outcome.Done? && IdsEmpty(out.status) ==> out.status != o.status)
  {
  }

  lemma DeletionFollowed(w: World, classSpec: DistributionClassSpec, i: Inputs)
    requires w.obj.Some? && w.obj.value.deleting && w.obj.value.finalizer
    requires i.lookup == ClassFound(classSpec) && w.account.calls == []
    ensures !Followed(w, DeletePass(PROVIDERS, w, classSpec, i)) <==>
            DeletionStuck(w.account, w.obj.value, classSpec.cloudFront, i.answers)
  {
    hide RequeueIfNot;
    var o := w.obj.value;
    var req, st := RequestOf(o, classSpec, i), o.status.(ready := false);
    if classSpec.cloudFront.Some? { DeletedIff(w, o, classSpec, i); }
    OneProvider(w.account, i.answers, req, st);
    ProviderLoops.DeleteRequeue(PROVIDERS, w, i);
  }

  lemma StuckIgnoresCalls(w: World, i: Inputs)
    ensures Stuck(w.(account := w.account.(calls := [])), i) <==> Stuck(w, i)
  {
  }

  // A pass is followed by another one, or leaves nothing to do, exactly when
  // it is not stuck.
  lemma FollowedUpIff(w: World, i: Inputs)
    ensures var p := Pass(PROVIDERS, w, i);
      Followed(w, p) || AtRest(p.world, i) <==> !Stuck(w, i)
  {
    var w0 := w.(account := w.account.(calls := []));
    StuckIgnoresCalls(w, i);
    if w.obj.Some? && i.lookup.ClassFound? {
      if !w.obj.value.deleting {
        ReconcileFollowedUp(w0, i.lookup.classSpec, i);
      } else if w.obj.value.finalizer {
        DeletionFollowed(w0, i.lookup.classSpec, i);
      }
    }
  }

  // It happens: the deployment has finished, the pass that finds out cannot
  // write so, and no pass is asked for. Ready stays false in the stored object.
  lemma UnwrittenReadyIsStuck(w: World, i: Inputs, c: CloudFrontSpec)
    requires w.obj.Some? && !w.obj.value.status.ready && CloudFrontClass(i, c) && i.cert.Some?
    requires var o := w.obj.value;
      Steady(w.(obj := Some(o.(status := o.status.(ready := true, externalStatus := DEPLOYED)))), c, i.cert.value)
    requires i.answers.failing == {OpWriteStatus}
    ensures var p := Pass(PROVIDERS, w, i);
      Stuck(w, i) && !AtRest(p.world, i) && p.world.obj == w.obj && p.result == Returned(false, 0, false)
  {
    var w0, o := w.(account := w.account.(calls := [])), w.obj.value;
    var st := o.status.(ready := true);
    GoodCertificateIsQuiet(w0.account, i.answers, st, i.cert.value);
    var k := ReconcileCertificate(w0.account, i.answers, st, i.cert);
    GoodDistributionIsQuiet(k.account, i.answers, RequestOf(o, i.lookup.classSpec, i), st, o, c);
    var out := Reconciled(w0, o, i.lookup.classSpec, i);
    assert out.outcome.Done? && out.status == st.(externalStatus := DEPLOYED);
    FollowedUpIff(w, i);
  }

  // ----- what a pass waits for -----

  function LookupOf(c: Watch.Cluster, namespace: string, ref: ObjectReference): Lookup {
    match Watch.GetClass(c, namespace, ref)
    case ClassSpec(spec) => ClassFound(spec)
    case NoSuchClass => ClassMissing
    case NotAcceptable => LookupFailed
  }

  // A class that does not exist is not an error; a reference of an unknown kind
  // is one.
  lemma ErrorByReference(ps: seq<CDNProvider>, w: World, i: Inputs, c: Watch.Cluster, namespace: string)
    requires w.obj.Some? && i.lookup == LookupOf(c, namespace, w.obj.value.spec.classRef)
    ensures var result, kind := Pass(ps, w, i).result, w.obj.value.spec.classRef.kind;
      result.Returned? && result.error <==> kind != "ClusterDistributionClass" && kind != "DistributionClass"
    ensures forall spec :: i.lookup == ClassFound(spec) <==>
              Watch.GetClass(c, namespace, w.obj.value.spec.classRef) == Watch.ClassSpec(spec)
  {
    ProviderLoops.ErrorIff(ps, w, i);
    Watch.ReadIff(c, namespace, w.obj.value.spec.classRef, DistributionClassSpec(None));
  }

  // The inputs are read from the cluster; `resolve` makes a serial of a secret.
  ghost predicate ReadFrom(i: Inputs, c: Watch.Cluster, key: Watch.Key, resolve: Option<Option<string>> -> Option<nat>)
    requires key in c.distributions
  {
    var spec := c.distributions[key];
    && i.lookup == LookupOf(c, key.namespace, spec.classRef)
    && i.cert == resolve(Watch.GetSecret(c, key.namespace, spec))
  }

  // A pass that is not followed and not stuck leaves nothing to do, and that
  // stays so through every change that does not queue the Distribution.
  lemma SleepIsSafe(w: World, i: Inputs, c: Watch.Cluster, change: Watch.Change, key: Watch.Key,
                    resolve: Option<Option<string>> -> Option<nat>, i': Inputs)
    requires !Stuck(w, i) && !Followed(w, Pass(PROVIDERS, w, i))
    requires Watch.WellNamed(change) && key in c.distributions
    requires key !in Watch.Requests(c, Watch.KindOf(change), Watch.ObjectOf(change))
    requires ReadFrom(i, c, key, resolve) && ReadFrom(i', Watch.Apply(c, change), key, resolve)
    ensures AtRest(Pass(PROVIDERS, w, i).world, i')
  {
    Watch.UnqueuedReadsTheSame(c, change, key);
    FollowedUpIff(w, i);
  }
}

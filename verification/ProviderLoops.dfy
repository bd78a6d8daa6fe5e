// The loops over an arbitrary provider list, and what a pass may write.
module ProviderLoops {
  import opened Types
  import opened Aws
  import opened ApiServer
  import opened CloudFront
  import opened Controller

  // A reconcile is the call of the first provider that wants the class, and of
  // no other.
  lemma {:induction false} RunsFirstWanting(ps: seq<CDNProvider>, k: nat, acc: Account, a: Answers,
                                            req: Request, st: DistributionStatus)
    requires k <= |ps| && forall j :: 0 <= j < k ==> !ps[j].Wants(req.classSpec)
    ensures k < |ps| && ps[k].Wants(req.classSpec) ==>
              FirstWanting(ps, acc, a, req, st) == ps[k].RunReconcile(acc, a, req, st)
    ensures k == |ps| ==> FirstWanting(ps, acc, a, req, st) == Out(acc, st, Done)
  {
    if k == 0 {
    } else {
      assert forall j :: 0 <= j < k - 1 ==> ps[1..][j] == ps[j + 1];
      RunsFirstWanting(ps[1..], k - 1, acc, a, req, st);
    }
  }

  // The one provider of this repository wants the classes with a CloudFront
  // block; any other answers for itself.
  lemma AnswersForItself(wants: DistributionClassSpec -> bool,
                         reconcile: (Account, Answers, Request, DistributionStatus) -> Out,
                         delete: (Account, Answers, Request, DistributionStatus) -> Out,
                         acc: Account, a: Answers, req: Request, st: DistributionStatus)
    ensures CloudFrontProvider.Wants(req.classSpec) <==> req.classSpec.cloudFront.Some?
    ensures FirstWanting([CloudFrontProvider, OtherProvider(wants, reconcile, delete)], acc, a, req, st) ==
            if req.classSpec.cloudFront.Some? then CloudFront.Reconcile(acc, a, req, st)
            else if wants(req.classSpec) then reconcile(acc, a, req, st)
            else Out(acc, st, Done)
    ensures AllWanting([OtherProvider(wants, reconcile, delete)], a, req, Deletion(acc, st, false, false)) ==
            if !wants(req.classSpec) then Deletion(acc, st, false, false)
            else
              var out := delete(acc, a, req, st);
              Deletion(out.account, out.status, out.outcome.Failed?, out.outcome.Panicked?)
  {
    var p := OtherProvider(wants, reconcile, delete);
    assert [CloudFrontProvider, p][1..] == [p] && [p][1..] == [];
    assert FirstWanting([p], acc, a, req, st) ==
           if wants(req.classSpec) then reconcile(acc, a, req, st) else FirstWanting([], acc, a, req, st);
  }

  function Wanting(ps: seq<CDNProvider>, classSpec: DistributionClassSpec): seq<CDNProvider> {
    if ps == [] then []
    else (if ps[0].Wants(classSpec) then [ps[0]] else []) + Wanting(ps[1..], classSpec)
  }

  // A deletion is the calls of all providers that want the class, in list
  // order, each starting from what the one before left.
  lemma {:induction false} RunsAllWanting(ps: seq<CDNProvider>, a: Answers, req: Request, d: Deletion)
    ensures AllWanting(ps, a, req, d) == AllWanting(Wanting(ps, req.classSpec), a, req, d)
    ensures forall p :: p in Wanting(ps, req.classSpec) ==> p in ps && p.Wants(req.classSpec)
    decreases ps
  {
    if ps == [] {
    } else {
      var rest := Wanting(ps[1..], req.classSpec);
      if ps[0].Wants(req.classSpec) {
        assert Wanting(ps, req.classSpec)[1..] == rest;
        var out := ps[0].RunDelete(d.account, a, req, d.status);
        RunsAllWanting(ps[1..], a, req,
          Deletion(out.account, out.status, d.failed || out.outcome.Failed?, out.outcome.Panicked?));
      } else {
        assert Wanting(ps, req.classSpec) == rest;
        RunsAllWanting(ps[1..], a, req, d);
      }
    }
  }

  lemma {:induction false} DeletionInOrder(ps: seq<CDNProvider>, qs: seq<CDNProvider>, a: Answers,
                                           req: Request, d: Deletion)
    ensures AllWanting(ps + qs, a, req, d) == AllWanting(qs, a, req, AllWanting(ps, a, req, d))
    decreases ps
  {
    if ps == [] {
      assert ps + qs == qs;
    } else if d.panicked {
    } else {
      assert (ps + qs)[1..] == ps[1..] + qs && (ps + qs)[0] == ps[0];
      if ps[0].Wants(req.classSpec) {
        var out := ps[0].RunDelete(d.account, a, req, d.status);
        DeletionInOrder(ps[1..], qs, a, req,
          Deletion(out.account, out.status, d.failed || out.outcome.Failed?, out.outcome.Panicked?));
      } else {
        DeletionInOrder(ps[1..], qs, a, req, d);
      }
    }
  }

  // One provider more: it is asked, from what the ones before it left, if it wants
  // the class and none of them crashed, even if one failed.
  lemma LastProviderRuns(ps: seq<CDNProvider>, p: CDNProvider, a: Answers, req: Request, d: Deletion)
    ensures var before, after := AllWanting(ps, a, req, d), AllWanting(ps + [p], a, req, d);
      if before.panicked || !p.Wants(req.classSpec) then after == before
      else
        var out := p.RunDelete(before.account, a, req, before.status);
        && after.account == out.account && after.status == out.status
        && (after.failed <==> before.failed || out.outcome.Failed?)
        && (after.panicked <==> out.outcome.Panicked?)
  {
    DeletionInOrder(ps, [p], a, req, d);
  }

  lemma WantsSplit(ps: seq<CDNProvider>, classSpec: DistributionClassSpec, k: nat)
    requires k < |ps|
    ensures AnyWants(ps[..k + 1], classSpec) <==> AnyWants(ps[..k], classSpec) || ps[k].Wants(classSpec)
  {
    var front, whole := ps[..k], ps[..k + 1];
    assert forall j :: 0 <= j < k ==> front[j] == whole[j];
    assert whole[k] == ps[k];
  }

  // A status write stores the same whatever spec its copy holds.
  lemma StatusWriteIgnoresSpec(stored: Option<Object>, local: Object, spec: DistributionSpec,
                               st: DistributionStatus, a: Answers)
    ensures StoreStatus(stored, local.(spec := spec), st, a) == StoreStatus(stored, local, st, a)
  {
  }

  // No pass, with any providers, changes the stored spec, metadata or uid.
  lemma PassKeepsSpec(ps: seq<CDNProvider>, w: World, i: Inputs)
    requires w.obj.Some?
    ensures var obj := Pass(ps, w, i).world.obj;
      obj.Some? ==>
        && obj.value.spec == w.obj.value.spec && obj.value.meta == w.obj.value.meta
        && obj.value.uid == w.obj.value.uid && obj.value.deleting == w.obj.value.deleting
  {
  }

  // A reconcile that found its class crashes if its provider does. Else it asks
  // to be run again at once if the provider failed, in a minute if it succeeded
  // and is not ready, and not at all if it is ready or the certificate could not
  // be loaded.
  lemma ReconcileRequeue(ps: seq<CDNProvider>, w: World, i: Inputs)
    requires w.obj.Some? && !w.obj.value.deleting && i.lookup.ClassFound?
    ensures var p, o := Pass(ps, w, i), w.obj.value;
      var req := Request(i.lookup.classSpec, o.uid, o.spec, o.status.externalId, CertificateOf(o, i));
      var out := FirstWanting(ps, w.account.(calls := []), i.answers, req, o.status.(ready := true));
      && (p.result == Crashed <==> !(o.spec.tls.Some? && i.cert.None?) && out.outcome.Panicked?)
      && (p.result.Returned? ==>
            var reset := o.spec.tls.Some? && i.cert.None?;
            && !p.result.error
            && (p.result.requeue <==> !reset && out.outcome.Failed?)
            && p.result.after == if !reset && !out.outcome.Failed? && !out.status.ready then 1 else 0)
  {
  }

  // The same for a deletion: at once if any provider failed, in a minute if none
  // did and something is left.
  lemma DeleteRequeue(ps: seq<CDNProvider>, w: World, i: Inputs)
    requires w.obj.Some? && w.obj.value.deleting && w.obj.value.finalizer && i.lookup.ClassFound?
    ensures var out := Pass(ps, w, i);
      var o := w.obj.value;
      var d := AllWanting(ps, i.answers, Request(i.lookup.classSpec, o.uid, o.spec, o.status.externalId, None),
                          Deletion(w.account.(calls := []), o.status.(ready := false), false, false));
      && (out.result == Crashed <==> d.panicked)
      && (out.result.Returned? ==>
            && !out.result.error
            && (out.result.requeue <==> d.failed)
            && out.result.after ==
               if !d.failed && AnyWants(ps, i.lookup.classSpec) && !IdsEmpty(d.status) then 1 else 0)
  {
  }

  // Only a class that cannot be looked up makes a pass return an error; one that
  // does not exist, or an object that is gone, does not.
  lemma ErrorIff(ps: seq<CDNProvider>, w: World, i: Inputs)
    ensures var result := Pass(ps, w, i).result;
      result.Returned? && result.error <==> w.obj.Some? && i.lookup.LookupFailed?
  {
  }

  // With no object, no class, or an object that waits for nothing but its
  // removal, a pass does nothing and asks for nothing.
  lemma NothingToDo(ps: seq<CDNProvider>, w: World, i: Inputs)
    requires w.obj.None? || !i.lookup.ClassFound? || (w.obj.value.deleting && !w.obj.value.finalizer)
    ensures var p := Pass(ps, w, i);
      && p.world == w.(account := w.account.(calls := []))
      && p.result.Returned? && !p.result.requeue && p.result.after == 0
  {
  }

  // What the providers did to the account stands, even if one crashed; a crash
  // leaves the stored object as it is, but for the finalizer.
  lemma ProviderEffectsStand(ps: seq<CDNProvider>, w: World, i: Inputs)
    requires w.obj.Some? && i.lookup.ClassFound?
    ensures var p, o, acc := Pass(ps, w, i), w.obj.value, w.account.(calls := []);
      var req := Request(i.lookup.classSpec, o.uid, o.spec, o.status.externalId,
                         if o.deleting then None else CertificateOf(o, i));
      && p.world.account ==
         (if o.deleting then
            if o.finalizer then
              AllWanting(ps, i.answers, req, Deletion(acc, o.status.(ready := false), false, false)).account
            else acc
          else if o.spec.tls.Some? && i.cert.None? then acc
          else FirstWanting(ps, acc, i.answers, req, o.status.(ready := true)).account)
      && (p.result == Crashed ==>
            && p.world.obj.Some?
            && p.world.obj.value == o.(finalizer := p.world.obj.value.finalizer, version := p.world.obj.value.version)
            && (p.world.obj.value.finalizer <==> o.finalizer || OpAddFinalizer !in i.answers.failing))
  {
  }
}

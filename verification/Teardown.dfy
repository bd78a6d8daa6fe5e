// Teardown: the order of requests, the two-step release of the finalizer, and
// termination.
module Teardown {
  import opened Types
  import opened DistributionConfig
  import opened Aws
  import opened CloudFront
  import opened Controller
  import opened Runs
  import opened Confinement

  // ----- the order of requests -----

  // What a request of a deletion may be, given the account before and after
  // the provider ran.
  ghost predicate Orderly(call: Call, acc: Account, acc': Account, recorded: string, arn: string) {
    match call
    case GetDistribution(id) => id == recorded
    case UpdateDistribution(id, config, etag) =>
      && id == recorded && id in acc.cf && etag == acc.cf[id].etag && acc.cf[id].config.enabled
      && Same(config, acc.cf[id].config.(enabled := false))
    case DeleteDistribution(id, etag) =>
      && id == recorded && id in acc.cf && etag == acc.cf[id].etag
      && !acc.cf[id].config.enabled && acc.cf[id].deployed
    case DeleteCertificate(x) => x == arn && recorded !in acc'.cf
    case _ => false
  }

  lemma DescribedDisabled(id: string, live: Live, order: seq<string>)
    ensures Same(Describes(id, live, order).config.(enabled := false), live.config.(enabled := false))
  {
    var d := Describes(id, live, order).config;
    assert d.(enabled := false).(aliases := None) == live.config.(enabled := false).(aliases := None);
  }

  lemma DeleteDistributionOrder(acc: Account, a: Answers, req: Request, st: DistributionStatus)
    requires req.recordedId != "" && st.externalId == req.recordedId
    ensures var out := DeleteDistributionOf(acc, a, req, st);
      && |acc.calls| <= |out.account.calls| && out.account.calls[..|acc.calls|] == acc.calls
      && (forall k :: |acc.calls| <= k < |out.account.calls| ==>
            && Orderly(out.account.calls[k], acc, out.account, req.recordedId, st.externalCertificateId)
            && !out.account.calls[k].DeleteCertificate?)
      && (out.outcome.Done? && out.status.externalId == "" ==> req.recordedId !in out.account.cf)
      && out.status.externalCertificateId == st.externalCertificateId
  {
    if req.recordedId in acc.cf { DescribedDisabled(req.recordedId, acc.cf[req.recordedId], a.aliasOrder); }
  }

  lemma DeleteOrder(acc: Account, a: Answers, req: Request, st: DistributionStatus)
    requires acc.calls == [] && st.externalId == req.recordedId && "" !in acc.cf
    ensures var out := CloudFront.Delete(acc, a, req, st);
      forall call :: call in out.account.calls ==>
        Orderly(call, acc, out.account, req.recordedId, st.externalCertificateId)
  {
    var out := CloudFront.Delete(acc, a, req, st);
    var d := if st.externalId != "" then DeleteDistributionOf(acc, a, req, st) else Out(acc, st, Done);
    if st.externalId != "" { DeleteDistributionOrder(acc, a, req, st); }
    assert out.account.cf == d.account.cf;
    forall call | call in out.account.calls
      ensures Orderly(call, acc, out.account, req.recordedId, st.externalCertificateId)
    {
      assert call in d.account.calls || call == DeleteCertificate(st.externalCertificateId);
    }
  }

  // The recorded distribution is gone, or goes in this pass.
  predicate DistributionGoes(acc: Account, a: Answers, id: string) {
    id != "" ==>
      && OpGet !in a.failing
      && (id in acc.cf ==> !acc.cf[id].config.enabled && acc.cf[id].deployed && OpDelete !in a.failing)
  }

  // The requests of a deletion, in order: a look at the recorded distribution;
  // unless it is in progress or out of reach, its disabling or its deletion; and
  // the deletion of the certificate as soon as the distribution is gone.
  function DeletionCalls(acc: Account, a: Answers, id: string, arn: string): seq<Call> {
    (if id == "" then []
     else
       [GetDistribution(id)] +
       (if OpGet in a.failing || id !in acc.cf then []
        else
          var live := acc.cf[id];
          if live.config.enabled then
            [UpdateDistribution(id, Describes(id, live, a.aliasOrder).config.(enabled := false), live.etag)]
          else if live.deployed then [DeleteDistribution(id, live.etag)]
          else [])) +
    (if DistributionGoes(acc, a, id) then [DeleteCertificate(arn)] else [])
  }

  lemma DistributionDeletionCalls(acc: Account, a: Answers, req: Request, st: DistributionStatus)
    requires acc.calls == [] && st.externalId == req.recordedId && st.externalId != ""
    ensures var out, id := DeleteDistributionOf(acc, a, req, st), st.externalId;
      && DeletionCalls(acc, a, id, st.externalCertificateId) ==
         out.account.calls +
         (if DistributionGoes(acc, a, id) then [DeleteCertificate(st.externalCertificateId)] else [])
      && (out.outcome.Done? && out.status.externalId == "" <==> DistributionGoes(acc, a, id))
      && out.status.externalCertificateId == st.externalCertificateId
  {
    assert DEPLOYED[0] == 'D' && IN_PROGRESS[0] == 'I';
  }

  lemma ProviderDeletionCalls(acc: Account, a: Answers, req: Request, st: DistributionStatus)
    requires acc.calls == [] && st.externalId == req.recordedId
    ensures CloudFront.Delete(acc, a, req, st).account.calls ==
            DeletionCalls(acc, a, st.externalId, st.externalCertificateId)
  {
    if st.externalId != "" { DistributionDeletionCalls(acc, a, req, st); }
  }

  // A deletion pass sends exactly these.
  lemma DeletionPassCalls(w: World, i: Inputs)
    requires w.obj.Some? && w.obj.value.deleting && w.obj.value.finalizer && i.lookup.ClassFound?
    ensures var o := w.obj.value;
      Pass(PROVIDERS, w, i).world.account.calls ==
      if i.lookup.classSpec.cloudFront.None? then []
      else DeletionCalls(w.account, i.answers, o.status.externalId, o.status.externalCertificateId)
  {
    var o, w0 := w.obj.value, w.(account := w.account.(calls := []));
    var req, st := RequestOf(o, i.lookup.classSpec, i), o.status.(ready := false);
    DeleteDoesNotPanic(w0.account, i.answers, req, st);
    DeletePassShape(w0, i.lookup.classSpec, i);
    ProviderDeletionCalls(w0.account, i.answers, req, st);
    assert DeletionCalls(w0.account, i.answers, st.externalId, st.externalCertificateId) ==
           DeletionCalls(w.account, i.answers, st.externalId, st.externalCertificateId);
  }

  lemma CertificateStage(acc: Account, a: Answers, st: DistributionStatus)
    ensures var out := DeleteCertificateOf(acc, a, st);
      && out.account.cf == acc.cf
      && (out.status == st || out.status == st.(externalCertificateId := ""))
      && (a.failing == {} ==> out.status.externalCertificateId == "")
  {
  }

  lemma NoDistributionEnabled(acc: Account, a: Answers, req: Request, st: DistributionStatus)
    ensures var cf := DeleteDistributionOf(acc, a, req, st).account.cf;
      forall id :: id in cf && cf[id].config.enabled ==> id in acc.cf && acc.cf[id].config.enabled
  {
  }

  lemma NothingEnabled(acc: Account, a: Answers, req: Request, st: DistributionStatus)
    ensures var cf := CloudFront.Delete(acc, a, req, st).account.cf;
      forall id :: id in cf && cf[id].config.enabled ==> id in acc.cf && acc.cf[id].config.enabled
  {
    NoDistributionEnabled(acc, a, req, st);
    var d := if st.externalId != "" then DeleteDistributionOf(acc, a, req, st) else Out(acc, st, Done);
    CertificateStage(d.account, a, d.status);
    assert CloudFront.Delete(acc, a, req, st).account.cf == d.account.cf;
  }

  // A deletion pass deletes a distribution only when it is live, disabled and
  // deployed, with its current etag; disables one by changing nothing but
  // Enabled; and deletes the certificate only when the recorded distribution is
  // no longer live. It creates and imports nothing, and enables nothing.
  lemma DeletionPassOrder(w: World, i: Inputs)
    requires w.obj.Some? && w.obj.value.deleting && "" !in w.account.cf
    ensures var w', st := Pass(PROVIDERS, w, i).world, w.obj.value.status;
      && (forall call :: call in w'.account.calls ==>
            Orderly(call, w.account, w'.account, st.externalId, st.externalCertificateId))
      && (forall id :: id in w'.account.cf && w'.account.cf[id].config.enabled ==>
            id in w.account.cf && w.account.cf[id].config.enabled)
  {
    var o, acc := w.obj.value, w.account.(calls := []);
    if i.lookup.ClassFound? && o.finalizer {
      var req := Request(i.lookup.classSpec, o.uid, o.spec, o.status.externalId, None);
      var st := o.status.(ready := false);
      OneProvider(acc, i.answers, req, st);
      DeleteOrder(acc, i.answers, req, st);
      NothingEnabled(acc, i.answers, req, st);
    }
  }

  // ----- how far a teardown is -----

  function StageOf(cf: Distributions, st: DistributionStatus): nat {
    var id := st.externalId;
    if id != "" then
      if id !in cf then 4
      else if cf[id].config.enabled then 7
      else if cf[id].deployed then 5
      else 6
    else if st.externalCertificateId != "" then 3
    else if st.ready then 2
    else 1
  }

  predicate TearingDown(w: World) {
    "" !in w.account.cf && (w.obj.Some? ==> w.obj.value.deleting && w.obj.value.finalizer)
  }

  // Enabled, in progress, deployed, distribution gone, certificate gone, status
  // settled, object gone.
  function Stage(w: World): nat {
    if w.obj.None? then 0 else StageOf(w.account.cf, w.obj.value.status)
  }

  // The recorded distribution is disabled and AWS has not finished with it.
  predicate WaitingOnAws(w: World) {
    && w.obj.Some? && w.obj.value.status.externalId in w.account.cf
    && var live := w.account.cf[w.obj.value.status.externalId]; !live.config.enabled && !live.deployed
  }

  lemma DistributionStage(acc: Account, a: Answers, req: Request, st: DistributionStatus)
    requires st.externalId == req.recordedId && st.externalId != "" && "" !in acc.cf
    ensures var out, id := DeleteDistributionOf(acc, a, req, st), st.externalId;
      && out.account.acm == acc.acm && out.status.externalCertificateId == st.externalCertificateId
      && "" !in out.account.cf && (id in out.account.cf ==> id in acc.cf)
      && (out.status.externalId == id || (out.status.externalId == "" && out.outcome.Done? && id !in out.account.cf))
      && StageOf(out.account.cf, st) <= StageOf(acc.cf, st)
      && (a.failing == {} ==> out.outcome.Done?)
      && (a.failing == {} && id in acc.cf && acc.cf[id].config.enabled ==>
            out.status.externalId == id && id in out.account.cf && !out.account.cf[id].config.enabled)
      && (a.failing == {} && id in acc.cf && !acc.cf[id].config.enabled && acc.cf[id].deployed ==>
            out.status.externalId == "")
      && (id !in acc.cf && OpGet !in a.failing ==> out.status.externalId == "" && out.status.ready == st.ready)
  {
  }

  // One provider call: the stage of what it leaves, with the status it started
  // from or the one it made.
  lemma ProviderStage(acc: Account, a: Answers, req: Request, st: DistributionStatus)
    requires st.externalId == req.recordedId && !st.ready && "" !in acc.cf
    ensures var out := CloudFront.Delete(acc, a, req, st);
      && "" !in out.account.cf && !out.outcome.Panicked?
      && StageOf(out.account.cf, st) <= StageOf(acc.cf, st)
      && StageOf(out.account.cf, out.status) <= StageOf(acc.cf, st)
      && (IdsEmpty(st) ==> out.status == st)
      && (a.failing == {} && !IdsEmpty(st) && StageOf(acc.cf, st) != 6 ==>
            StageOf(out.account.cf, out.status) < StageOf(acc.cf, st))
  {
    var d := if st.externalId != "" then DeleteDistributionOf(acc, a, req, st) else Out(acc, st, Done);
    if st.externalId != "" { DistributionStage(acc, a, req, st); }
    CertificateStage(d.account, a, d.status);
  }

  // ----- release of the finalizer -----

  // A deletion leaves a status with no ids and nothing else changed only if it
  // found it so.
  lemma SettledIff(acc: Account, a: Answers, req: Request, st: DistributionStatus)
    requires st.externalId == req.recordedId
    ensures var out := CloudFront.Delete(acc, a, req, st.(ready := false));
      && !out.outcome.Panicked?
      && (out.status == st && IdsEmpty(out.status) <==> IdsEmpty(st) && !st.ready)
      && (IdsEmpty(st) ==> out.account.cf == acc.cf && out.account.acm == acc.acm)
  {
  }

  // A removal takes effect exactly in a pass that finds the status settled:
  // ids empty (unless no provider wants the class) and not ready. Any other
  // pass writes the status first, and its removal is refused as stale.
  lemma ReleaseIff(w: World, i: Inputs)
    requires w.obj.Some? && w.obj.value.deleting && w.obj.value.finalizer && i.lookup.ClassFound?
    requires OpWriteStatus !in i.answers.failing
    ensures var w', st := Pass(PROVIDERS, w, i).world, w.obj.value.status;
      && (w'.obj.None? <==>
            && (i.lookup.classSpec.cloudFront.Some? ==> IdsEmpty(st))
            && !st.ready && OpRemoveFinalizer !in i.answers.failing)
      && (w'.obj.None? ==> w'.account.cf == w.account.cf && w'.account.acm == w.account.acm)
  {
    var o, acc := w.obj.value, w.account.(calls := []);
    var req := Request(i.lookup.classSpec, o.uid, o.spec, o.status.externalId, None);
    OneProvider(acc, i.answers, req, o.status.(ready := false));
    SettledIff(acc, i.answers, req, o.status);
  }

  // ----- termination -----

  lemma DeletePassStage(w: World, classSpec: DistributionClassSpec, i: Inputs)
    requires TearingDown(w) && w.obj.Some?
    ensures var w' := DeletePass(PROVIDERS, w, classSpec, i).world;
      && TearingDown(w') && Stage(w') <= Stage(w)
      && (classSpec.cloudFront.Some? && i.answers.failing == {} && !WaitingOnAws(w) ==> Stage(w') < Stage(w))
  {
    var o := w.obj.value;
    var st := o.status.(ready := false);
    ProviderStage(w.account, i.answers, RequestOf(o, classSpec, i), st);
    DeletePassShape(w, classSpec, i);
    assert IdsEmpty(o.status) || StageOf(w.account.cf, st) == StageOf(w.account.cf, o.status);
  }

  predicate Productive(w: World, i: Inputs) {
    && w.obj.Some? && i.lookup.ClassFound? && i.lookup.classSpec.cloudFront.Some?
    && i.answers.failing == {} && !WaitingOnAws(w)
  }

  // No pass, however it fails, sets a teardown back; a pass in which nothing
  // fails and which has nothing to wait for moves it on.
  lemma PassStage(w: World, i: Inputs)
    requires TearingDown(w)
    ensures var w' := Pass(PROVIDERS, w, i).world;
      && TearingDown(w') && Stage(w') <= Stage(w)
      && (Productive(w, i) ==> Stage(w') < Stage(w))
  {
    if w.obj.Some? && i.lookup.ClassFound? {
      DeletePassStage(w.(account := w.account.(calls := [])), i.lookup.classSpec, i);
    }
  }

  function ProductivePasses(w: World, steps: seq<Step>): nat
    decreases steps
  {
    if steps == [] then 0
    else (if steps[0].ControllerPass? && Productive(w, steps[0].inputs) then 1 else 0) +
         ProductivePasses(Next(w, steps[0]), steps[1..])
  }

  lemma StepStage(w: World, s: Step)
    requires TearingDown(w) && !s.Tamper?
    ensures TearingDown(Next(w, s)) && Stage(Next(w, s)) <= Stage(w)
    ensures s.ControllerPass? && Productive(w, s.inputs) ==> Stage(Next(w, s)) < Stage(w)
  {
    if s.ControllerPass? { PassStage(w, s.inputs); }
  }

  // Over any run in which nobody tampers with distributions, every productive
  // pass uses up a stage; there are at most seven.
  lemma {:induction false} TeardownTerminates(w: World, steps: seq<Step>)
    requires TearingDown(w) && forall k :: 0 <= k < |steps| ==> !steps[k].Tamper?
    ensures TearingDown(Run(w, steps))
    ensures ProductivePasses(w, steps) + Stage(Run(w, steps)) <= Stage(w) <= 7
    decreases steps
  {
    if steps == [] {
    } else {
      var s, rest := steps[0], steps[1..];
      assert forall k :: 0 <= k < |rest| ==> rest[k] == steps[k + 1];
      StepStage(w, s);
      TeardownTerminates(Next(w, s), rest);
    }
  }

  // Counting rounds in which deployments finish before each pass, four are
  // enough from anywhere: disable, delete both, settle the status, release.
  function RoundsLeft(w: World): nat {
    var s := Stage(w);
    if s == 7 then 4 else if s >= 5 then 3 else if s >= 2 then 2 else s
  }

  // Without waiting, both resources go in one call, and a status without
  // distribution is settled by it.
  lemma FewRounds(acc: Account, a: Answers, req: Request, st: DistributionStatus)
    requires st.externalId == req.recordedId && !st.ready && "" !in acc.cf && a.failing == {}
    ensures var out := CloudFront.Delete(acc, a, req, st);
      && (StageOf(acc.cf, st) == 5 ==> StageOf(out.account.cf, out.status) <= 2)
      && (StageOf(acc.cf, st) <= 4 ==> StageOf(out.account.cf, out.status) == 1)
  {
    var d := if st.externalId != "" then DeleteDistributionOf(acc, a, req, st) else Out(acc, st, Done);
    if st.externalId != "" { DistributionStage(acc, a, req, st); }
    CertificateStage(d.account, a, d.status);
  }

  lemma RoundShrinks(w: World, i: Inputs)
    requires TearingDown(w) && w.obj.Some?
    requires i.lookup.ClassFound? && i.lookup.classSpec.cloudFront.Some? && i.answers.failing == {}
    ensures TearingDown(Round(w, i)) && RoundsLeft(Round(w, i)) < RoundsLeft(w)
  {
    var d := DeployAll(w);
    PassStage(d, i);
    var o, d0 := w.obj.value, d.(account := d.account.(calls := []));
    var st := o.status.(ready := false);
    ProviderStage(d0.account, i.answers, RequestOf(o, i.lookup.classSpec, i), st);
    DeletePassShape(d0, i.lookup.classSpec, i);
    FewRounds(d0.account, i.answers, RequestOf(o, i.lookup.classSpec, i), st);
  }

  lemma {:induction false} GoneWithinFourRounds(w: World, inputs: seq<Inputs>)
    requires TearingDown(w) && |inputs| >= RoundsLeft(w)
    requires forall k :: 0 <= k < |inputs| ==>
               && inputs[k].lookup.ClassFound? && inputs[k].lookup.classSpec.cloudFront.Some?
               && inputs[k].answers.failing == {}
    ensures RoundsLeft(w) <= 4 && Rounds(w, inputs).obj.None?
    decreases inputs
  {
    if inputs == [] {
    } else {
      var rest := inputs[1..];
      assert forall k :: 0 <= k < |rest| ==> rest[k] == inputs[k + 1];
      if w.obj.Some? { RoundShrinks(w, inputs[0]); } else { assert Round(w, inputs[0]).obj.None?; }
      assert TearingDown(Round(w, inputs[0])) by {
        if w.obj.None? { assert "" !in Round(w, inputs[0]).account.cf; }
      }
      GoneWithinFourRounds(Round(w, inputs[0]), rest);
    }
  }

  // Once a pass has left both ids empty, one of the next two passes releases.
  lemma ReleasedWithinTwoMore(w: World, i: Inputs, j: Inputs)
    requires TearingDown(w) && w.obj.Some? && IdsEmpty(w.obj.value.status)
    requires forall k :: k in {i, j} ==>
               && k.lookup.ClassFound? && k.lookup.classSpec.cloudFront.Some? && k.answers.failing == {}
    ensures Pass(PROVIDERS, Pass(PROVIDERS, w, i).world, j).world.obj.None?
  {
    assert i in {i, j} && j in {i, j};
    PassStage(w, i);
    var w' := Pass(PROVIDERS, w, i).world;
    PassStage(w', j);
  }

  lemma DeletedStaysReady(w: World, i: Inputs)
    requires TearingDown(w) && w.obj.Some? && Stage(w) == 5
    requires i.lookup.ClassFound? && i.lookup.classSpec.cloudFront.Some? && i.answers.failing == {}
    ensures var obj := Pass(PROVIDERS, w, i).world.obj;
      obj.Some? && IdsEmpty(obj.value.status) && obj.value.status.ready
  {
    var o, acc := w.obj.value, w.account.(calls := []);
    var req := Request(i.lookup.classSpec, o.uid, o.spec, o.status.externalId, None);
    OneProvider(acc, i.answers, req, o.status.(ready := false));
    var d := DeleteDistributionOf(acc, i.answers, req, o.status.(ready := false));
    assert d.outcome.Done? && d.status.externalId == "" && d.status.ready;
  }

  // Both are needed after the pass that deletes the distribution, because that
  // pass stores the Ready it was given for the deployed distribution.
  lemma DeletionNeedsBoth(w: World, i: Inputs, j: Inputs)
    requires TearingDown(w) && w.obj.Some? && Stage(w) == 5
    requires forall k :: k in {i, j} ==>
               && k.lookup.ClassFound? && k.lookup.classSpec.cloudFront.Some? && k.answers.failing == {}
    ensures var w1 := Pass(PROVIDERS, w, i).world;
      var w2 := Pass(PROVIDERS, w1, j).world;
      && w1.obj.Some? && IdsEmpty(w1.obj.value.status) && w1.obj.value.status.ready
      && w2.obj.Some? && IdsEmpty(w2.obj.value.status) && !w2.obj.value.status.ready
  {
    assert i in {i, j} && j in {i, j};
    DeletedStaysReady(w, i);
    var w1 := Pass(PROVIDERS, w, i).world;
    PassStage(w, i);
    PassStage(w1, j);
    ReleaseIff(w1, j);
  }
}

// Whether what is on record is the object's own, and so whether anybody else's
// resources are touched.
module Provenance {
  import opened Types
  import opened DistributionConfig
  import opened Aws
  import opened ApiServer
  import opened CloudFront
  import opened Controller
  import opened Runs
  import opened Confinement
  import opened Certificates
  import opened SteadyState
  import opened Reports
  import opened Convergence
  import DistributionId
  import Teardown

  // The certificate on record, if live, was given to this controller.
  predicate CertificateOwn(acc: Account, arn: string) {
    arn in acc.acm ==> arn in acc.minted
  }

  predicate DistributionOwn(cf: Distributions, uid: string, id: string) {
    id in cf ==> Owned(cf, uid, id)
  }

  // Everything on record that is live is the object's own.
  predicate RecordsOnlyOwn(w: World) {
    && "" !in w.account.cf && "" !in w.account.acm
    && (w.obj.Some? ==>
          && w.obj.value.uid == w.uid
          && DistributionOwn(w.account.cf, w.uid, w.obj.value.status.externalId)
          && CertificateOwn(w.account, w.obj.value.status.externalCertificateId))
  }

  // ----- provider calls -----

  // A reconcile gets as far as a creation, and that is refused.
  predicate RefusesCreation(acc: Account, a: Answers, uid: string, st: DistributionStatus, cert: Option<nat>) {
    && CertificateSucceeds(acc, a, st, cert) && Refuses(acc, a, uid)
    && (st.externalId != "" ==> st.externalId !in acc.cf && OpGet !in a.failing)
  }

  lemma CreationRecords(acc: Account, a: Answers, req: Request, st: DistributionStatus)
    requires req.classSpec.cloudFront.Some? && "" !in acc.cf && DistributionOwn(acc.cf, req.uid, st.externalId)
    ensures var out := CreateFor(acc, a, req, st);
      && "" !in out.account.cf && out.account.acm == acc.acm && out.account.minted == acc.minted
      && out.status.externalCertificateId == st.externalCertificateId
      && (DistributionOwn(out.account.cf, req.uid, out.status.externalId) <==>
            OpCreate !in a.failing && Taken(acc.cf, req.uid) ==>
              DistributionOwn(acc.cf, req.uid, DistributionId.FindId(a.message)))
  {
    var out := CreateFor(acc, a, req, st);
    if out.account.cf == acc.cf {
    } else {
      assert out.status.externalId == a.newId && Owned(out.account.cf, req.uid, a.newId);
    }
  }

  lemma SendRecords(acc: Account, a: Answers, uid: string, st: DistributionStatus, config: Config, etag: nat)
    requires "" !in acc.cf && DistributionOwn(acc.cf, uid, st.externalId)
    ensures var out := Send(acc, a, st, st.externalId, config, etag);
      && "" !in out.account.cf && out.account.acm == acc.acm && out.account.minted == acc.minted
      && out.status.externalCertificateId == st.externalCertificateId && out.status.externalId == st.externalId
      && DistributionOwn(out.account.cf, uid, out.status.externalId)
  {
  }

  lemma DistributionRecords(acc: Account, a: Answers, req: Request, st: DistributionStatus)
    requires req.classSpec.cloudFront.Some? && st.externalId == req.recordedId && "" !in acc.cf
    requires DistributionOwn(acc.cf, req.uid, st.externalId)
    ensures var out := ReconcileDistribution(acc, a, req, st);
      && "" !in out.account.cf && out.account.acm == acc.acm && out.account.minted == acc.minted
      && out.status.externalCertificateId == st.externalCertificateId
      && (DistributionOwn(out.account.cf, req.uid, out.status.externalId) <==>
            (OpCreate !in a.failing && Taken(acc.cf, req.uid)
             && (st.externalId != "" ==> st.externalId !in acc.cf && OpGet !in a.failing)) ==>
              DistributionOwn(acc.cf, req.uid, DistributionId.FindId(a.message)))
  {
    if req.recordedId == "" {
      CreationRecords(acc, a, req, st);
    } else {
      var (acc', st', loaded) := Load(acc, a, req.recordedId, st);
      if loaded.Missing? {
        CreationRecords(acc', a, req, st');
      } else if loaded.Found? {
        var config := Desired(req.uid, req.spec, req.classSpec.cloudFront.value, st'.externalCertificateId, true);
        SendRecords(acc', a, req.uid, st', config, loaded.etag);
      }
    }
  }

  lemma CertificateRecords(acc: Account, a: Answers, st: DistributionStatus, cert: Option<nat>)
    requires "" !in acc.acm && CertificateOwn(acc, st.externalCertificateId)
    ensures var k := ReconcileCertificate(acc, a, st, cert);
      && "" !in k.account.acm && CertificateOwn(k.account, k.status.externalCertificateId)
      && k.account.cf == acc.cf && k.status.externalId == st.externalId
      && (k.outcome.Done? <==> CertificateSucceeds(acc, a, st, cert))
  {
    CertificateCreates(acc, a, st, cert);
  }

  // A reconcile keeps the record clean, unless a refused creation names a
  // distribution that is somebody else's.
  lemma ReconcileRecords(acc: Account, a: Answers, req: Request, st: DistributionStatus)
    requires req.classSpec.cloudFront.Some? && st.externalId == req.recordedId
    requires "" !in acc.cf && "" !in acc.acm
    requires DistributionOwn(acc.cf, req.uid, st.externalId) && CertificateOwn(acc, st.externalCertificateId)
    ensures var out := CloudFront.Reconcile(acc, a, req, st);
      && "" !in out.account.cf && "" !in out.account.acm
      && CertificateOwn(out.account, out.status.externalCertificateId)
      && (DistributionOwn(out.account.cf, req.uid, out.status.externalId) <==>
            RefusesCreation(acc, a, req.uid, st, req.cert) ==>
              DistributionOwn(acc.cf, req.uid, DistributionId.FindId(a.message)))
  {
    CertificateRecords(acc, a, st, req.cert);
    var k := ReconcileCertificate(acc, a, st, req.cert);
    if k.outcome.Done? {
      DistributionRecords(k.account, a, req, k.status);
    }
  }

  lemma DeletionRecords(acc: Account, a: Answers, req: Request, st: DistributionStatus)
    requires st.externalId == req.recordedId && "" !in acc.cf && "" !in acc.acm
    ensures var out := CloudFront.Delete(acc, a, req, st);
      && out.status.externalId in {"", st.externalId} && "" !in out.account.cf
      && out.status.externalCertificateId in {"", st.externalCertificateId} && "" !in out.account.acm
  {
    Teardown.CertificateStage(acc, a, st);
    if st.externalId != "" {
      Teardown.DistributionStage(acc, a, req, st);
      var d := DeleteDistributionOf(acc, a, req, st);
      Teardown.CertificateStage(d.account, a, d.status);
    }
  }

  // ----- passes -----

  // A pass puts somebody else's distribution on record: its creation is
  // refused with a message in which the first run of fourteen id characters is
  // the id of that distribution, and the status is written.
  predicate Misnames(w: World, i: Inputs) {
    && w.obj.Some? && !w.obj.value.deleting
    && i.lookup.ClassFound? && i.lookup.classSpec.cloudFront.Some?
    && OpWriteStatus !in i.answers.failing
    && RefusesCreation(w.account, i.answers, w.uid, w.obj.value.status, CertificateOf(w.obj.value, i))
    && !DistributionOwn(w.account.cf, w.uid, DistributionId.FindId(i.answers.message))
  }

  // What was on record before is the object's own afterwards too.
  lemma OldRecordStaysOwn(w: World, i: Inputs)
    requires w.obj.Some? && RecordsOnlyOwn(w)
    ensures var acc', st := Pass(PROVIDERS, w, i).world.account, w.obj.value.status;
      DistributionOwn(acc'.cf, w.uid, st.externalId) && CertificateOwn(acc', st.externalCertificateId)
  {
    PassConfined(w, i);
  }

  lemma ReconciledRecords(w: World, o: Object, classSpec: DistributionClassSpec, i: Inputs)
    requires w.obj == Some(o) && !o.deleting && RecordsOnlyOwn(w) && classSpec.cloudFront.Some?
    ensures var out := Reconciled(w, o, classSpec, i);
      && "" !in out.account.cf && "" !in out.account.acm
      && CertificateOwn(out.account, out.status.externalCertificateId)
      && (DistributionOwn(out.account.cf, w.uid, out.status.externalId) <==>
            RefusesCreation(w.account, i.answers, w.uid, o.status, CertificateOf(o, i)) ==>
              DistributionOwn(w.account.cf, w.uid, DistributionId.FindId(i.answers.message)))
  {
    ReconcileRecords(w.account, i.answers, RequestOf(o, classSpec, i), o.status.(ready := true));
  }

  lemma MisnamesMeans(w: World, o: Object, classSpec: DistributionClassSpec, i: Inputs)
    requires w.obj == Some(o) && !o.deleting && RecordsOnlyOwn(w) && i.lookup == ClassFound(classSpec)
    requires o.spec.tls.Some? ==> i.cert.Some?
    ensures var out := Reconciled(w, o, classSpec, i);
      Misnames(w, i) <==>
      classSpec.cloudFront.Some? && OpWriteStatus !in i.answers.failing
      && !DistributionOwn(out.account.cf, w.uid, out.status.externalId)
  {
    if classSpec.cloudFront.Some? { ReconciledRecords(w, o, classSpec, i); }
  }

  lemma NoCertificateNoMisnaming(w: World, i: Inputs)
    requires w.obj.Some? && CertificateOf(w.obj.value, i).None?
    ensures !Misnames(w, i)
  {
  }

  lemma PanicNeedsNoCertificate(w: World, o: Object, classSpec: DistributionClassSpec, i: Inputs)
    requires !o.deleting && Reconciled(w, o, classSpec, i).outcome.Panicked?
    ensures CertificateOf(o, i).None?
  {
    PanicIff(w.account, i.answers, RequestOf(o, classSpec, i), o.status.(ready := true));
  }

  lemma ReconcilePassRecords(w: World, classSpec: DistributionClassSpec, i: Inputs)
    requires w.obj.Some? && !w.obj.value.deleting && RecordsOnlyOwn(w) && i.lookup == ClassFound(classSpec)
    requires var acc', st := ReconcilePass(PROVIDERS, w, classSpec, i).world.account, w.obj.value.status;
      DistributionOwn(acc'.cf, w.uid, st.externalId) && CertificateOwn(acc', st.externalCertificateId)
    ensures RecordsOnlyOwn(ReconcilePass(PROVIDERS, w, classSpec, i).world) <==> !Misnames(w, i)
  {
    var o := w.obj.value;
    ReconcilePassShape(w, classSpec, i);
    if o.spec.tls.Some? && i.cert.None? {
      NoCertificateNoMisnaming(w, i);
    } else if classSpec.cloudFront.None? {
    } else {
      hide Misnames, Reconciled, ReconcilePass;
      MisnamesMeans(w, o, classSpec, i);
      ReconciledRecords(w, o, classSpec, i);
      if Reconciled(w, o, classSpec, i).outcome.Panicked? {
        PanicNeedsNoCertificate(w, o, classSpec, i);
        NoCertificateNoMisnaming(w, i);
      }
    }
  }

  lemma DeletePassRecords(w: World, classSpec: DistributionClassSpec, i: Inputs)
    requires w.obj.Some? && w.obj.value.deleting && w.obj.value.finalizer && RecordsOnlyOwn(w)
    requires var acc', st := DeletePass(PROVIDERS, w, classSpec, i).world.account, w.obj.value.status;
      DistributionOwn(acc'.cf, w.uid, st.externalId) && CertificateOwn(acc', st.externalCertificateId)
    ensures RecordsOnlyOwn(DeletePass(PROVIDERS, w, classSpec, i).world)
  {
    var o := w.obj.value;
    var req, st := RequestOf(o, classSpec, i), o.status.(ready := false);
    DeleteDoesNotPanic(w.account, i.answers, req, st);
    DeletePassShape(w, classSpec, i);
    DeletionRecords(w.account, i.answers, req, st);
  }

  // A pass keeps everything on record the object's own exactly when it does
  // not misname.
  lemma PassRecordsOnlyOwnIff(w: World, i: Inputs)
    requires RecordsOnlyOwn(w)
    ensures RecordsOnlyOwn(Pass(PROVIDERS, w, i).world) <==> !Misnames(w, i)
  {
    var w0 := w.(account := w.account.(calls := []));
    if w.obj.Some? && i.lookup.ClassFound? {
      OldRecordStaysOwn(w, i);
      if !w.obj.value.deleting {
        ReconcilePassRecords(w0, i.lookup.classSpec, i);
        assert Misnames(w0, i) <==> Misnames(w, i);
      } else if w.obj.value.finalizer {
        DeletePassRecords(w0, i.lookup.classSpec, i);
      }
    }
  }

  // The message CloudFront sends names the distribution that has the caller
  // reference; then nothing is misnamed.
  lemma HonestMessage(w: World, i: Inputs, id: string)
    requires w.obj.Some? && Owned(w.account.cf, w.uid, id) && DistributionId.Names(i.answers.message, id)
    ensures !Misnames(w, i)
  {
    DistributionId.NamedIdIsFound(i.answers.message, id);
  }

  // ----- runs -----

  lemma OtherStepRecords(w: World, s: Step)
    requires RecordsOnlyOwn(w) && !s.ControllerPass?
    ensures RecordsOnlyOwn(Next(w, s))
  {
  }

  ghost predicate AlwaysRecordsOnlyOwn(w: World, steps: seq<Step>)
    decreases steps
  {
    RecordsOnlyOwn(w) && (steps != [] ==> AlwaysRecordsOnlyOwn(Next(w, steps[0]), steps[1..]))
  }

  predicate SometimeMisnames(w: World, steps: seq<Step>)
    decreases steps
  {
    steps != [] &&
    ((steps[0].ControllerPass? && Misnames(w, steps[0].inputs)) || SometimeMisnames(Next(w, steps[0]), steps[1..]))
  }

  // Over every run: what is on record and live is always the object's own
  // exactly when no pass misnames.
  lemma {:induction false} RecordsOnlyOwnOverRuns(w: World, steps: seq<Step>)
    requires RecordsOnlyOwn(w)
    ensures AlwaysRecordsOnlyOwn(w, steps) <==> !SometimeMisnames(w, steps)
    decreases steps
  {
    if steps == [] {
    } else {
      var s, rest, w' := steps[0], steps[1..], Next(w, steps[0]);
      if s.ControllerPass? { PassRecordsOnlyOwnIff(w, s.inputs); } else { OtherStepRecords(w, s); }
      if RecordsOnlyOwn(w') { RecordsOnlyOwnOverRuns(w', rest); }
    }
  }

  // ----- other people's resources -----

  // A distribution under another caller reference, and a certificate the
  // controller was not given.
  predicate OthersDistribution(w: World, id: string) {
    id in w.account.cf && w.account.cf[id].config.callerReference != w.uid
  }

  predicate OthersCertificate(w: World, arn: string) {
    arn in w.account.acm && arn !in w.account.minted
  }

  // A pass leaves them all as they are, however it fails.
  lemma PassLeavesOthersAlone(w: World, i: Inputs)
    requires RecordsOnlyOwn(w)
    ensures var w' := Pass(PROVIDERS, w, i).world;
      && w'.uid == w.uid
      && (forall id :: OthersDistribution(w, id) ==>
            OthersDistribution(w', id) && w'.account.cf[id] == w.account.cf[id])
      && (forall arn :: OthersCertificate(w, arn) ==>
            OthersCertificate(w', arn) && w'.account.acm[arn] == w.account.acm[arn])
  {
    if w.obj.Some? { PassConfined(w, i); }
  }

  // Nobody outside loses, edits or deploys it.
  predicate LeavesDistribution(s: Step, id: string) {
    s != LoseDistribution(id) && s != FinishDeployment(id) && (s.Tamper? ==> s.id != id)
  }

  lemma StepLeavesDistribution(w: World, s: Step, id: string)
    requires RecordsOnlyOwn(w) && OthersDistribution(w, id) && LeavesDistribution(s, id)
    ensures OthersDistribution(Next(w, s), id) && Next(w, s).account.cf[id] == w.account.cf[id]
  {
    if s.ControllerPass? { PassLeavesOthersAlone(w, s.inputs); }
  }

  lemma StepLeavesCertificate(w: World, s: Step, arn: string)
    requires RecordsOnlyOwn(w) && OthersCertificate(w, arn) && s != LoseCertificate(arn)
    ensures OthersCertificate(Next(w, s), arn) && Next(w, s).account.acm[arn] == w.account.acm[arn]
  {
    if s.ControllerPass? { PassLeavesOthersAlone(w, s.inputs); }
  }

  // Over every run without a misnaming, no distribution with another caller
  // reference is ever changed, disabled or deleted by the controller.
  lemma {:induction false} OthersDistributionUntouched(w: World, steps: seq<Step>, id: string)
    requires RecordsOnlyOwn(w) && !SometimeMisnames(w, steps) && OthersDistribution(w, id)
    requires forall k :: 0 <= k < |steps| ==> LeavesDistribution(steps[k], id)
    ensures OthersDistribution(Run(w, steps), id) && Run(w, steps).account.cf[id] == w.account.cf[id]
    decreases steps
  {
    if steps == [] {
    } else {
      var s, rest := steps[0], steps[1..];
      assert forall k :: 0 <= k < |rest| ==> rest[k] == steps[k + 1];
      if s.ControllerPass? { PassRecordsOnlyOwnIff(w, s.inputs); } else { OtherStepRecords(w, s); }
      StepLeavesDistribution(w, s, id);
      OthersDistributionUntouched(Next(w, s), rest, id);
    }
  }

  // The same for certificates.
  lemma {:induction false} OthersCertificateUntouched(w: World, steps: seq<Step>, arn: string)
    requires RecordsOnlyOwn(w) && !SometimeMisnames(w, steps) && OthersCertificate(w, arn)
    requires LoseCertificate(arn) !in steps
    ensures OthersCertificate(Run(w, steps), arn) && Run(w, steps).account.acm[arn] == w.account.acm[arn]
    decreases steps
  {
    if steps == [] {
    } else {
      var s, rest := steps[0], steps[1..];
      assert LoseCertificate(arn) !in rest;
      if s.ControllerPass? { PassRecordsOnlyOwnIff(w, s.inputs); } else { OtherStepRecords(w, s); }
      StepLeavesCertificate(w, s, arn);
      OthersCertificateUntouched(Next(w, s), rest, arn);
    }
  }

  lemma {:induction false} RunRecordsOnlyOwn(w: World, steps: seq<Step>)
    requires RecordsOnlyOwn(w) && !SometimeMisnames(w, steps)
    ensures RecordsOnlyOwn(Run(w, steps)) && Run(w, steps).uid == w.uid
    decreases steps
  {
    if steps == [] {
    } else {
      var s := steps[0];
      if s.ControllerPass? {
        PassRecordsOnlyOwnIff(w, s.inputs);
        PassLeavesOthersAlone(w, s.inputs);
      } else {
        OtherStepRecords(w, s);
      }
      RunRecordsOnlyOwn(Next(w, s), steps[1..]);
    }
  }

  // So after any such run three healthy rounds end with Ready exactly when
  // there is a host.
  lemma ReadyAfterAnyRun(w: World, steps: seq<Step>, ws: seq<World>, inputs: seq<Inputs>,
                         c: CloudFrontSpec, serial: nat)
    requires RecordsOnlyOwn(w) && !SometimeMisnames(w, steps)
    requires HealthyRun(ws, inputs, c, serial) && |inputs| >= 3 && ws[0] == Run(w, steps)
    requires var obj := ws[0].obj; obj.Some? && !obj.value.deleting && obj.value.spec.tls.Some?
    ensures var end := ws[|inputs|];
      && end.obj.Some?
      && (end.obj.value.status.ready <==> ws[0].obj.value.spec.hosts != [])
      && (end.obj.value.status.ready ==> Steady(end, c, serial))
  {
    RunRecordsOnlyOwn(w, steps);
    ReadyWithinThreeRoundsIff(ws, inputs, c, serial);
  }

  // ----- misnaming does harm -----

  // A deletion in which nothing fails does not look at the caller reference:
  // it disables what is on record, and deletes it once that is deployed.
  lemma DeletionDisables(w: World, i: Inputs)
    requires w.obj.Some? && w.obj.value.deleting && w.obj.value.finalizer && "" !in w.account.cf
    requires i.lookup.ClassFound? && i.lookup.classSpec.cloudFront.Some? && i.answers.failing == {}
    requires w.obj.value.status.externalId in w.account.cf
    ensures var w', id := Pass(PROVIDERS, w, i).world, w.obj.value.status.externalId;
      if w.account.cf[id].config.enabled then
        && w'.obj.Some? && w'.obj.value.deleting && w'.obj.value.finalizer && w'.obj.value.status.externalId == id
        && "" !in w'.account.cf && id in w'.account.cf && !w'.account.cf[id].config.enabled
      else
        w.account.cf[id].deployed ==> id !in w'.account.cf
  {
    var o, w0, classSpec := w.obj.value, w.(account := w.account.(calls := [])), i.lookup.classSpec;
    var req, st := RequestOf(o, classSpec, i), o.status.(ready := false);
    DeleteDoesNotPanic(w0.account, i.answers, req, st);
    DeletePassShape(w0, classSpec, i);
    Teardown.DistributionStage(w0.account, i.answers, req, st);
    var d := DeleteDistributionOf(w0.account, i.answers, req, st);
    Teardown.CertificateStage(d.account, i.answers, d.status);
  }

  lemma RefusalRecords(acc: Account, a: Answers, req: Request, st: DistributionStatus)
    requires req.classSpec.cloudFront.Some? && st.externalId == req.recordedId && "" !in acc.acm
    requires RefusesCreation(acc, a, req.uid, st, req.cert)
    ensures var out := CloudFront.Reconcile(acc, a, req, st);
      && out.outcome.Failed? && out.account.cf == acc.cf
      && out.status.externalId == DistributionId.FindId(a.message)
  {
    CertificateCreates(acc, a, st, req.cert);
    var k := ReconcileCertificate(acc, a, st, req.cert);
    assert Taken(k.account.cf, req.uid);
  }

  lemma MisnamedIsRecorded(w: World, i: Inputs)
    requires RecordsOnlyOwn(w) && Misnames(w, i)
    ensures var w' := Pass(PROVIDERS, w, i).world;
      && w'.account.cf == w.account.cf && w'.uid == w.uid && w'.obj.Some?
      && !w'.obj.value.deleting && (w.obj.value.finalizer ==> w'.obj.value.finalizer)
      && w'.obj.value.status.externalId == DistributionId.FindId(i.answers.message)
  {
    hide ReconcilePass, CloudFront.Reconcile;
    var o, w0, classSpec := w.obj.value, w.(account := w.account.(calls := [])), i.lookup.classSpec;
    var req, st := RequestOf(o, classSpec, i), o.status.(ready := true);
    assert req.cert == CertificateOf(o, i) && req.cert.Some?;
    assert Taken(w0.account.cf, req.uid);
    RefusalRecords(w0.account, i.answers, req, st);
    ReconcilePassShape(w0, classSpec, i);
  }

  lemma RunOfFive(w: World, a: Step, b: Step, c: Step, d: Step, e: Step)
    ensures Run(w, [a, b, c, d, e]) == Next(Next(Next(Next(Next(w, a), b), c), d), e)
  {
    assert [a, b, c, d, e][1..] == [b, c, d, e] && [b, c, d, e][1..] == [c, d, e];
    assert [c, d, e][1..] == [d, e] && [d, e][1..] == [e] && [e][1..] == [];
    var w1, w2 := Next(w, a), Next(Next(w, a), b);
    var w3 := Next(w2, c);
    var w4 := Next(w3, d);
    assert Run(w4, [e]) == Next(w4, e);
    assert Run(w3, [d, e]) == Run(w4, [e]);
    assert Run(w2, [c, d, e]) == Run(w3, [d, e]);
  }

  // A misnaming, a deletion request and two passes delete a distribution that
  // belongs to somebody else.
  lemma MisnamedIsDeleted(w: World, i: Inputs, j: Inputs)
    requires RecordsOnlyOwn(w) && Misnames(w, i) && w.obj.value.finalizer
    requires w.account.cf[DistributionId.FindId(i.answers.message)].config.enabled
    requires j.lookup.ClassFound? && j.lookup.classSpec.cloudFront.Some? && j.answers.failing == {}
    ensures var id := DistributionId.FindId(i.answers.message);
      var end := Run(w, [ControllerPass(i), AskDeletion, ControllerPass(j), FinishDeployment(id), ControllerPass(j)]);
      OthersDistribution(w, id) && id !in end.account.cf
  {
    hide Pass, RefusesCreation;
    var id := DistributionId.FindId(i.answers.message);
    MisnamedIsRecorded(w, i);
    var w1 := Next(w, ControllerPass(i));
    var w2 := Next(w1, AskDeletion);
    DeletionDisables(w2, j);
    var w3 := Next(w2, ControllerPass(j));
    var w4 := Next(w3, FinishDeployment(id));
    DeletionDisables(w4, j);
    RunOfFive(w, ControllerPass(i), AskDeletion, ControllerPass(j), FinishDeployment(id), ControllerPass(j));
  }

  // It happens: an id that is not the object's own comes first in the message.
  lemma MisnamingHappens(w: World, i: Inputs, own: Live, theirs: Live, id: string, text: string)
    requires own.config.callerReference == "uid" && theirs.config.callerReference != "uid"
    requires DistributionId.IsId(id) && id != "E1"
    requires w.uid == "uid" && w.obj.Some? && w.obj.value.uid == "uid" && !w.obj.value.deleting
    requires w.obj.value.spec.tls.Some? && w.obj.value.status == EMPTY_STATUS
    requires w.account == Account(map["E1" := own, id := theirs], map[], {}, [])
    requires i.lookup.ClassFound? && i.lookup.classSpec.cloudFront.Some? && i.cert.Some?
    requires i.answers.failing == {} && i.answers.newArn != "" && i.answers.message == id + text
    ensures RecordsOnlyOwn(w) && Misnames(w, i)
  {
    assert w.account.cf["E1"].config.callerReference == "uid";
    assert i.answers.message[..DistributionId.ID_LENGTH] == id;
    DistributionId.FindIdAt(i.answers.message, 0);
  }
}

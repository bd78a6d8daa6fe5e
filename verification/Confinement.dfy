// A pass touches no cloud resource but the recorded ones and those it creates.
module Confinement {
  import opened Types
  import opened DistributionConfig
  import opened Aws
  import opened CloudFront
  import opened Controller
  import opened Runs

  type Distributions = map<string, Live>

  predicate Owned(cf: Distributions, uid: string, id: string) {
    id in cf && cf[id].config.callerReference == uid
  }

  predicate Minted(acc: Account, arn: string) {
    arn in acc.minted && arn in acc.acm
  }

  // All distributions but the recorded one are as they were, every new one
  // belongs to `uid`, and none changes hands.
  ghost predicate DistributionsConfined(cf: Distributions, cf': Distributions, uid: string, recorded: string) {
    && (forall id :: id in cf && id != recorded ==> id in cf' && cf'[id] == cf[id])
    && (forall id :: id in cf' && id !in cf ==> Owned(cf', uid, id))
    && (forall id :: id in cf' && id in cf ==> cf'[id].config.callerReference == cf[id].config.callerReference)
  }

  // All certificates but the recorded one are as they were, and every new one
  // is accounted for.
  ghost predicate CertificatesConfined(acc: Account, acc': Account, recorded: string) {
    && (forall arn :: arn in acc.acm && arn != recorded ==> arn in acc'.acm && acc'.acm[arn] == acc.acm[arn])
    && (forall arn :: arn in acc'.acm && arn !in acc.acm ==> arn in acc'.minted)
    && acc.minted <= acc'.minted
    && (forall arn :: arn in acc'.minted && arn !in acc.minted ==> arn in acc'.acm && arn !in acc.acm)
  }

  // What a status records afterwards was recorded before, is nothing, or is
  // new to the account.
  ghost predicate RecordsConfined(acc: Account, st: DistributionStatus, st': DistributionStatus) {
    var arn := st'.externalCertificateId;
    arn == st.externalCertificateId || arn == "" || arn !in acc.acm
  }

  ghost predicate Confined(acc: Account, uid: string, st: DistributionStatus, out: Out) {
    && DistributionsConfined(acc.cf, out.account.cf, uid, st.externalId)
    && CertificatesConfined(acc, out.account, st.externalCertificateId)
    && RecordsConfined(acc, st, out.status)
  }

  lemma ImportConfined(acc: Account, a: Answers, st: DistributionStatus, cert: Option<nat>, recorded: string)
    requires st.externalCertificateId in {"", recorded}
    ensures var out := ImportFor(acc, a, st, cert);
      && CertificatesConfined(acc, out.account, recorded)
      && RecordsConfined(acc, st, out.status)
      && out.account.cf == acc.cf && out.status.externalId == st.externalId
  {
  }

  lemma CertificateConfined(acc: Account, a: Answers, st: DistributionStatus, cert: Option<nat>)
    ensures var out := ReconcileCertificate(acc, a, st, cert);
      && CertificatesConfined(acc, out.account, st.externalCertificateId)
      && RecordsConfined(acc, st, out.status)
      && out.account.cf == acc.cf && out.status.externalId == st.externalId
  {
    var arn := st.externalCertificateId;
    if arn == "" {
      ImportConfined(acc, a, st, cert, arn);
    } else {
      var (acc', r) := DoDescribe(acc, a, arn);
      ImportConfined(acc', a, st, cert, arn);
      ImportConfined(acc', a, st.(externalCertificateId := ""), cert, arn);
    }
  }

  lemma AddingConfined(cf: Distributions, id: string, live: Live, recorded: string)
    requires id !in cf
    ensures DistributionsConfined(cf, cf[id := live], live.config.callerReference, recorded)
  {
  }

  lemma CreateConfined(acc: Account, a: Answers, req: Request, st: DistributionStatus, recorded: string)
    requires req.classSpec.cloudFront.Some?
    ensures var out := CreateFor(acc, a, req, st);
      && DistributionsConfined(acc.cf, out.account.cf, req.uid, recorded)
      && out.account.acm == acc.acm && out.account.minted == acc.minted
      && out.status.externalCertificateId == st.externalCertificateId
  {
    var config := Desired(req.uid, req.spec, req.classSpec.cloudFront.value, st.externalCertificateId, true);
    var (acc', r) := DoCreate(acc, a, config);
    if r.Ok? { AddingConfined(acc.cf, a.newId, Live(config, false, 0, a.newDomain), recorded); }
    assert DistributionsConfined(acc.cf, acc'.cf, req.uid, recorded);
  }

  lemma SendConfined(acc: Account, a: Answers, uid: string, st: DistributionStatus, id: string,
                     config: Config, etag: nat)
    ensures var out := Send(acc, a, st, id, config, etag);
      && DistributionsConfined(acc.cf, out.account.cf, uid, id)
      && out.account.acm == acc.acm && out.account.minted == acc.minted
      && out.status.externalCertificateId == st.externalCertificateId
  {
  }

  lemma DistributionConfined(acc: Account, a: Answers, req: Request, st: DistributionStatus)
    requires req.classSpec.cloudFront.Some?
    ensures var out := ReconcileDistribution(acc, a, req, st);
      && DistributionsConfined(acc.cf, out.account.cf, req.uid, req.recordedId)
      && out.account.acm == acc.acm && out.account.minted == acc.minted
      && out.status.externalCertificateId == st.externalCertificateId
  {
    if req.recordedId == "" {
      CreateConfined(acc, a, req, st, "");
    } else {
      var (acc', st', loaded) := Load(acc, a, req.recordedId, st);
      if loaded.Missing? {
        CreateConfined(acc', a, req, st', req.recordedId);
      } else if loaded.Found? {
        var config := Desired(req.uid, req.spec, req.classSpec.cloudFront.value, st'.externalCertificateId, true);
        SendConfined(acc', a, req.uid, st', loaded.current.id, config, loaded.etag);
      }
    }
  }

  lemma DeleteDistributionConfined(acc: Account, a: Answers, req: Request, st: DistributionStatus)
    ensures var out := DeleteDistributionOf(acc, a, req, st);
      && DistributionsConfined(acc.cf, out.account.cf, req.uid, req.recordedId)
      && out.account.acm == acc.acm && out.account.minted == acc.minted
      && out.status.externalCertificateId == st.externalCertificateId
  {
    var (acc', st', loaded) := Load(acc, a, req.recordedId, st);
    if loaded.Found? {
      SendConfined(acc', a, req.uid, st', loaded.current.id, loaded.current.config.(enabled := false), loaded.etag);
    }
  }

  lemma ReconcileConfined(acc: Account, a: Answers, req: Request, st: DistributionStatus)
    requires req.classSpec.cloudFront.Some? && st.externalId == req.recordedId
    ensures Confined(acc, req.uid, st, CloudFront.Reconcile(acc, a, req, st))
  {
    CertificateConfined(acc, a, st, req.cert);
    var c := ReconcileCertificate(acc, a, st, req.cert);
    DistributionConfined(c.account, a, req, c.status);
  }

  lemma DeleteCertificateConfined(acc: Account, a: Answers, st: DistributionStatus)
    ensures var out := DeleteCertificateOf(acc, a, st);
      && CertificatesConfined(acc, out.account, st.externalCertificateId)
      && RecordsConfined(acc, st, out.status) && out.account.cf == acc.cf
  {
  }

  lemma DeleteConfined(acc: Account, a: Answers, req: Request, st: DistributionStatus)
    requires st.externalId == req.recordedId
    ensures Confined(acc, req.uid, st, CloudFront.Delete(acc, a, req, st))
  {
    if st.externalId != "" { DeleteDistributionConfined(acc, a, req, st); }
    var d := if st.externalId != "" then DeleteDistributionOf(acc, a, req, st) else Out(acc, st, Done);
    DeleteCertificateConfined(d.account, a, d.status);
  }

  lemma ReconcilePassConfined(w: World, classSpec: DistributionClassSpec, i: Inputs)
    requires w.obj.Some? && !w.obj.value.deleting
    ensures var w', st := ReconcilePass(PROVIDERS, w, classSpec, i).world, w.obj.value.status;
      && DistributionsConfined(w.account.cf, w'.account.cf, w.obj.value.uid, st.externalId)
      && CertificatesConfined(w.account, w'.account, st.externalCertificateId)
      && (w'.obj.Some? ==> RecordsConfined(w.account, st, w'.obj.value.status))
  {
    ReconcilePassShape(w, classSpec, i);
    var o := w.obj.value;
    if classSpec.cloudFront.Some? {
      ReconcileConfined(w.account, i.answers, RequestOf(o, classSpec, i), o.status.(ready := true));
    }
  }

  lemma DeleteDoesNotPanic(acc: Account, a: Answers, req: Request, st: DistributionStatus)
    ensures !CloudFront.Delete(acc, a, req, st).outcome.Panicked?
  {
  }

  lemma DeletePassConfined(w: World, classSpec: DistributionClassSpec, i: Inputs)
    requires w.obj.Some? && w.obj.value.deleting && w.obj.value.finalizer
    ensures var w', st := DeletePass(PROVIDERS, w, classSpec, i).world, w.obj.value.status;
      && DistributionsConfined(w.account.cf, w'.account.cf, w.obj.value.uid, st.externalId)
      && CertificatesConfined(w.account, w'.account, st.externalCertificateId)
      && (w'.obj.Some? ==> RecordsConfined(w.account, st, w'.obj.value.status))
  {
    var o := w.obj.value;
    var req, st := RequestOf(o, classSpec, i), o.status.(ready := false);
    DeleteDoesNotPanic(w.account, i.answers, req, st);
    DeletePassShape(w, classSpec, i);
    DeleteConfined(w.account, i.answers, req, st);
  }

  // Whatever fails during the pass and whatever the state it starts from.
  lemma PassConfined(w: World, i: Inputs)
    requires w.obj.Some?
    ensures var w', st := Pass(PROVIDERS, w, i).world, w.obj.value.status;
      && DistributionsConfined(w.account.cf, w'.account.cf, w.obj.value.uid, st.externalId)
      && CertificatesConfined(w.account, w'.account, st.externalCertificateId)
      && (w'.obj.Some? ==> RecordsConfined(w.account, st, w'.obj.value.status))
  {
    var w0 := w.(account := w.account.(calls := []));
    if i.lookup.ClassFound? {
      if !w.obj.value.deleting {
        ReconcilePassConfined(w0, i.lookup.classSpec, i);
      } else if w.obj.value.finalizer {
        DeletePassConfined(w0, i.lookup.classSpec, i);
      }
    }
  }

  // A live certificate that is off the record stays so: no later pass, user
  // action or tampering with distributions brings it back or removes it.
  ghost predicate Leaked(w: World, arn: string) {
    arn != "" && arn in w.account.acm && (w.obj.Some? ==> w.obj.value.status.externalCertificateId != arn)
  }

  lemma {:induction false} LeakedForever(w: World, steps: seq<Step>, arn: string)
    requires Leaked(w, arn) && LoseCertificate(arn) !in steps
    ensures Leaked(Run(w, steps), arn)
    decreases steps
  {
    if steps == [] {
    } else {
      if steps[0].ControllerPass? && w.obj.Some? { PassConfined(w, steps[0].inputs); }
      assert LoseCertificate(arn) !in steps[1..];
      LeakedForever(Next(w, steps[0]), steps[1..], arn);
    }
  }
}

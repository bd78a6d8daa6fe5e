// What a provider call reports in the status, and when it does not return.
module Reports {
  import opened Types
  import opened DistributionConfig
  import opened Aws
  import opened CloudFront
  import opened Controller
  import opened Runs
  import opened Confinement
  import opened Certificates
  import DistributionId
  import Teardown

  // ----- the status tells the truth -----

  // The status names a live distribution, its domain and its deployment state;
  // Ready is that state.
  predicate Reported(out: Out) {
    && out.status.externalId in out.account.cf
    && var live := out.account.cf[out.status.externalId];
       && out.status.endpoints == Some([live.domain])
       && out.status.externalStatus == StatusOf(live)
       && (out.status.ready <==> live.deployed)
  }

  lemma CreationReported(acc: Account, a: Answers, req: Request, st: DistributionStatus)
    requires req.classSpec.cloudFront.Some?
    ensures var out := CreateFor(acc, a, req, st); out.outcome.Done? ==> Reported(out)
  {
    assert DEPLOYED[0] == 'D' && IN_PROGRESS[0] == 'I';
  }

  lemma UpdateReported(acc: Account, a: Answers, st: DistributionStatus, id: string, config: Config, etag: nat)
    ensures var out := Send(acc, a, st, id, config, etag); out.outcome.Done? ==> Reported(out)
  {
    assert DEPLOYED[0] == 'D' && IN_PROGRESS[0] == 'I';
  }

  lemma DistributionReported(acc: Account, a: Answers, req: Request, st: DistributionStatus)
    requires req.classSpec.cloudFront.Some? && ReconcileDistribution(acc, a, req, st).outcome.Done?
    ensures Reported(ReconcileDistribution(acc, a, req, st))
  {
    if req.recordedId == "" {
      CreationReported(acc, a, req, st);
    } else {
      var (acc', st', loaded) := Load(acc, a, req.recordedId, st);
      assert DEPLOYED[0] == 'D' && IN_PROGRESS[0] == 'I';
      if loaded.Missing? {
        CreationReported(acc', a, req, st');
      } else if loaded.Found? {
        var config := Desired(req.uid, req.spec, req.classSpec.cloudFront.value, st'.externalCertificateId, true);
        UpdateReported(acc', a, st', loaded.current.id, config, loaded.etag);
      }
    }
  }

  // After a successful reconcile the status names a live distribution, its
  // domain and its deployment state, whatever it said before; Ready is that
  // state.
  lemma SuccessReportsTheDistribution(acc: Account, a: Answers, req: Request, st: DistributionStatus)
    requires req.classSpec.cloudFront.Some? && CloudFront.Reconcile(acc, a, req, st).outcome.Done?
    ensures Reported(CloudFront.Reconcile(acc, a, req, st))
  {
    var c := ReconcileCertificate(acc, a, st, req.cert);
    DistributionReported(c.account, a, req, c.status);
  }

  // CloudFront refuses a creation because the caller reference is taken.
  predicate Refuses(acc: Account, a: Answers, uid: string) {
    OpCreate !in a.failing && Taken(acc.cf, uid)
  }

  // A creation that fails changes no distribution. A refusal records the id it
  // names; any other failure keeps the record.
  lemma FailedCreationReports(acc: Account, a: Answers, req: Request, st: DistributionStatus)
    requires req.classSpec.cloudFront.Some? && CreateFor(acc, a, req, st).outcome.Failed?
    ensures var out := CreateFor(acc, a, req, st);
      var id := if Refuses(acc, a, req.uid) then DistributionId.FindId(a.message) else st.externalId;
      out.account.cf == acc.cf && out.status == st.(externalId := id, externalStatus := "Unknown")
  {
  }

  lemma FailedDistributionReported(acc: Account, a: Answers, req: Request, st: DistributionStatus)
    requires req.classSpec.cloudFront.Some? && st.externalId == req.recordedId
    requires ReconcileDistribution(acc, a, req, st).outcome.Failed?
    ensures var out, id := ReconcileDistribution(acc, a, req, st), st.externalId;
      var found := if Refuses(acc, a, req.uid) then DistributionId.FindId(a.message) else "";
      && out.account.cf == acc.cf
      && out.status == (if id == "" then st.(externalId := found, externalStatus := "Unknown")
                        else if OpGet in a.failing then st.(externalStatus := "Unknown")
                        else if id !in acc.cf then
                          st.(externalId := found, externalStatus := "Unknown", endpoints := Some([]))
                        else
                          var live := acc.cf[id];
                          st.(externalStatus := StatusOf(live), endpoints := Some([live.domain]),
                              ready := live.deployed))
  {
    assert DEPLOYED[0] == 'D' && IN_PROGRESS[0] == 'I';
    if st.externalId == "" {
      FailedCreationReports(acc, a, req, st);
    } else {
      var (acc', st', loaded) := Load(acc, a, req.recordedId, st);
      if loaded.Missing? {
        assert Refuses(acc', a, req.uid) <==> Refuses(acc, a, req.uid);
        FailedCreationReports(acc', a, req, st');
      }
    }
  }

  // The certificate step leaves the report alone; if it fails, it forgets a
  // certificate only if that is gone.
  lemma CertificateReportsNothing(acc: Account, a: Answers, st: DistributionStatus, cert: Option<nat>)
    ensures var k, arn := ReconcileCertificate(acc, a, st, cert), st.externalCertificateId;
      && k.account.cf == acc.cf && k.status == st.(externalCertificateId := k.status.externalCertificateId)
      && (!k.outcome.Done? ==>
            k.status.externalCertificateId == if arn !in acc.acm && OpDescribe !in a.failing then "" else arn)
  {
  }

  // What a failed reconcile reports. If the certificate failed it: what was
  // reported before. If the read failed: the same, in state Unknown. If the
  // distribution is live: what was read. If there is none and none could be
  // created: Unknown, with no endpoint left, and the id a refusal names.
  lemma FailureReports(acc: Account, a: Answers, req: Request, st: DistributionStatus)
    requires req.classSpec.cloudFront.Some? && st.externalId == req.recordedId
    requires CloudFront.Reconcile(acc, a, req, st).outcome.Failed?
    ensures var out, id, arn := CloudFront.Reconcile(acc, a, req, st), st.externalId, st.externalCertificateId;
      var found := if Refuses(acc, a, req.uid) then DistributionId.FindId(a.message) else "";
      && out.account.cf == acc.cf
      && if !CertificateSucceeds(acc, a, st, req.cert) then
           out.status == st.(externalCertificateId := if arn !in acc.acm && OpDescribe !in a.failing then "" else arn)
         else
           var st' := st.(externalCertificateId := ArnAfter(acc, a, st, req.cert));
           out.status == (if id == "" then st'.(externalId := found, externalStatus := "Unknown")
                          else if OpGet in a.failing then st'.(externalStatus := "Unknown")
                          else if id !in acc.cf then
                            st'.(externalId := found, externalStatus := "Unknown", endpoints := Some([]))
                          else
                            var live := acc.cf[id];
                            st'.(externalStatus := StatusOf(live), endpoints := Some([live.domain]),
                                 ready := live.deployed))
  {
    CertificateReportsNothing(acc, a, st, req.cert);
    CertificateCreates(acc, a, st, req.cert);
    var k := ReconcileCertificate(acc, a, st, req.cert);
    if k.outcome.Done? {
      assert Refuses(k.account, a, req.uid) <==> Refuses(acc, a, req.uid);
      FailedDistributionReported(k.account, a, req, k.status);
    }
  }

  // A read that fails for another reason than not-found costs a deletion
  // nothing but the reported state.
  lemma FailedReadStopsDeletion(acc: Account, a: Answers, req: Request, st: DistributionStatus)
    requires st.externalId == req.recordedId && st.externalId != "" && OpGet in a.failing
    ensures CloudFront.Delete(acc, a, req, st) ==
            Out(Log(acc, GetDistribution(st.externalId)), st.(externalStatus := "Unknown"), Failed)
  {
  }

  // While the distribution is there: it is disabled, waited for, or could not be
  // disabled or deleted; the report is of its state then.
  lemma DeletionReportsTheDistribution(acc: Account, a: Answers, req: Request, st: DistributionStatus)
    requires st.externalId == req.recordedId && st.externalId != "" && OpGet !in a.failing && st.externalId in acc.cf
    requires var live := acc.cf[st.externalId]; live.config.enabled || !live.deployed || OpDelete in a.failing
    ensures var out, live := CloudFront.Delete(acc, a, req, st), acc.cf[st.externalId];
      var disabled := live.config.enabled && OpUpdate !in a.failing;
      var deployed := live.deployed && !disabled;
      && out.status == st.(externalStatus := if deployed then "Deployed" else "InProgress",
                           endpoints := Some([live.domain]), ready := deployed)
      && out.outcome == (if disabled || (!live.config.enabled && !live.deployed) then Done else Failed)
  {
    assert DEPLOYED[0] == 'D' && IN_PROGRESS[0] == 'I';
  }

  // Once it is gone, or goes, it is off the record; and so is the certificate,
  // if there is one to delete and that works.
  lemma DeletionReportsItsEnd(acc: Account, a: Answers, req: Request, st: DistributionStatus)
    requires st.externalId == req.recordedId && Teardown.DistributionGoes(acc, a, st.externalId)
    ensures var out, id, arn := CloudFront.Delete(acc, a, req, st), st.externalId, st.externalCertificateId;
      var cleared := arn != "" && OpDeleteCert !in a.failing;
      && out.outcome == (if cleared then Done else Failed)
      && out.status == DistributionStatus(
           if id != "" && id in acc.cf then true else st.ready,
           if id == "" then st.endpoints else Some([]), "", if cleared then "" else arn,
           if id == "" then st.externalStatus else if id in acc.cf then "Deployed" else "Unknown")
  {
  }

  // A deletion that ends without a distribution on record reports no endpoint.
  lemma DeletionReportsNoEndpoint(acc: Account, a: Answers, req: Request, st: DistributionStatus)
    requires st.externalId == req.recordedId && st.externalId != ""
    ensures var out := CloudFront.Delete(acc, a, req, st);
      out.status.externalId == "" ==> out.status.endpoints == Some([]) && req.recordedId !in out.account.cf
  {
  }

  // A certificate that cannot be loaded empties the stored status, touches
  // nothing outside and asks for no other pass.
  lemma ResetReportsNothing(w: World, i: Inputs)
    requires w.obj.Some? && !w.obj.value.deleting && w.obj.value.spec.tls.Some?
    requires i.cert.None? && i.lookup.ClassFound?
    ensures var p := Pass(PROVIDERS, w, i);
      && p.world.account == w.account.(calls := []) && p.result == Returned(false, 0, false)
      && p.world.obj.Some?
      && p.world.obj.value.status ==
         if OpWriteStatus in i.answers.failing then w.obj.value.status else DistributionStatus(false, None, "", "", "")
  {
    ReconcilePassShape(w.(account := w.account.(calls := [])), i.lookup.classSpec, i);
  }

  // ----- a missing TLS block -----

  lemma DistributionDoesNotPanic(acc: Account, a: Answers, req: Request, st: DistributionStatus)
    requires req.classSpec.cloudFront.Some?
    ensures !ReconcileDistribution(acc, a, req, st).outcome.Panicked?
  {
  }

  lemma PanicIff(acc: Account, a: Answers, req: Request, st: DistributionStatus)
    requires req.classSpec.cloudFront.Some?
    ensures CloudFront.Reconcile(acc, a, req, st).outcome.Panicked? <==>
            req.cert.None? && !(st.externalCertificateId != "" && OpDescribe in a.failing)
  {
    var k := ReconcileCertificate(acc, a, st, req.cert);
    DistributionDoesNotPanic(k.account, a, req, k.status);
  }

  // TLS is optional in the resource, but a pass without it does not survive the
  // certificate code, unless the lookup of a recorded certificate fails before
  // the missing one is looked at. Nothing else crashes a pass.
  lemma CrashIff(w: World, i: Inputs)
    ensures Pass(PROVIDERS, w, i).result == Crashed <==>
            && w.obj.Some? && !w.obj.value.deleting && w.obj.value.spec.tls.None?
            && i.lookup.ClassFound? && i.lookup.classSpec.cloudFront.Some?
            && !(w.obj.value.status.externalCertificateId != "" && OpDescribe in i.answers.failing)
  {
    var w0 := w.(account := w.account.(calls := []));
    if w.obj.Some? && i.lookup.ClassFound? {
      var o, classSpec := w.obj.value, i.lookup.classSpec;
      if !o.deleting {
        ReconcilePassShape(w0, classSpec, i);
        if classSpec.cloudFront.Some? {
          PanicIff(w0.account, i.answers, RequestOf(o, classSpec, i), o.status.(ready := true));
        }
      } else if o.finalizer {
        DeleteDoesNotPanic(w0.account, i.answers, RequestOf(o, classSpec, i), o.status.(ready := false));
        OneProvider(w0.account, i.answers, RequestOf(o, classSpec, i), o.status.(ready := false));
      }
    }
  }
}

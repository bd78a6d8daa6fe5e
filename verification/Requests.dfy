// The requests a reconcile pass sends.
module Requests {
  import opened Types
  import opened DistributionConfig
  import opened Aws
  import opened ApiServer
  import opened CloudFront
  import opened Controller
  import opened Runs
  import opened Confinement
  import opened Certificates
  import opened SteadyState
  import opened Reports
  import Serial

  // The recorded certificate is looked up; one is imported over it if it is
  // live, else anew.
  predicate CertificateCall(call: Call, acm: map<string, nat>, arn: string) {
    || call == DescribeCertificate(arn)
    || (call.ImportCertificate? && call.into == if arn in acm then Some(arn) else None)
  }

  // A configuration is sent only after the certificate step succeeded; it is the
  // desired one, with the certificate that step leaves on record.
  predicate AsDesired(config: Config, acc: Account, a: Answers, o: Object, c: CloudFrontSpec, cert: Option<nat>) {
    && CertificateSucceeds(acc, a, o.status, cert)
    && config == Desired(o.uid, o.spec, c, ArnAfter(acc, a, o.status, cert), true)
  }

  // A reconcile reads and updates only what is recorded, sends only enabled
  // desired configurations with the current etag, and deletes nothing.
  predicate Constructive(call: Call, acc: Account, a: Answers, o: Object, c: CloudFrontSpec, cert: Option<nat>) {
    var id, arn := o.status.externalId, o.status.externalCertificateId;
    match call
    case GetDistribution(x) => x == id
    case UpdateDistribution(x, config, etag) =>
      x == id && id in acc.cf && etag == acc.cf[id].etag && AsDesired(config, acc, a, o, c, cert)
    case CreateDistribution(config) => id !in acc.cf && AsDesired(config, acc, a, o, c, cert)
    case DescribeCertificate(_) => CertificateCall(call, acc.acm, arn)
    case ImportCertificate(_, _) => CertificateCall(call, acc.acm, arn)
    case _ => false
  }

  lemma ImportRequest(acc: Account, a: Answers, st: DistributionStatus, cert: Option<nat>)
    ensures var calls := ImportFor(acc, a, st, cert).account.calls;
      calls == acc.calls
      || (cert.Some? && calls == acc.calls + [ImportCertificate(StringOrNil(st.externalCertificateId), cert.value)])
    ensures ImportFor(acc, a, st, cert).account.cf == acc.cf
    ensures ImportFor(acc, a, st, cert).status.externalId == st.externalId
  {
  }

  lemma CertificateRequests(acc: Account, a: Answers, st: DistributionStatus, cert: Option<nat>)
    requires acc.calls == [] && "" !in acc.acm
    ensures var out := ReconcileCertificate(acc, a, st, cert);
      && (forall call :: call in out.account.calls ==> CertificateCall(call, acc.acm, st.externalCertificateId))
      && out.account.cf == acc.cf && out.status.externalId == st.externalId
  {
    var arn := st.externalCertificateId;
    if arn == "" {
      ImportRequest(acc, a, st, cert);
    } else {
      var (acc', r) := DoDescribe(acc, a, arn);
      assert acc'.calls == [DescribeCertificate(arn)];
      if r == Err(NotFound) {
        ImportRequest(acc', a, st.(externalCertificateId := ""), cert);
      } else {
        ImportRequest(acc', a, st, cert);
      }
    }
  }

  // The distribution code makes at most two calls.
  lemma DistributionRequests(acc: Account, a: Answers, req: Request, st: DistributionStatus)
    requires req.classSpec.cloudFront.Some? && "" !in acc.cf
    ensures var calls, id := ReconcileDistribution(acc, a, req, st).account.calls, req.recordedId;
      var config := Desired(req.uid, req.spec, req.classSpec.cloudFront.value, st.externalCertificateId, true);
      || calls == acc.calls + [GetDistribution(id)]
      || (calls == acc.calls + [CreateDistribution(config)] && id !in acc.cf)
      || (calls == acc.calls + [GetDistribution(id), CreateDistribution(config)] && id !in acc.cf)
      || (id in acc.cf && calls == acc.calls + [GetDistribution(id), UpdateDistribution(id, config, acc.cf[id].etag)])
  {
    var id := req.recordedId;
    var config := Desired(req.uid, req.spec, req.classSpec.cloudFront.value, st.externalCertificateId, true);
    if id == "" {
      assert ReconcileDistribution(acc, a, req, st).account.calls == acc.calls + [CreateDistribution(config)];
    } else {
      var (acc', st', loaded) := Load(acc, a, id, st);
      var g := GetDistribution(id);
      assert acc'.calls == acc.calls + [g];
      if loaded.Missing? {
        assert ReconcileDistribution(acc, a, req, st).account.calls == acc'.calls + [CreateDistribution(config)];
        assert acc.calls + [g] + [CreateDistribution(config)] == acc.calls + [g, CreateDistribution(config)];
      } else if loaded.Found? {
        var u := UpdateDistribution(id, config, acc.cf[id].etag);
        assert acc.calls + [g] + [u] == acc.calls + [g, u];
      }
    }
  }

  // ----- exactly which -----

  predicate ImportsCertificate(acc: Account, a: Answers, arn: string, cert: Option<nat>) {
    && cert.Some?
    && (arn != "" ==> OpDescribe !in a.failing && (arn in acc.acm ==> acc.acm[arn] != cert.value))
  }

  // A look at the recorded certificate, and an import over it, or anew, if it is
  // gone or has another serial.
  function CertificateCalls(acc: Account, a: Answers, arn: string, cert: Option<nat>): seq<Call> {
    (if arn != "" then [DescribeCertificate(arn)] else []) +
    (if ImportsCertificate(acc, a, arn, cert) then
       [ImportCertificate(if arn != "" && arn in acc.acm then Some(arn) else None, cert.value)]
     else [])
  }

  // A look at the recorded distribution, and a creation if there is none, or an
  // update if it is not as desired.
  ghost function DistributionCalls(acc: Account, a: Answers, o: Object, c: CloudFrontSpec,
                                   id: string, arn: string): seq<Call>
  {
    var config := Desired(o.uid, o.spec, c, arn, true);
    (if id != "" then [GetDistribution(id)] else []) +
    (if id != "" && OpGet in a.failing then []
     else if id == "" || id !in acc.cf then [CreateDistribution(config)]
     else if AsItShouldBe(acc, o, c, id, arn) then []
     else [UpdateDistribution(id, config, acc.cf[id].etag)])
  }

  lemma CertificateSends(acc: Account, a: Answers, st: DistributionStatus, cert: Option<nat>)
    requires acc.calls == []
    ensures ReconcileCertificate(acc, a, st, cert).account.calls ==
            CertificateCalls(acc, a, st.externalCertificateId, cert)
  {
    if st.externalCertificateId in acc.acm && cert.Some? {
      Serial.SerialsDifferIff(cert.value, acc.acm[st.externalCertificateId]);
    }
  }

  lemma DistributionSends(acc: Account, a: Answers, req: Request, st: DistributionStatus, o: Object, c: CloudFrontSpec)
    requires req == Request(DistributionClassSpec(Some(c)), o.uid, o.spec, st.externalId, req.cert)
    ensures ReconcileDistribution(acc, a, req, st).account.calls ==
            acc.calls + DistributionCalls(acc, a, o, c, st.externalId, st.externalCertificateId)
  {
    hide Same, Normalised, Desired;
    var id := st.externalId;
    if id != "" && id in acc.cf {
      ComparisonIff(o.uid, o.spec, c, st.externalCertificateId, id, acc.cf[id], a.aliasOrder);
    }
  }

  lemma ReconcileSends(acc: Account, a: Answers, req: Request, st: DistributionStatus, o: Object, c: CloudFrontSpec)
    requires req == Request(DistributionClassSpec(Some(c)), o.uid, o.spec, st.externalId, req.cert)
    requires acc.calls == []
    ensures CloudFront.Reconcile(acc, a, req, st).account.calls ==
            CertificateCalls(acc, a, st.externalCertificateId, req.cert) +
            if CertificateSucceeds(acc, a, st, req.cert) then
              DistributionCalls(acc, a, o, c, st.externalId, ArnAfter(acc, a, st, req.cert))
            else []
  {
    hide ReconcileDistribution, ReconcileCertificate, Desired;
    CertificateSends(acc, a, st, req.cert);
    CertificateCreates(acc, a, st, req.cert);
    var k := ReconcileCertificate(acc, a, st, req.cert);
    DistributionSends(k.account, a, req, k.status, o, c);
  }

  // A reconcile pass with its certificate, if it needs one, sends exactly these.
  lemma ReconcilePassCalls(w: World, i: Inputs, c: CloudFrontSpec)
    requires w.obj.Some? && !w.obj.value.deleting && CloudFrontClass(i, c)
    ensures var o, cert := w.obj.value, CertificateOf(w.obj.value, i);
      Pass(PROVIDERS, w, i).world.account.calls ==
      if o.spec.tls.Some? && i.cert.None? then []
      else
        CertificateCalls(w.account, i.answers, o.status.externalCertificateId, cert) +
        if CertificateSucceeds(w.account, i.answers, o.status, cert) then
          DistributionCalls(w.account, i.answers, o, c, o.status.externalId,
                            ArnAfter(w.account, i.answers, o.status, cert))
        else []
  {
    hide ReconcilePass, CloudFront.Reconcile, Desired, Same;
    var o, w0 := w.obj.value, w.(account := w.account.(calls := []));
    var req, st := RequestOf(o, i.lookup.classSpec, i), o.status.(ready := true);
    ReconcileSends(w0.account, i.answers, req, st, o, c);
    ReconcilePassShape(w0, i.lookup.classSpec, i);
  }

  // ----- what they have in common -----

  lemma ProviderRequests(acc: Account, a: Answers, req: Request, o: Object, c: CloudFrontSpec)
    requires req == Request(DistributionClassSpec(Some(c)), o.uid, o.spec, o.status.externalId, req.cert)
    requires acc.calls == [] && "" !in acc.acm && "" !in acc.cf
    ensures var out := CloudFront.Reconcile(acc, a, req, o.status.(ready := true));
      && (forall call :: call in out.account.calls ==> Constructive(call, acc, a, o, c, req.cert))
      && (CertificateSucceeds(acc, a, o.status, req.cert) ==>
            out.status.externalCertificateId == ArnAfter(acc, a, o.status, req.cert))
  {
    hide ReconcileDistribution, ReconcileCertificate, Desired;
    var st := o.status.(ready := true);
    CertificateRequests(acc, a, st, req.cert);
    CertificateCreates(acc, a, st, req.cert);
    var k := ReconcileCertificate(acc, a, st, req.cert);
    if k.outcome.Done? {
      DistributionRequests(k.account, a, req, k.status);
      DistributionConfined(k.account, a, req, k.status);
    }
  }

  // The certificate in a configuration that is sent is the one the pass puts on
  // record, if it can write the status.
  lemma ReconcilePassRequests(w: World, i: Inputs, c: CloudFrontSpec)
    requires w.obj.Some? && !w.obj.value.deleting && CloudFrontClass(i, c)
    requires "" !in w.account.cf && "" !in w.account.acm
    ensures var w', o, a, cert := Pass(PROVIDERS, w, i).world, w.obj.value, i.answers, CertificateOf(w.obj.value, i);
      && (forall call :: call in w'.account.calls ==> Constructive(call, w.account, a, o, c, cert))
      && (CertificateSucceeds(w.account, a, o.status, cert) && OpWriteStatus !in a.failing ==>
            && w'.obj.Some?
            && w'.obj.value.status.externalCertificateId == ArnAfter(w.account, a, o.status, cert))
  {
    hide ReconcilePass, CloudFront.Reconcile;
    var o, w0 := w.obj.value, w.(account := w.account.(calls := []));
    var req, st, cert := RequestOf(o, i.lookup.classSpec, i), o.status.(ready := true), CertificateOf(o, i);
    ProviderRequests(w0.account, i.answers, req, o, c);
    PanicIff(w0.account, i.answers, req, st);
    ReconcilePassShape(w0, i.lookup.classSpec, i);
    forall call | call in Pass(PROVIDERS, w, i).world.account.calls
      ensures Constructive(call, w.account, i.answers, o, c, cert)
    {
      assert Constructive(call, w0.account, i.answers, o, c, cert);
    }
  }
}

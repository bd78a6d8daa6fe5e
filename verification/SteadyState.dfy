// The state Ready stands for: it is sound, and a pass over it is quiet.
module SteadyState {
  import opened Types
  import opened DistributionConfig
  import opened Aws
  import opened ApiServer
  import opened CloudFront
  import opened Controller
  import opened Runs
  import opened Confinement
  import opened Certificates

  // ----- the steady state -----

  ghost predicate ConfigGood(cf: Distributions, o: Object, c: CloudFrontSpec, id: string, arn: string) {
    id != "" && id in cf && Same(Desired(o.uid, o.spec, c, arn, true), cf[id].config)
  }

  // The recorded distribution is live, enabled, deployed and as desired; its
  // viewer certificate is the recorded one, which has the secret's serial; and
  // the status says so.
  ghost predicate Steady(w: World, c: CloudFrontSpec, serial: nat) {
    && w.obj.Some?
    && var o, st := w.obj.value, w.obj.value.status;
       && o.finalizer && !o.deleting && o.spec.hosts != [] && o.spec.tls.Some?
       && CertificateGood(w.account, st.externalCertificateId, serial)
       && ConfigGood(w.account.cf, o, c, st.externalId, st.externalCertificateId)
       && var live := w.account.cf[st.externalId];
          && live.deployed && live.config.enabled
          && live.config.viewerCertificate.acmArn == Some(st.externalCertificateId)
          && st.ready && st.externalStatus == DEPLOYED && st.endpoints == Some([live.domain])
  }

  predicate CloudFrontClass(i: Inputs, c: CloudFrontSpec) {
    i.lookup == ClassFound(DistributionClassSpec(Some(c)))
  }

  lemma DescribedConfigSame(id: string, live: Live, order: seq<string>)
    ensures var d := Describes(id, live, order);
      Same(d.config, live.config) && d.config.enabled == live.config.enabled && d.domain == live.domain
  {
  }

  // The comparison of a pass, whatever order the aliases come back in.
  lemma ComparisonIff(uid: string, spec: DistributionSpec, c: CloudFrontSpec, arn: string,
                      id: string, live: Live, order: seq<string>)
    ensures var desired := Desired(uid, spec, c, arn, true);
      desired == Normalised(Describes(id, live, order).config) <==> spec.hosts != [] && Same(desired, live.config)
  {
    var desired, loaded := Desired(uid, spec, c, arn, true), Describes(id, live, order).config;
    NeedsUpdateIff(uid, spec, c, arn, loaded);
    DescribedConfigSame(id, live, order);
    SameIsEquivalence(desired, loaded, live.config);
    SameIsEquivalence(desired, live.config, loaded);
    SameIsEquivalence(loaded, live.config, loaded);
  }

  // ----- when a reconcile ends ready -----

  // The distribution is live and deployed, and its configuration is the desired
  // one under the certificate `arn`.
  ghost predicate DeployedAsDesired(acc: Account, a: Answers, o: Object, c: CloudFrontSpec, id: string, arn: string) {
    && OpGet !in a.failing && o.spec.hosts != []
    && ConfigGood(acc.cf, o, c, id, arn) && acc.cf[id].deployed
  }

  function ReadyStatus(live: Live, id: string, arn: string): DistributionStatus {
    DistributionStatus(true, Some([live.domain]), id, arn, DEPLOYED)
  }

  lemma GoodDistributionIsQuiet(acc: Account, a: Answers, req: Request, st: DistributionStatus,
                                o: Object, c: CloudFrontSpec)
    requires req == Request(DistributionClassSpec(Some(c)), o.uid, o.spec, st.externalId, req.cert)
    requires ConfigGood(acc.cf, o, c, st.externalId, st.externalCertificateId) && o.spec.hosts != []
    requires OpGet !in a.failing
    ensures var live := acc.cf[st.externalId];
      ReconcileDistribution(acc, a, req, st) ==
      Out(Log(acc, GetDistribution(st.externalId)),
          st.(externalStatus := StatusOf(live), endpoints := Some([live.domain]), ready := StatusOf(live) == DEPLOYED),
          Done)
  {
    ComparisonIff(o.uid, o.spec, c, st.externalCertificateId, st.externalId, acc.cf[st.externalId], a.aliasOrder);
  }

  lemma DistributionReadyIff(acc: Account, a: Answers, req: Request, st: DistributionStatus,
                             o: Object, c: CloudFrontSpec)
    requires req == Request(DistributionClassSpec(Some(c)), o.uid, o.spec, st.externalId, req.cert)
    ensures var out, id, arn := ReconcileDistribution(acc, a, req, st), st.externalId, st.externalCertificateId;
      && (out.outcome.Done? && out.status.ready <==> DeployedAsDesired(acc, a, o, c, id, arn))
      && (DeployedAsDesired(acc, a, o, c, id, arn) ==>
            out.status == ReadyStatus(acc.cf[id], id, arn) && out.account.cf == acc.cf && out.account.acm == acc.acm)
  {
    hide Same, Desired, Normalised;
    var id, arn := st.externalId, st.externalCertificateId;
    if id != "" && id in acc.cf {
      ComparisonIff(o.uid, o.spec, c, arn, id, acc.cf[id], a.aliasOrder);
    }
    if DeployedAsDesired(acc, a, o, c, id, arn) { GoodDistributionIsQuiet(acc, a, req, st, o, c); }
  }

  // Seen from the state before the pass: the certificate step succeeds, and the
  // recorded distribution is as desired under the certificate it leaves.
  ghost predicate EndsReady(acc: Account, o: Object, i: Inputs, c: CloudFrontSpec) {
    var a, st, cert := i.answers, o.status, CertificateOf(o, i);
    && CertificateSucceeds(acc, a, st, cert)
    && DeployedAsDesired(acc, a, o, c, st.externalId, ArnAfter(acc, a, st, cert))
  }

  lemma EndsReadyIff(w: World, o: Object, i: Inputs, c: CloudFrontSpec)
    requires !o.deleting && CloudFrontClass(i, c)
    ensures var out, id := Reconciled(w, o, i.lookup.classSpec, i), o.status.externalId;
      && (out.outcome.Done? && out.status.ready <==> EndsReady(w.account, o, i, c))
      && (EndsReady(w.account, o, i, c) ==>
            out.status == ReadyStatus(w.account.cf[id], id,
                                      ArnAfter(w.account, i.answers, o.status, CertificateOf(o, i))))
  {
    var req, st := RequestOf(o, i.lookup.classSpec, i), o.status.(ready := true);
    CertificateCreates(w.account, i.answers, st, req.cert);
    var k := ReconcileCertificate(w.account, i.answers, st, req.cert);
    DistributionReadyIff(k.account, i.answers, req, k.status, o, c);
  }

  // ----- when a reconcile succeeds -----

  // The recorded distribution is live and as desired.
  ghost predicate AsItShouldBe(acc: Account, o: Object, c: CloudFrontSpec, id: string, arn: string) {
    o.spec.hosts != [] && ConfigGood(acc.cf, o, c, id, arn)
  }

  // It is live, and either as desired or the object's own, and can be updated;
  // or there is none, and one can be created.
  ghost predicate DistributionSucceeds(acc: Account, a: Answers, o: Object, c: CloudFrontSpec,
                                       id: string, arn: string)
  {
    && (id != "" ==> OpGet !in a.failing)
    && if id != "" && id in acc.cf then
         AsItShouldBe(acc, o, c, id, arn) || (OpUpdate !in a.failing && Owned(acc.cf, o.uid, id))
       else
         OpCreate !in a.failing && !Taken(acc.cf, o.uid) && Fresh(a.newId, acc.cf.Keys)
  }

  // What is live, and what is reported, after a success.
  ghost predicate SuccessLeaves(acc: Account, a: Answers, o: Object, c: CloudFrontSpec,
                                st: DistributionStatus, out: Out)
  {
    var id, arn := st.externalId, st.externalCertificateId;
    var config := Desired(o.uid, o.spec, c, arn, true);
    if id == "" || id !in acc.cf then
      && out.account.cf == acc.cf[a.newId := Live(config, false, 0, a.newDomain)]
      && out.status == DistributionStatus(false, Some([a.newDomain]), a.newId, arn, "InProgress")
    else
      var live := acc.cf[id];
      if AsItShouldBe(acc, o, c, id, arn) then
        && out.account.cf == acc.cf
        && out.status == DistributionStatus(live.deployed, Some([live.domain]), id, arn, StatusOf(live))
      else
        && out.account.cf == acc.cf[id := Live(config, false, live.etag + 1, live.domain)]
        && out.status == DistributionStatus(false, Some([live.domain]), id, arn, "InProgress")
  }

  lemma LiveSucceedsIff(acc: Account, a: Answers, req: Request, st: DistributionStatus, o: Object, c: CloudFrontSpec)
    requires req == Request(DistributionClassSpec(Some(c)), o.uid, o.spec, st.externalId, req.cert)
    requires st.externalId != "" && st.externalId in acc.cf
    ensures var out, id, arn := ReconcileDistribution(acc, a, req, st), st.externalId, st.externalCertificateId;
      && (out.outcome.Done? <==> DistributionSucceeds(acc, a, o, c, id, arn))
      && (out.outcome.Done? ==> SuccessLeaves(acc, a, o, c, st, out))
  {
    hide Same, Normalised;
    assert DEPLOYED[0] == 'D' && IN_PROGRESS[0] == 'I';
    var id := st.externalId;
    ComparisonIff(o.uid, o.spec, c, st.externalCertificateId, id, acc.cf[id], a.aliasOrder);
  }

  lemma AbsentSucceedsIff(acc: Account, a: Answers, req: Request, st: DistributionStatus, o: Object, c: CloudFrontSpec)
    requires req == Request(DistributionClassSpec(Some(c)), o.uid, o.spec, st.externalId, req.cert)
    requires st.externalId == "" || st.externalId !in acc.cf
    ensures var out, id, arn := ReconcileDistribution(acc, a, req, st), st.externalId, st.externalCertificateId;
      && (out.outcome.Done? <==> DistributionSucceeds(acc, a, o, c, id, arn))
      && (out.outcome.Done? ==> SuccessLeaves(acc, a, o, c, st, out))
  {
    assert DEPLOYED[0] == 'D' && IN_PROGRESS[0] == 'I';
  }

  // A reconcile succeeds exactly if both steps do; then the one distribution is
  // created, updated or left alone, and reported as it is.
  lemma ReconcileSucceedsIff(acc: Account, a: Answers, req: Request, st: DistributionStatus,
                             o: Object, c: CloudFrontSpec)
    requires req == Request(DistributionClassSpec(Some(c)), o.uid, o.spec, st.externalId, req.cert)
    ensures var out, st' := CloudFront.Reconcile(acc, a, req, st),
                            st.(externalCertificateId := ArnAfter(acc, a, st, req.cert));
      && (out.outcome.Done? <==>
            && CertificateSucceeds(acc, a, st, req.cert)
            && DistributionSucceeds(acc, a, o, c, st.externalId, st'.externalCertificateId))
      && (out.outcome.Done? ==> SuccessLeaves(acc, a, o, c, st', out))
  {
    CertificateCreates(acc, a, st, req.cert);
    var k := ReconcileCertificate(acc, a, st, req.cert);
    if st.externalId != "" && st.externalId in acc.cf {
      LiveSucceedsIff(k.account, a, req, k.status, o, c);
    } else {
      AbsentSucceedsIff(k.account, a, req, k.status, o, c);
    }
  }

  // ----- Ready is sound -----

  lemma SameMeans(o: Object, c: CloudFrontSpec, arn: string, config: Config)
    requires arn != "" && Same(Desired(o.uid, o.spec, c, arn, true), config)
    ensures config.enabled && config.viewerCertificate.acmArn == Some(arn)
  {
    var d := Desired(o.uid, o.spec, c, arn, true).(aliases := None);
    assert d.enabled == config.(aliases := None).enabled;
    assert d.viewerCertificate == config.(aliases := None).viewerCertificate;
  }

  predicate WritesLand(i: Inputs) {
    OpAddFinalizer !in i.answers.failing && OpWriteStatus !in i.answers.failing
  }

  lemma ReadyProvider(acc: Account, a: Answers, req: Request, st: DistributionStatus, o: Object, c: CloudFrontSpec)
    requires req == Request(DistributionClassSpec(Some(c)), o.uid, o.spec, st.externalId, req.cert)
    ensures CloudFront.Reconcile(acc, a, req, st).outcome.Done? ==> req.cert.Some?
    ensures var out := CloudFront.Reconcile(acc, a, req, st);
      out.outcome.Done? && out.status.ready && o.finalizer && !o.deleting && o.spec.tls.Some? ==>
        Steady(World(o.uid, Some(o.(status := out.status)), out.account), c, req.cert.value)
  {
    var k := ReconcileCertificate(acc, a, st, req.cert);
    if k.outcome.Done? {
      CertificateDone(acc, a, st, req.cert);
      DistributionReadyIff(k.account, a, req, k.status, o, c);
      var out := ReconcileDistribution(k.account, a, req, k.status);
      if out.outcome.Done? && out.status.ready {
        SameMeans(o, c, k.status.externalCertificateId, out.account.cf[out.status.externalId].config);
      }
    }
  }

  // A reconcile pass that ends with Ready leaves the world steady, whatever
  // else failed and wherever it started; in particular it never does so
  // without a host, a TLS block and a loaded certificate.
  lemma ReadyIsSound(w: World, i: Inputs, c: CloudFrontSpec)
    requires w.obj.Some? && !w.obj.value.deleting && CloudFrontClass(i, c) && WritesLand(i)
    ensures var out := Pass(PROVIDERS, w, i);
      out.result != Crashed && out.world.obj.Some? && out.world.obj.value.status.ready ==>
        i.cert.Some? && Steady(out.world, c, i.cert.value)
  {
    var w0, o := w.(account := w.account.(calls := [])), w.obj.value;
    ReconcilePassShape(w0, i.lookup.classSpec, i);
    var req := RequestOf(o, i.lookup.classSpec, i);
    ReadyProvider(w0.account, i.answers, req, o.status.(ready := true), o.(finalizer := true), c);
  }

  // ----- Ready is quiet -----

  // If the provider succeeds and the status stays, so does the object.
  lemma QuietPass(w: World, classSpec: DistributionClassSpec, i: Inputs)
    requires w.obj.Some? && !w.obj.value.deleting && w.obj.value.finalizer && w.obj.value.status.ready
    requires w.obj.value.spec.tls.Some? ==> i.cert.Some?
    requires var out := Reconciled(w, w.obj.value, classSpec, i); out.outcome.Done? && out.status == w.obj.value.status
    ensures ReconcilePass(PROVIDERS, w, classSpec, i) ==
            PassOut(w.(account := Reconciled(w, w.obj.value, classSpec, i).account), Returned(false, 0, false))
  {
    var o := w.obj.value;
    OneProvider(w.account, i.answers, RequestOf(o, classSpec, i), o.status.(ready := true));
  }

  // In the steady state a pass reads and does nothing else: whatever the
  // alias order, and whatever other operation would fail.
  lemma SteadyIsQuiet(w: World, i: Inputs, c: CloudFrontSpec)
    requires CloudFrontClass(i, c) && i.cert.Some? && Steady(w, c, i.cert.value)
    requires OpDescribe !in i.answers.failing && OpGet !in i.answers.failing
    ensures var out, st := Pass(PROVIDERS, w, i), w.obj.value.status;
      && out.world == w.(account := w.account.(calls := [DescribeCertificate(st.externalCertificateId),
                                                         GetDistribution(st.externalId)]))
      && out.result == Returned(false, 0, false)
  {
    var w0, o := w.(account := w.account.(calls := [])), w.obj.value;
    var st := o.status;
    assert st.(ready := true) == st;
    GoodCertificateIsQuiet(w0.account, i.answers, st, i.cert.value);
    var k := ReconcileCertificate(w0.account, i.answers, st, i.cert);
    GoodDistributionIsQuiet(k.account, i.answers, RequestOf(o, i.lookup.classSpec, i), st, o, c);
    var out := Reconciled(w0, o, i.lookup.classSpec, i);
    var calls := [DescribeCertificate(st.externalCertificateId), GetDistribution(st.externalId)];
    assert out == Out(w.account.(calls := calls), st, Done);
    QuietPass(w0, i.lookup.classSpec, i);
  }
}

// Ready is reached within three passes, and a lost id is recovered.
module Convergence {
  import opened Types
  import opened DistributionConfig
  import opened Aws
  import opened ApiServer
  import opened CloudFront
  import opened Controller
  import opened Runs
  import opened Confinement
  import opened Certificates
  import opened SteadyState
  import opened Requests
  import opened Reports
  import Serial
  import DistributionId

  // ----- Ready is reached -----

  ghost predicate HealthyForCreation(cf: Distributions, uid: string, a: Answers) {
    && a.failing == {} && Fresh(a.newId, cf.Keys)
    && (Taken(cf, uid) ==> exists id :: Owned(cf, uid, id) && DistributionId.Names(a.message, id))
  }

  // Nothing fails, new names are new, and the message of a refused creation
  // names the distribution that is in the way.
  ghost predicate Healthy(acc: Account, uid: string, a: Answers) {
    Fresh(a.newArn, acc.acm.Keys) && HealthyForCreation(acc.cf, uid, a)
  }

  // A Distribution that is to be reconciled.
  predicate Active(w: World) {
    && w.obj.Some? && !w.obj.value.deleting && w.obj.value.spec.tls.Some?
    && "" !in w.account.cf && "" !in w.account.acm
  }

  // The recorded id, if live, is the object's own.
  predicate RecordsOwn(cf: Distributions, o: Object) {
    o.status.externalId in cf ==> Owned(cf, o.uid, o.status.externalId)
  }

  // Certificate and configuration are as desired.
  ghost predicate GoodAt(w: World, c: CloudFrontSpec, serial: nat)
    requires w.obj.Some?
  {
    var o := w.obj.value;
    && CertificateGood(w.account, o.status.externalCertificateId, serial)
    && ConfigGood(w.account.cf, o, c, o.status.externalId, o.status.externalCertificateId)
  }

  // How many rounds are left.
  ghost function Distance(w: World, c: CloudFrontSpec, serial: nat): nat
    requires Active(w)
  {
    var o, acc := w.obj.value, w.account;
    if Steady(DeployAll(w), c, serial) then 0
    else if GoodAt(w, c, serial) then 1
    else if o.status.externalId in acc.cf || !Taken(acc.cf, o.uid) then 2
    else 3
  }

  lemma CertificateSettles(acc: Account, a: Answers, st: DistributionStatus, serial: nat)
    requires a.failing == {} && Fresh(a.newArn, acc.acm.Keys) && "" !in acc.acm
    ensures var out := ReconcileCertificate(acc, a, st, Some(serial));
      && out.outcome.Done? && "" !in out.account.acm
      && (CertificateGood(acc, st.externalCertificateId, serial) ==>
            out.account.acm == acc.acm && out.status == st)
  {
    if st.externalCertificateId in acc.acm {
      Serial.SerialsDifferIff(serial, acc.acm[st.externalCertificateId]);
    }
  }

  // A recorded live distribution is brought to the desired configuration; it is
  // left alone if it has it.
  lemma LiveSettles(acc: Account, a: Answers, req: Request, st: DistributionStatus, o: Object, c: CloudFrontSpec)
    requires req == Request(DistributionClassSpec(Some(c)), o.uid, o.spec, st.externalId, req.cert)
    requires a.failing == {} && "" !in acc.cf && Owned(acc.cf, o.uid, st.externalId) && o.spec.hosts != []
    ensures var out, id, arn := ReconcileDistribution(acc, a, req, st), st.externalId, st.externalCertificateId;
      && out.outcome.Done? && out.account.acm == acc.acm && "" !in out.account.cf
      && out.status.externalId == id && out.status.externalCertificateId == arn
      && Owned(out.account.cf, o.uid, id) && ConfigGood(out.account.cf, o, c, id, arn)
      && (ConfigGood(acc.cf, o, c, id, arn) ==>
            out.account.cf == acc.cf
            && out.status == st.(externalStatus := StatusOf(acc.cf[id]), endpoints := Some([acc.cf[id].domain]),
                                 ready := StatusOf(acc.cf[id]) == DEPLOYED))
  {
    var id, arn := st.externalId, st.externalCertificateId;
    ComparisonIff(o.uid, o.spec, c, arn, id, acc.cf[id], a.aliasOrder);
    var desired := Desired(o.uid, o.spec, c, arn, true);
    SameIsEquivalence(desired, desired, desired);
  }

  lemma CreationSettles(acc: Account, a: Answers, req: Request, st: DistributionStatus, o: Object, c: CloudFrontSpec)
    requires req == Request(DistributionClassSpec(Some(c)), o.uid, o.spec, req.recordedId, req.cert)
    requires HealthyForCreation(acc.cf, o.uid, a) && "" !in acc.cf
    ensures var out := CreateFor(acc, a, req, st);
      var id, arn := out.status.externalId, st.externalCertificateId;
      && !out.outcome.Panicked? && out.account.acm == acc.acm && "" !in out.account.cf
      && out.status.externalCertificateId == arn
      && Owned(out.account.cf, o.uid, id)
      && (Taken(acc.cf, o.uid) ==> out.account.cf == acc.cf && out.outcome.Failed?)
      && (!Taken(acc.cf, o.uid) ==> out.outcome.Done? && ConfigGood(out.account.cf, o, c, id, arn))
  {
    if Taken(acc.cf, o.uid) {
      var id :| Owned(acc.cf, o.uid, id) && DistributionId.Names(a.message, id);
      DistributionId.NamedIdIsFound(a.message, id);
    } else {
      var desired := Desired(o.uid, o.spec, c, st.externalCertificateId, true);
      SameIsEquivalence(desired, desired, desired);
    }
  }

  // With nothing recorded that is live, one is created, or the one that is in
  // the way is recorded.
  lemma MissingSettles(acc: Account, a: Answers, req: Request, st: DistributionStatus, o: Object, c: CloudFrontSpec)
    requires req == Request(DistributionClassSpec(Some(c)), o.uid, o.spec, st.externalId, req.cert)
    requires HealthyForCreation(acc.cf, o.uid, a) && "" !in acc.cf && st.externalId !in acc.cf
    ensures var out := ReconcileDistribution(acc, a, req, st);
      var id, arn := out.status.externalId, st.externalCertificateId;
      && !out.outcome.Panicked? && out.account.acm == acc.acm && "" !in out.account.cf
      && out.status.externalCertificateId == arn
      && Owned(out.account.cf, o.uid, id)
      && (Taken(acc.cf, o.uid) ==> out.account.cf == acc.cf && out.outcome.Failed?)
      && (!Taken(acc.cf, o.uid) ==> out.outcome.Done? && ConfigGood(out.account.cf, o, c, id, arn))
  {
    if req.recordedId == "" {
      CreationSettles(acc, a, req, st, o, c);
    } else {
      var (acc', st', loaded) := Load(acc, a, req.recordedId, st);
      CreationSettles(acc', a, req, st', o, c);
    }
  }

  // A healthy pass stores what the provider leaves.
  lemma HealthyPass(w: World, i: Inputs, c: CloudFrontSpec)
    requires w.obj.Some? && !w.obj.value.deleting && w.obj.value.spec.tls.Some?
    requires CloudFrontClass(i, c) && i.cert.Some? && i.answers.failing == {}
    requires var w0 := w.(account := w.account.(calls := []));
      !Reconciled(w0, w.obj.value, i.lookup.classSpec, i).outcome.Panicked?
    ensures var w0, w', o := w.(account := w.account.(calls := [])), Pass(PROVIDERS, w, i).world, w.obj.value;
      var out := Reconciled(w0, o, i.lookup.classSpec, i);
      && w'.account == out.account && w'.uid == w.uid && w'.obj.Some? && Pass(PROVIDERS, w, i).result != Crashed
      && w'.obj.value == o.(finalizer := true, version := w'.obj.value.version, status := FinalStatus(out))
  {
    ReconcilePassShape(w.(account := w.account.(calls := [])), i.lookup.classSpec, i);
  }

  lemma DeployAllKeeps(w: World, c: CloudFrontSpec, serial: nat)
    requires Active(w)
    ensures Active(DeployAll(w)) && Distance(DeployAll(w), c, serial) == Distance(w, c, serial)
    ensures GoodAt(DeployAll(w), c, serial) <==> GoodAt(w, c, serial)
    ensures RecordsOwn(DeployAll(w).account.cf, w.obj.value) <==> RecordsOwn(w.account.cf, w.obj.value)
    ensures Taken(DeployAll(w).account.cf, w.obj.value.uid) <==> Taken(w.account.cf, w.obj.value.uid)
  {
    var o, cf, cf' := w.obj.value, w.account.cf, DeployAll(w).account.cf;
    assert DeployAll(DeployAll(w)) == DeployAll(w);
    forall reference ensures Taken(cf, reference) <==> Taken(cf', reference) {
      if id :| id in cf && cf[id].config.callerReference == reference {
        assert id in cf' && cf'[id].config.callerReference == reference;
      }
      if id :| id in cf' && cf'[id].config.callerReference == reference {
        assert id in cf && cf[id].config.callerReference == reference;
      }
    }
    assert ConfigGood(cf', o, c, o.status.externalId, o.status.externalCertificateId) <==>
           ConfigGood(cf, o, c, o.status.externalId, o.status.externalCertificateId);
  }

  // What one provider call achieves, by how far the account is from the goal.
  lemma ProviderSettles(acc: Account, a: Answers, req: Request, o: Object, c: CloudFrontSpec, serial: nat)
    requires req == Request(DistributionClassSpec(Some(c)), o.uid, o.spec, o.status.externalId, Some(serial))
    requires Healthy(acc, o.uid, a) && o.spec.hosts != []
    requires "" !in acc.cf && "" !in acc.acm
    requires RecordsOwn(acc.cf, o)
    ensures var out := CloudFront.Reconcile(acc, a, req, o.status.(ready := true));
      var id, arn := out.status.externalId, out.status.externalCertificateId;
      && !out.outcome.Panicked? && "" !in out.account.cf && "" !in out.account.acm
      && CertificateGood(out.account, arn, serial) && Owned(out.account.cf, o.uid, id)
      && (o.status.externalId in acc.cf || !Taken(acc.cf, o.uid) ==>
            out.outcome.Done? && ConfigGood(out.account.cf, o, c, id, arn))
      && (CertificateGood(acc, o.status.externalCertificateId, serial)
          && ConfigGood(acc.cf, o, c, o.status.externalId, o.status.externalCertificateId) ==>
            var live := acc.cf[o.status.externalId];
            && out.outcome.Done? && out.account.cf == acc.cf && out.account.acm == acc.acm
            && out.status == o.status.(externalStatus := StatusOf(live), endpoints := Some([live.domain]),
                                       ready := StatusOf(live) == DEPLOYED))
  {
    var st := o.status.(ready := true);
    CertificateSettles(acc, a, st, serial);
    CertificateDone(acc, a, st, req.cert);
    var k := ReconcileCertificate(acc, a, st, req.cert);
    if o.status.externalId in acc.cf {
      LiveSettles(k.account, a, req, k.status, o, c);
    } else {
      MissingSettles(k.account, a, req, k.status, o, c);
    }
  }

  // What one round leads to, by the provider call in it.
  lemma RoundOutcome(w: World, i: Inputs, c: CloudFrontSpec, serial: nat)
    requires Active(w) && w.obj.value.spec.hosts != [] && RecordsOwn(w.account.cf, w.obj.value)
    requires CloudFrontClass(i, c) && i.cert == Some(serial)
    requires Healthy(DeployAll(w).account, w.obj.value.uid, i.answers)
    ensures var d, w' := DeployAll(w), Round(w, i);
      && Active(w') && w'.obj.value.spec == w.obj.value.spec && w'.obj.value.uid == w.obj.value.uid
      && w'.obj.value.finalizer
      && w'.obj.value.status.externalId in w'.account.cf && RecordsOwn(w'.account.cf, w'.obj.value)
      && (w.obj.value.status.externalId in w.account.cf || !Taken(d.account.cf, w.obj.value.uid) ==>
            GoodAt(w', c, serial))
      && (GoodAt(d, c, serial) ==>
            var live := d.account.cf[w.obj.value.status.externalId];
            && w'.account.cf == d.account.cf && w'.account.acm == d.account.acm
            && w'.obj.value.status ==
               w.obj.value.status.(externalStatus := DEPLOYED, endpoints := Some([live.domain]), ready := true))
  {
    DeployAllKeeps(w, c, serial);
    var d, o := DeployAll(w), w.obj.value;
    ProviderSettles(d.account.(calls := []), i.answers, RequestOf(o, i.lookup.classSpec, i), o, c, serial);
    HealthyPass(d, i, c);
  }

  lemma DeployedStays(w': World, w: World)
    requires w'.account.cf == DeployAll(w).account.cf
    ensures DeployAll(w') == w'
  {
    assert DeployAll(w').account.cf == w'.account.cf;
  }

  // A round from the desired configuration is steady and stays so.
  lemma RoundFromGood(w: World, i: Inputs, c: CloudFrontSpec, serial: nat)
    requires Active(w) && w.obj.value.spec.hosts != [] && RecordsOwn(w.account.cf, w.obj.value)
    requires CloudFrontClass(i, c) && i.cert == Some(serial)
    requires Healthy(DeployAll(w).account, w.obj.value.uid, i.answers)
    requires GoodAt(DeployAll(w), c, serial)
    ensures Steady(Round(w, i), c, serial) && Steady(DeployAll(Round(w, i)), c, serial)
  {
    RoundOutcome(w, i, c, serial);
    var d, w', o := DeployAll(w), Round(w, i), w.obj.value;
    var id, arn := o.status.externalId, o.status.externalCertificateId;
    SameMeans(o, c, arn, d.account.cf[id].config);
    assert Steady(w', c, serial);
    DeployedStays(w', w);
  }

  // Every round brings the goal strictly closer, until it is reached; then it
  // stays reached.
  lemma RoundStep(w: World, i: Inputs, c: CloudFrontSpec, serial: nat)
    requires Active(w) && w.obj.value.spec.hosts != [] && RecordsOwn(w.account.cf, w.obj.value)
    requires CloudFrontClass(i, c) && i.cert == Some(serial)
    requires Healthy(DeployAll(w).account, w.obj.value.uid, i.answers)
    ensures Active(Round(w, i)) && RecordsOwn(Round(w, i).account.cf, Round(w, i).obj.value)
    ensures Round(w, i).obj.value.spec == w.obj.value.spec && Round(w, i).obj.value.uid == w.obj.value.uid
    ensures Distance(w, c, serial) == 0 ==> Distance(Round(w, i), c, serial) == 0
    ensures Distance(w, c, serial) > 0 ==> Distance(Round(w, i), c, serial) < Distance(w, c, serial)
    ensures Distance(w, c, serial) <= 1 ==> Steady(Round(w, i), c, serial)
  {
    DeployAllKeeps(w, c, serial);
    RoundOutcome(w, i, c, serial);
    if GoodAt(DeployAll(w), c, serial) { RoundFromGood(w, i, c, serial); }
  }

  // Worlds one after the other, each a healthy round from the one before.
  ghost predicate HealthyRound(w: World, i: Inputs, w': World, c: CloudFrontSpec, serial: nat) {
    && w.obj.Some? && CloudFrontClass(i, c) && i.cert == Some(serial)
    && Healthy(DeployAll(w).account, w.obj.value.uid, i.answers)
    && w' == Round(w, i)
  }

  ghost predicate HealthyRun(ws: seq<World>, inputs: seq<Inputs>, c: CloudFrontSpec, serial: nat) {
    && |ws| == |inputs| + 1
    && forall k :: 0 <= k < |inputs| ==> HealthyRound(ws[k], inputs[k], ws[k + 1], c, serial)
  }

  lemma RoundOf(ws: seq<World>, inputs: seq<Inputs>, c: CloudFrontSpec, serial: nat, k: nat)
    requires HealthyRun(ws, inputs, c, serial) && k < |inputs|
    ensures |ws| == |inputs| + 1 && HealthyRound(ws[k], inputs[k], ws[k + 1], c, serial)
  {
  }

  // The goal is at most `n` healthy rounds away.
  ghost predicate WithinReach(w: World, c: CloudFrontSpec, serial: nat, n: nat) {
    && Active(w) && w.obj.value.spec.hosts != [] && RecordsOwn(w.account.cf, w.obj.value)
    && Distance(w, c, serial) <= n
  }

  lemma HealthyRoundStep(w: World, i: Inputs, w': World, c: CloudFrontSpec, serial: nat, n: nat)
    requires HealthyRound(w, i, w', c, serial) && WithinReach(w, c, serial, n)
    ensures WithinReach(w', c, serial, if n == 0 then 0 else n - 1)
    ensures n <= 1 ==> Steady(w', c, serial)
  {
    RoundStep(w, i, c, serial);
  }

  lemma {:induction false} CloserAfter(ws: seq<World>, inputs: seq<Inputs>, c: CloudFrontSpec, serial: nat, k: nat)
    requires HealthyRun(ws, inputs, c, serial) && WithinReach(ws[0], c, serial, |inputs|) && k <= |inputs|
    ensures WithinReach(ws[k], c, serial, |inputs| - k)
    decreases k
  {
    hide *;
    if k == 0 {
    } else {
      CloserAfter(ws, inputs, c, serial, k - 1);
      RoundOf(ws, inputs, c, serial, k - 1);
      HealthyRoundStep(ws[k - 1], inputs[k - 1], ws[k], c, serial, |inputs| - (k - 1));
    }
  }

  // From any start with nobody else's distribution on record, as many rounds as
  // the distance are enough, and the state then is stable.
  lemma SteadyAfterDistance(ws: seq<World>, inputs: seq<Inputs>, c: CloudFrontSpec, serial: nat)
    requires HealthyRun(ws, inputs, c, serial) && inputs != [] && WithinReach(ws[0], c, serial, |inputs|)
    ensures Steady(ws[|inputs|], c, serial)
  {
    var last := |inputs| - 1;
    CloserAfter(ws, inputs, c, serial, last);
    RoundOf(ws, inputs, c, serial, last);
    HealthyRoundStep(ws[last], inputs[last], ws[|inputs|], c, serial, 1);
  }

  predicate Hostless(w: World) {
    w.obj.Some? && !w.obj.value.deleting && w.obj.value.spec.tls.Some? && w.obj.value.spec.hosts == []
  }

  lemma RoundWithoutHosts(w: World, i: Inputs, w': World, c: CloudFrontSpec, serial: nat)
    requires HealthyRound(w, i, w', c, serial) && Hostless(w)
    ensures Hostless(w') && !w'.obj.value.status.ready
  {
    var d, o := DeployAll(w), w.obj.value;
    var req := Request(DistributionClassSpec(Some(c)), o.uid, o.spec, o.status.externalId, i.cert);
    PanicIff(d.account.(calls := []), i.answers, req, o.status.(ready := true));
    HealthyPass(d, i, c);
    ReadyIsSound(d, i, c);
  }

  // Without a host, no healthy round ends with Ready.
  lemma {:induction false} NeverReadyWithoutHosts(ws: seq<World>, inputs: seq<Inputs>,
                                                  c: CloudFrontSpec, serial: nat, k: nat)
    requires HealthyRun(ws, inputs, c, serial) && k <= |inputs| && Hostless(ws[0])
    ensures Hostless(ws[k]) && (k > 0 ==> !ws[k].obj.value.status.ready)
    decreases k
  {
    hide *;
    if k == 0 {
    } else {
      NeverReadyWithoutHosts(ws, inputs, c, serial, k - 1);
      RoundOf(ws, inputs, c, serial, k - 1);
      RoundWithoutHosts(ws[k - 1], inputs[k - 1], ws[k], c, serial);
    }
  }

  // An update under the object's own caller reference is refused for a
  // distribution that has another.
  lemma OthersAreNotUpdated(acc: Account, a: Answers, req: Request, st: DistributionStatus)
    requires req.classSpec.cloudFront.Some? && st.externalId == req.recordedId && a.failing == {}
    requires req.recordedId != "" && req.recordedId in acc.cf && !Owned(acc.cf, req.uid, req.recordedId)
    ensures var out := ReconcileDistribution(acc, a, req, st);
      && out.outcome.Failed? && out.account.cf == acc.cf && out.account.acm == acc.acm
      && out.status.externalId == st.externalId
  {
    var (acc', st', loaded) := Load(acc, a, req.recordedId, st);
    var config := Desired(req.uid, req.spec, req.classSpec.cloudFront.value, st'.externalCertificateId, true);
    assert Normalised(loaded.current.config).callerReference == acc.cf[req.recordedId].config.callerReference;
    assert config.callerReference == req.uid;
  }

  // Somebody else's distribution is on record.
  predicate RecordsOthers(w: World) {
    Active(w) && !RecordsOwn(w.account.cf, w.obj.value)
  }

  lemma RoundWithOthers(w: World, i: Inputs, w': World, c: CloudFrontSpec, serial: nat)
    requires HealthyRound(w, i, w', c, serial) && RecordsOthers(w)
    ensures RecordsOthers(w') && !w'.obj.value.status.ready
  {
    var d, o := DeployAll(w), w.obj.value;
    var acc0, st := d.account.(calls := []), o.status.(ready := true);
    var req := Request(DistributionClassSpec(Some(c)), o.uid, o.spec, o.status.externalId, i.cert);
    CertificateSettles(acc0, i.answers, st, serial);
    CertificateDone(acc0, i.answers, st, i.cert);
    var k := ReconcileCertificate(acc0, i.answers, st, i.cert);
    OthersAreNotUpdated(k.account, i.answers, req, k.status);
    HealthyPass(d, i, c);
  }

  // With somebody else's distribution on record, no healthy round does either.
  lemma {:induction false} NeverReadyWithOthers(ws: seq<World>, inputs: seq<Inputs>,
                                                c: CloudFrontSpec, serial: nat, k: nat)
    requires HealthyRun(ws, inputs, c, serial) && k <= |inputs| && RecordsOthers(ws[0])
    ensures RecordsOthers(ws[k]) && (k > 0 ==> !ws[k].obj.value.status.ready)
    decreases k
  {
    hide *;
    if k == 0 {
    } else {
      NeverReadyWithOthers(ws, inputs, c, serial, k - 1);
      RoundOf(ws, inputs, c, serial, k - 1);
      RoundWithOthers(ws[k - 1], inputs[k - 1], ws[k], c, serial);
    }
  }

  // From any start, three or more healthy rounds end with Ready exactly when
  // there is a host and nobody else's distribution is on record.
  lemma ReadyWithinThreeRoundsIff(ws: seq<World>, inputs: seq<Inputs>, c: CloudFrontSpec, serial: nat)
    requires HealthyRun(ws, inputs, c, serial) && |inputs| >= 3 && Active(ws[0])
    ensures var o, end := ws[0].obj.value, ws[|inputs|];
      && end.obj.Some?
      && (end.obj.value.status.ready <==> o.spec.hosts != [] && RecordsOwn(ws[0].account.cf, o))
      && (end.obj.value.status.ready ==> Steady(end, c, serial))
  {
    var o := ws[0].obj.value;
    if o.spec.hosts == [] {
      NeverReadyWithoutHosts(ws, inputs, c, serial, |inputs|);
    } else if RecordsOwn(ws[0].account.cf, o) {
      assert Distance(ws[0], c, serial) <= 3;
      SteadyAfterDistance(ws, inputs, c, serial);
    } else {
      NeverReadyWithOthers(ws, inputs, c, serial, |inputs|);
    }
  }

  // ----- a lost id is recovered -----

  lemma LostIdIsFound(acc: Account, a: Answers, req: Request, st: DistributionStatus, id: string)
    requires req.classSpec.cloudFront.Some? && req.recordedId !in acc.cf && a.failing == {}
    requires Owned(acc.cf, req.uid, id) && DistributionId.Names(a.message, id)
    ensures var out := ReconcileDistribution(acc, a, req, st);
      out.outcome.Failed? && out.account.cf == acc.cf && out.status.externalId == id
  {
    DistributionId.NamedIdIsFound(a.message, id);
    assert Taken(acc.cf, req.uid);
  }

  // The pass creates nothing, stores the live id and asks to be run again at
  // once; the pass after it reads that distribution.
  lemma LostIdIsRecovered(w: World, i: Inputs, c: CloudFrontSpec, serial: nat, id: string)
    requires w.obj.Some? && !w.obj.value.deleting && w.obj.value.spec.tls.Some?
    requires w.obj.value.status.externalId !in w.account.cf && "" !in w.account.acm && "" !in w.account.cf
    requires CloudFrontClass(i, c) && i.cert == Some(serial) && i.answers.failing == {}
    requires Fresh(i.answers.newArn, w.account.acm.Keys)
    requires Owned(w.account.cf, w.obj.value.uid, id) && DistributionId.Names(i.answers.message, id)
    ensures var out := Pass(PROVIDERS, w, i);
      && out.world.account.cf == w.account.cf
      && out.world.obj.Some? && out.world.obj.value.status.externalId == id && !out.world.obj.value.status.ready
      && out.result == Returned(true, 0, false)
  {
    hide ReconcileDistribution, ReconcileCertificate, ReconcilePass;
    var w0, o := w.(account := w.account.(calls := [])), w.obj.value;
    var req, st := RequestOf(o, i.lookup.classSpec, i), o.status.(ready := true);
    CertificateSettles(w0.account, i.answers, st, serial);
    CertificateDone(w0.account, i.answers, st, i.cert);
    var k := ReconcileCertificate(w0.account, i.answers, st, i.cert);
    LostIdIsFound(k.account, i.answers, req, k.status, id);
    ReconcilePassShape(w0, i.lookup.classSpec, i);
  }

  lemma RecoveredIdIsChecked(w: World, i: Inputs, c: CloudFrontSpec)
    requires w.obj.Some? && !w.obj.value.deleting && w.obj.value.spec.tls.Some?
    requires w.obj.value.status.externalId in w.account.cf && "" !in w.account.cf && "" !in w.account.acm
    requires CloudFrontClass(i, c) && i.cert.Some? && i.answers.failing == {}
    requires Fresh(i.answers.newArn, w.account.acm.Keys)
    ensures var calls := Pass(PROVIDERS, w, i).world.account.calls;
      && GetDistribution(w.obj.value.status.externalId) in calls
      && forall call :: call in calls ==> !call.CreateDistribution?
  {
    hide ReconcileDistribution, ReconcileCertificate, Pass;
    var o := w.obj.value;
    var acc0, st := w.account.(calls := []), o.status.(ready := true);
    var req := Request(DistributionClassSpec(Some(c)), o.uid, o.spec, o.status.externalId, i.cert);
    CertificateSettles(acc0, i.answers, st, i.cert.value);
    CertificateDone(acc0, i.answers, st, i.cert);
    CertificateRequests(acc0, i.answers, st, i.cert);
    var k := ReconcileCertificate(acc0, i.answers, st, i.cert);
    DistributionRequests(k.account, i.answers, req, k.status);
    PanicIff(acc0, i.answers, req, st);
    HealthyPass(w, i, c);
    var before, calls := k.account.calls, Pass(PROVIDERS, w, i).world.account.calls;
    assert calls == ReconcileDistribution(k.account, i.answers, req, k.status).account.calls;
    assert |before| < |calls| && calls[..|before|] == before && calls[|before|] == GetDistribution(req.recordedId);
    forall n | 0 <= n < |calls| ensures !calls[n].CreateDistribution? {
      if n < |before| { assert calls[n] == before[n] && before[n] in before; }
    }
  }
}

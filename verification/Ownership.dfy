// No cloud resource the controller created is ever lost track of.
module Ownership {
  import opened Types
  import opened DistributionConfig
  import opened Aws
  import opened ApiServer
  import opened CloudFront
  import opened Controller
  import opened Runs
  import opened Confinement
  import opened Certificates
  import Teardown

  ghost predicate OwnsAnything(acc: Account, uid: string) {
    (exists id :: Owned(acc.cf, uid, id)) || (exists arn :: Minted(acc, arn))
  }

  // Every live distribution of `uid` is the recorded one.
  ghost predicate TracksDistribution(cf: Distributions, uid: string, recorded: string) {
    "" !in cf && forall id :: Owned(cf, uid, id) ==> id == recorded
  }

  // Every live certificate the controller was given is the recorded one.
  ghost predicate TracksCertificate(acc: Account, recorded: string) {
    "" !in acc.acm && forall arn :: Minted(acc, arn) ==> arn == recorded
  }

  ghost predicate Tracks(acc: Account, uid: string, st: DistributionStatus) {
    TracksDistribution(acc.cf, uid, st.externalId) && TracksCertificate(acc, st.externalCertificateId)
  }

  ghost predicate NoOrphans(w: World) {
    && "" !in w.account.cf && "" !in w.account.acm
    && (w.obj.None? ==> !OwnsAnything(w.account, w.uid))
    && (w.obj.Some? ==>
          && w.obj.value.uid == w.uid
          && Tracks(w.account, w.uid, w.obj.value.status)
          && (OwnsAnything(w.account, w.uid) ==> w.obj.value.finalizer))
  }

  lemma ImportTracks(acc: Account, a: Answers, st: DistributionStatus, cert: Option<nat>)
    requires TracksCertificate(acc, st.externalCertificateId)
    ensures var out := ImportFor(acc, a, st, cert);
      && TracksCertificate(out.account, out.status.externalCertificateId)
      && out.account.cf == acc.cf && out.status.externalId == st.externalId
      && (out.outcome.Panicked? ==> out.account == acc)
  {
    var out := ImportFor(acc, a, st, cert);
    forall arn | Minted(out.account, arn) ensures arn == out.status.externalCertificateId {
      assert Minted(acc, arn) || arn == out.status.externalCertificateId;
    }
  }

  lemma CertificateTracks(acc: Account, a: Answers, st: DistributionStatus, cert: Option<nat>)
    requires TracksCertificate(acc, st.externalCertificateId)
    ensures var out := ReconcileCertificate(acc, a, st, cert);
      && TracksCertificate(out.account, out.status.externalCertificateId)
      && out.account.cf == acc.cf && out.status.externalId == st.externalId
      && (out.outcome.Panicked? ==> out.account == acc.(calls := out.account.calls))
  {
    var arn := st.externalCertificateId;
    if arn == "" {
      ImportTracks(acc, a, st, cert);
    } else {
      var (acc', r) := DoDescribe(acc, a, arn);
      assert forall x :: Minted(acc', x) <==> Minted(acc, x);
      if r == Err(NotFound) {
        assert TracksCertificate(acc', "");
        ImportTracks(acc', a, st.(externalCertificateId := ""), cert);
      } else {
        ImportTracks(acc', a, st, cert);
      }
    }
  }

  lemma NotTaken(cf: Distributions, uid: string, recorded: string)
    requires TracksDistribution(cf, uid, recorded) && recorded !in cf
    ensures !Taken(cf, uid)
  {
    if id :| id in cf && cf[id].config.callerReference == uid {
      assert Owned(cf, uid, id);
    }
  }

  lemma CreateTracks(acc: Account, a: Answers, req: Request, st: DistributionStatus)
    requires req.classSpec.cloudFront.Some?
    requires TracksDistribution(acc.cf, req.uid, st.externalId) && st.externalId == ""
    ensures var out := CreateFor(acc, a, req, st);
      && TracksDistribution(out.account.cf, req.uid, out.status.externalId)
      && out.account.acm == acc.acm && out.account.minted == acc.minted
      && out.status.externalCertificateId == st.externalCertificateId && !out.outcome.Panicked?
  {
    NotTaken(acc.cf, req.uid, "");
  }

  lemma SendTracks(acc: Account, a: Answers, uid: string, st: DistributionStatus, id: string, config: Config, etag: nat)
    requires TracksDistribution(acc.cf, uid, id)
    ensures var out := Send(acc, a, st, id, config, etag);
      && TracksDistribution(out.account.cf, uid, id)
      && out.account.acm == acc.acm && out.account.minted == acc.minted
      && (out.status.externalId == st.externalId || out.status.externalId == id)
      && out.status.externalCertificateId == st.externalCertificateId && !out.outcome.Panicked?
  {
    var out := Send(acc, a, st, id, config, etag);
    assert forall x :: Owned(out.account.cf, uid, x) <==> Owned(acc.cf, uid, x);
  }

  lemma DistributionTracks(acc: Account, a: Answers, req: Request, st: DistributionStatus)
    requires req.classSpec.cloudFront.Some? && st.externalId == req.recordedId
    requires TracksDistribution(acc.cf, req.uid, st.externalId)
    ensures var out := ReconcileDistribution(acc, a, req, st);
      && TracksDistribution(out.account.cf, req.uid, out.status.externalId)
      && out.account.acm == acc.acm && out.account.minted == acc.minted
      && out.status.externalCertificateId == st.externalCertificateId && !out.outcome.Panicked?
  {
    if req.recordedId == "" {
      CreateTracks(acc, a, req, st);
    } else {
      var (acc', st', loaded) := Load(acc, a, req.recordedId, st);
      assert acc'.cf == acc.cf;
      if loaded.Missing? {
        assert TracksDistribution(acc'.cf, req.uid, "");
        CreateTracks(acc', a, req, st');
      } else if loaded.Found? {
        var config := Desired(req.uid, req.spec, req.classSpec.cloudFront.value, st'.externalCertificateId, true);
        SendTracks(acc', a, req.uid, st', loaded.current.id, config, loaded.etag);
      }
    }
  }

  lemma DeleteDistributionTracks(acc: Account, a: Answers, req: Request, st: DistributionStatus)
    requires st.externalId == req.recordedId && TracksDistribution(acc.cf, req.uid, st.externalId)
    ensures var out := DeleteDistributionOf(acc, a, req, st);
      && TracksDistribution(out.account.cf, req.uid, out.status.externalId)
      && out.account.cf.Keys <= acc.cf.Keys
      && out.account.acm == acc.acm && out.account.minted == acc.minted
      && out.status.externalCertificateId == st.externalCertificateId && !out.outcome.Panicked?
  {
    var (acc', st', loaded) := Load(acc, a, req.recordedId, st);
    var out := DeleteDistributionOf(acc, a, req, st);
    if loaded.Missing? {
      assert TracksDistribution(acc.cf, req.uid, "");
    } else if loaded.Found? && !loaded.current.config.enabled {
      assert forall x :: Owned(out.account.cf, req.uid, x) ==> Owned(acc.cf, req.uid, x) && x != "";
    } else if loaded.Found? {
      SendTracks(acc', a, req.uid, st', loaded.current.id, loaded.current.config.(enabled := false), loaded.etag);
    }
  }

  lemma DeleteCertificateTracks(acc: Account, a: Answers, st: DistributionStatus)
    requires TracksCertificate(acc, st.externalCertificateId)
    ensures var out := DeleteCertificateOf(acc, a, st);
      && TracksCertificate(out.account, out.status.externalCertificateId)
      && out.account.acm.Keys <= acc.acm.Keys && out.account.minted == acc.minted
      && out.account.cf == acc.cf && out.status.externalId == st.externalId && !out.outcome.Panicked?
  {
    var out := DeleteCertificateOf(acc, a, st);
    assert forall x :: Minted(out.account, x) ==> Minted(acc, x);
  }

  lemma ReconcileKeeps(acc: Account, a: Answers, req: Request, st: DistributionStatus)
    requires req.classSpec.cloudFront.Some? && st.externalId == req.recordedId && Tracks(acc, req.uid, st)
    ensures var out := CloudFront.Reconcile(acc, a, req, st);
      && Tracks(out.account, req.uid, out.status)
      && (out.outcome.Panicked? ==> out.account == acc.(calls := out.account.calls))
  {
    CertificateTracks(acc, a, st, req.cert);
    var c := ReconcileCertificate(acc, a, st, req.cert);
    if c.outcome.Done? {
      DistributionTracks(c.account, a, req, c.status);
      var out := ReconcileDistribution(c.account, a, req, c.status);
      assert forall arn :: Minted(out.account, arn) <==> Minted(c.account, arn);
    }
  }

  lemma DeleteKeeps(acc: Account, a: Answers, req: Request, st: DistributionStatus)
    requires st.externalId == req.recordedId && Tracks(acc, req.uid, st)
    ensures var out := CloudFront.Delete(acc, a, req, st);
      && Tracks(out.account, req.uid, out.status) && !out.outcome.Panicked?
      && out.account.cf.Keys <= acc.cf.Keys && out.account.acm.Keys <= acc.acm.Keys
      && out.account.minted == acc.minted
  {
    var d := if st.externalId != "" then DeleteDistributionOf(acc, a, req, st) else Out(acc, st, Done);
    if st.externalId != "" { DeleteDistributionTracks(acc, a, req, st); }
    assert forall arn :: Minted(d.account, arn) <==> Minted(acc, arn);
    DeleteCertificateTracks(d.account, a, d.status);
  }

  // ----- what a provider call creates -----

  // A distribution is created: the certificate is in order, and no id is
  // recorded, or the recorded one is gone.
  predicate CreatesDistribution(acc: Account, a: Answers, st: DistributionStatus, cert: Option<nat>) {
    && CertificateSucceeds(acc, a, st, cert) && OpCreate !in a.failing && Fresh(a.newId, acc.cf.Keys)
    && (st.externalId != "" ==> st.externalId !in acc.cf && OpGet !in a.failing)
  }

  lemma CreationCreates(acc: Account, a: Answers, req: Request, st: DistributionStatus)
    requires req.classSpec.cloudFront.Some? && !Taken(acc.cf, req.uid)
    ensures var out := CreateFor(acc, a, req, st);
      && out.account.acm == acc.acm && out.account.minted == acc.minted
      && forall id :: Owned(out.account.cf, req.uid, id) <==>
           Owned(acc.cf, req.uid, id) || (OpCreate !in a.failing && Fresh(a.newId, acc.cf.Keys) && id == a.newId)
  {
  }

  lemma SendCreatesNothing(acc: Account, a: Answers, uid: string, st: DistributionStatus,
                           id: string, config: Config, etag: nat)
    ensures var out := Send(acc, a, st, id, config, etag);
      && out.account.acm == acc.acm && out.account.minted == acc.minted
      && forall x :: Owned(out.account.cf, uid, x) <==> Owned(acc.cf, uid, x)
  {
  }

  lemma LiveCreatesNothing(acc: Account, a: Answers, req: Request, st: DistributionStatus)
    requires req.classSpec.cloudFront.Some? && req.recordedId in acc.cf && req.recordedId != ""
    ensures var out := ReconcileDistribution(acc, a, req, st);
      && out.account.acm == acc.acm && out.account.minted == acc.minted
      && forall id :: Owned(out.account.cf, req.uid, id) <==> Owned(acc.cf, req.uid, id)
  {
    var (acc', st', loaded) := Load(acc, a, req.recordedId, st);
    if loaded.Found? {
      var config := Desired(req.uid, req.spec, req.classSpec.cloudFront.value, st'.externalCertificateId, true);
      SendCreatesNothing(acc', a, req.uid, st', loaded.current.id, config, loaded.etag);
    }
  }

  lemma DistributionCreates(acc: Account, a: Answers, req: Request, st: DistributionStatus)
    requires req.classSpec.cloudFront.Some? && st.externalId == req.recordedId
    requires TracksDistribution(acc.cf, req.uid, st.externalId)
    ensures var out := ReconcileDistribution(acc, a, req, st);
      var creates := OpCreate !in a.failing && Fresh(a.newId, acc.cf.Keys) &&
                     (st.externalId != "" ==> st.externalId !in acc.cf && OpGet !in a.failing);
      && out.account.acm == acc.acm && out.account.minted == acc.minted
      && (forall id :: Owned(out.account.cf, req.uid, id) <==> Owned(acc.cf, req.uid, id) || (creates && id == a.newId))
  {
    if st.externalId in acc.cf {
      LiveCreatesNothing(acc, a, req, st);
    } else {
      NotTaken(acc.cf, req.uid, st.externalId);
      if st.externalId == "" {
        CreationCreates(acc, a, req, st);
      } else {
        var (acc', st', loaded) := Load(acc, a, req.recordedId, st);
        if loaded.Missing? { CreationCreates(acc', a, req, st'); }
      }
    }
  }

  lemma ReconcileCreates(acc: Account, a: Answers, req: Request, st: DistributionStatus)
    requires req.classSpec.cloudFront.Some? && st.externalId == req.recordedId && Tracks(acc, req.uid, st)
    ensures var out := CloudFront.Reconcile(acc, a, req, st);
      && (forall arn :: Minted(out.account, arn) <==>
            Minted(acc, arn) || (MintsCertificate(acc, a, st, req.cert) && arn == a.newArn))
      && (forall id :: Owned(out.account.cf, req.uid, id) <==>
            Owned(acc.cf, req.uid, id) || (CreatesDistribution(acc, a, st, req.cert) && id == a.newId))
  {
    CertificateCreates(acc, a, st, req.cert);
    var c := ReconcileCertificate(acc, a, st, req.cert);
    DistributionCreates(c.account, a, req, c.status);
  }

  // ----- passes -----

  // A pass creates a resource, or one under a name other than the recorded.
  predicate Creates(w: World, o: Object, i: Inputs) {
    || MintsCertificate(w.account, i.answers, o.status, CertificateOf(o, i))
    || CreatesDistribution(w.account, i.answers, o.status, CertificateOf(o, i))
  }

  predicate CreatesUnrecorded(w: World, o: Object, i: Inputs) {
    || (MintsCertificate(w.account, i.answers, o.status, CertificateOf(o, i)) &&
        i.answers.newArn != o.status.externalCertificateId)
    || (CreatesDistribution(w.account, i.answers, o.status, CertificateOf(o, i)) &&
        i.answers.newId != o.status.externalId)
  }

  ghost predicate ReconcileForgets(w: World, classSpec: DistributionClassSpec, i: Inputs)
    requires w.obj.Some?
  {
    var o := w.obj.value;
    if o.spec.tls.Some? && i.cert.None? then
      OpWriteStatus !in i.answers.failing && OwnsAnything(w.account, w.uid)
    else
      && classSpec.cloudFront.Some?
      && (|| (OpWriteStatus in i.answers.failing && CreatesUnrecorded(w, o, i))
          || (!o.finalizer && OpAddFinalizer in i.answers.failing && Creates(w, o, i)))
  }

  ghost predicate DeletionForgets(w: World, classSpec: DistributionClassSpec, i: Inputs)
    requires w.obj.Some?
  {
    && classSpec.cloudFront.None? && OwnsAnything(w.account, w.uid)
    && OpRemoveFinalizer !in i.answers.failing
    && (w.obj.value.status.ready ==> OpWriteStatus in i.answers.failing)
  }

  // The ways a pass forgets live resources. A reconcile resets the whole status
  // when the certificate cannot be loaded; or it creates something although
  // the finalizer could not be added, or the status cannot be written. A
  // deletion releases the finalizer for a class without a CloudFront block.
  ghost predicate Forgets(w: World, i: Inputs) {
    && w.obj.Some? && i.lookup.ClassFound?
    && if w.obj.value.deleting then DeletionForgets(w, i.lookup.classSpec, i)
       else ReconcileForgets(w, i.lookup.classSpec, i)
  }

  lemma NewPassAccount(w: World)
    requires NoOrphans(w)
    ensures NoOrphans(w.(account := w.account.(calls := [])))
    ensures OwnsAnything(w.account.(calls := []), w.uid) <==> OwnsAnything(w.account, w.uid)
  {
    var acc := w.account.(calls := []);
    assert forall arn :: Minted(acc, arn) <==> Minted(w.account, arn);
  }

  // Whether the status a pass started from still tracks everything after the
  // provider ran, and whether there is anything to track.
  lemma OldStatusTracksIff(w: World, o: Object, classSpec: DistributionClassSpec, i: Inputs)
    requires NoOrphans(w) && w.obj == Some(o) && classSpec.cloudFront.Some?
    ensures var req := Request(classSpec, o.uid, o.spec, o.status.externalId, CertificateOf(o, i));
      var out := CloudFront.Reconcile(w.account, i.answers, req, o.status.(ready := true));
      && Tracks(out.account, w.uid, out.status)
      && (Tracks(out.account, w.uid, o.status) <==> !CreatesUnrecorded(w, o, i))
      && (OwnsAnything(out.account, w.uid) <==> OwnsAnything(w.account, w.uid) || Creates(w, o, i))
      && (out.outcome.Panicked? ==> !Creates(w, o, i))
  {
    var req := Request(classSpec, o.uid, o.spec, o.status.externalId, CertificateOf(o, i));
    var st := o.status.(ready := true);
    ReconcileKeeps(w.account, i.answers, req, st);
    ReconcileCreates(w.account, i.answers, req, st);
    var out := CloudFront.Reconcile(w.account, i.answers, req, st);
    if MintsCertificate(w.account, i.answers, o.status, req.cert) {
      assert Minted(out.account, i.answers.newArn);
    }
    if CreatesDistribution(w.account, i.answers, o.status, req.cert) {
      assert Owned(out.account.cf, w.uid, i.answers.newId);
    }
  }

  lemma ResetOrphansIff(w: World, classSpec: DistributionClassSpec, i: Inputs)
    requires NoOrphans(w) && w.obj.Some? && !w.obj.value.deleting
    requires w.obj.value.spec.tls.Some? && i.cert.None?
    ensures NoOrphans(ReconcilePass(PROVIDERS, w, classSpec, i).world) <==> !ReconcileForgets(w, classSpec, i)
  {
    ReconcilePassShape(w, classSpec, i);
    if OpWriteStatus !in i.answers.failing {
      if id :| Owned(w.account.cf, w.uid, id) {
        assert !TracksDistribution(w.account.cf, w.uid, "");
      } else if arn :| Minted(w.account, arn) {
        assert !TracksCertificate(w.account, "");
      }
    }
  }

  lemma ReconcilePassNoOrphans(w: World, classSpec: DistributionClassSpec, i: Inputs)
    requires NoOrphans(w) && w.obj.Some? && !w.obj.value.deleting
    ensures NoOrphans(ReconcilePass(PROVIDERS, w, classSpec, i).world) <==> !ReconcileForgets(w, classSpec, i)
  {
    var o := w.obj.value;
    if o.spec.tls.Some? && i.cert.None? {
      ResetOrphansIff(w, classSpec, i);
    } else if classSpec.cloudFront.Some? {
      ReconcilePassShape(w, classSpec, i);
      assert RequestOf(o, classSpec, i) == Request(classSpec, o.uid, o.spec, o.status.externalId, CertificateOf(o, i));
      OldStatusTracksIff(w, o, classSpec, i);
    } else {
      ReconcilePassShape(w, classSpec, i);
    }
  }

  lemma DeletePassNoOrphans(w: World, classSpec: DistributionClassSpec, i: Inputs)
    requires NoOrphans(w) && w.obj.Some? && w.obj.value.deleting && w.obj.value.finalizer
    ensures NoOrphans(DeletePass(PROVIDERS, w, classSpec, i).world) <==> !DeletionForgets(w, classSpec, i)
  {
    var o := w.obj.value;
    var req, st := RequestOf(o, classSpec, i), o.status.(ready := false);
    DeleteKeeps(w.account, i.answers, req, st);
    DeletePassShape(w, classSpec, i);
    var out := Deleted(w, o, classSpec, i);
    assert forall arn :: Minted(out.account, arn) ==> Minted(w.account, arn);
    if IdsEmpty(out.status) && classSpec.cloudFront.Some? {
      assert forall id :: !Owned(out.account.cf, w.uid, id);
      assert forall arn :: !Minted(out.account, arn);
    }
  }

  // A pass keeps every live resource on record exactly when it does not
  // forget; any call and any write may fail.
  lemma PassNoOrphansIff(w: World, i: Inputs)
    requires NoOrphans(w)
    ensures NoOrphans(Pass(PROVIDERS, w, i).world) <==> !Forgets(w, i)
  {
    hide ReconcilePass, DeletePass, NoOrphans, OwnsAnything;
    NewPassAccount(w);
    var w0 := w.(account := w.account.(calls := []));
    if w.obj.Some? && i.lookup.ClassFound? {
      if !w.obj.value.deleting {
        ReconcilePassNoOrphans(w0, i.lookup.classSpec, i);
      } else if w.obj.value.finalizer {
        DeletePassNoOrphans(w0, i.lookup.classSpec, i);
      } else {
        assert !OwnsAnything(w.account, w.uid);
      }
    }
  }

  lemma OtherStepNoOrphans(w: World, s: Step)
    requires NoOrphans(w) && !s.ControllerPass?
    ensures NoOrphans(Next(w, s))
  {
    var w' := Next(w, s);
    assert forall id :: Owned(w'.account.cf, w.uid, id) ==> Owned(w.account.cf, w.uid, id);
    assert forall arn :: Minted(w'.account, arn) ==> Minted(w.account, arn);
    assert OwnsAnything(w'.account, w.uid) ==> OwnsAnything(w.account, w.uid);
  }

  ghost predicate AlwaysNoOrphans(w: World, steps: seq<Step>)
    decreases steps
  {
    NoOrphans(w) && (steps != [] ==> AlwaysNoOrphans(Next(w, steps[0]), steps[1..]))
  }

  ghost predicate SometimeForgets(w: World, steps: seq<Step>)
    decreases steps
  {
    steps != [] &&
    ((steps[0].ControllerPass? && Forgets(w, steps[0].inputs)) || SometimeForgets(Next(w, steps[0]), steps[1..]))
  }

  // Over every run, whatever calls fail, resources vanish or are tampered with,
  // specs and secrets change and whenever deletion is asked for: nothing live
  // is ever off the record exactly when no pass forgets.
  lemma {:induction false} NoOrphansOverRuns(w: World, steps: seq<Step>)
    requires NoOrphans(w)
    ensures AlwaysNoOrphans(w, steps) <==> !SometimeForgets(w, steps)
    decreases steps
  {
    if steps == [] {
    } else {
      var s, rest, w' := steps[0], steps[1..], Next(w, steps[0]);
      if s.ControllerPass? { PassNoOrphansIff(w, s.inputs); } else { OtherStepNoOrphans(w, s); }
      if NoOrphans(w') { NoOrphansOverRuns(w', rest); }
    }
  }

  // When the API server accepts every write, only two ways of forgetting are
  // left.
  lemma ForgetsWhenWritesLand(w: World, i: Inputs)
    requires w.obj.Some? && i.lookup.ClassFound? && NoOrphans(w)
    requires OpAddFinalizer !in i.answers.failing && OpWriteStatus !in i.answers.failing
    ensures var o := w.obj.value;
      Forgets(w, i) <==>
        && OwnsAnything(w.account, w.uid)
        && (|| (!o.deleting && o.spec.tls.Some? && i.cert.None?)
            || (o.deleting && i.lookup.classSpec.cloudFront.None? && !o.status.ready
                && OpRemoveFinalizer !in i.answers.failing))
  {
  }

  // Forgetting happens: a live distribution on record, and a secret that cannot
  // be read.
  lemma ResetForgets(config: Config, o: Object, i: Inputs)
    requires config.callerReference == "uid" && i.cert.None? && i.lookup.ClassFound? && i.answers.failing == {}
    requires o.uid == "uid" && o.finalizer && !o.deleting && o.spec.tls.Some? && o.status.externalId == "E1"
    ensures var w := World("uid", Some(o), Account(map["E1" := Live(config, true, 0, "d")], map[], {}, []));
      NoOrphans(w) && Forgets(w, i) && !NoOrphans(Next(w, ControllerPass(i)))
  {
    var w := World("uid", Some(o), Account(map["E1" := Live(config, true, 0, "d")], map[], {}, []));
    assert Owned(w.account.cf, "uid", "E1");
    assert NoOrphans(w);
    PassNoOrphansIff(w, i);
  }

  // The lost distribution can be found again; but if deletion was asked for
  // meanwhile, the object goes and the distribution stays.
  lemma ResetThenDeletionLeavesIt(config: Config, o: Object, i: Inputs, j: Inputs)
    requires config.callerReference == "uid" && i.cert.None? && i.lookup.ClassFound? && i.answers.failing == {}
    requires o.uid == "uid" && o.finalizer && !o.deleting && o.spec.tls.Some? && o.status.externalId == "E1"
    requires j.lookup.ClassFound? && j.answers.failing == {}
    ensures var w := World("uid", Some(o), Account(map["E1" := Live(config, true, 0, "d")], map[], {}, []));
      var end := Run(w, [ControllerPass(i), AskDeletion, ControllerPass(j)]);
      end.obj.None? && Owned(end.account.cf, "uid", "E1")
  {
    var w := World("uid", Some(o), Account(map["E1" := Live(config, true, 0, "d")], map[], {}, []));
    var w1 := Next(w, ControllerPass(i));
    assert w1.obj.Some? && w1.obj.value.status == EMPTY_STATUS && w1.obj.value.finalizer;
    var w2 := Next(w1, AskDeletion);
    Teardown.ReleaseIff(w2, j);
    var w3 := Next(w2, ControllerPass(j));
    assert Run(w3, []) == w3;
    assert Run(w2, [ControllerPass(j)]) == w3;
    assert Run(w1, [AskDeletion, ControllerPass(j)]) == w3 by {
      assert [AskDeletion, ControllerPass(j)][1..] == [ControllerPass(j)];
    }
    assert [ControllerPass(i), AskDeletion, ControllerPass(j)][1..] == [AskDeletion, ControllerPass(j)];
  }

  // A deletion whose class has no CloudFront block: the object goes, and its
  // distribution stays live.
  lemma ReleaseForgets(config: Config, o: Object, i: Inputs)
    requires config.callerReference == "uid"
    requires i.lookup == ClassFound(DistributionClassSpec(None)) && i.answers.failing == {}
    requires o.uid == "uid" && o.finalizer && o.deleting && o.status.externalId == "E1" && !o.status.ready
    ensures var w := World("uid", Some(o), Account(map["E1" := Live(config, true, 0, "d")], map[], {}, []));
      var w' := Next(w, ControllerPass(i));
      NoOrphans(w) && Forgets(w, i) && !NoOrphans(w') && w'.obj.None? && Owned(w'.account.cf, "uid", "E1")
  {
    var w := World("uid", Some(o), Account(map["E1" := Live(config, true, 0, "d")], map[], {}, []));
    assert Owned(w.account.cf, "uid", "E1");
    assert NoOrphans(w);
    PassNoOrphansIff(w, i);
    Teardown.ReleaseIff(w, i);
  }

  // The first pass over a new object, with a status write that fails: a
  // certificate and a distribution are live and off the record, the certificate
  // for good.
  lemma UnwrittenCreationForgets(o: Object, i: Inputs)
    requires o.uid == "uid" && o.finalizer && !o.deleting && o.spec.tls.Some? && o.status == EMPTY_STATUS
    requires i.lookup.ClassFound? && i.lookup.classSpec.cloudFront.Some? && i.cert.Some?
    requires i.answers.failing == {OpWriteStatus} && i.answers.newArn != "" && i.answers.newId != ""
    ensures var w := World("uid", Some(o), Account(map[], map[], {}, []));
      var w' := Next(w, ControllerPass(i));
      && NoOrphans(w) && Forgets(w, i) && !NoOrphans(w')
      && Owned(w'.account.cf, "uid", i.answers.newId) && Leaked(w', i.answers.newArn)
  {
    var w := World("uid", Some(o), Account(map[], map[], {}, []));
    assert NoOrphans(w);
    PassNoOrphansIff(w, i);
    var req, st := RequestOf(o, i.lookup.classSpec, i), o.status.(ready := true);
    ReconcileCreates(w.account, i.answers, req, st);
    var out := Reconciled(w, o, i.lookup.classSpec, i);
    assert Minted(out.account, i.answers.newArn) && Owned(out.account.cf, "uid", i.answers.newId);
    ReconcilePassShape(w, i.lookup.classSpec, i);
  }

  // ----- teardown leaves nothing behind -----

  lemma RoundNoOrphans(w: World, i: Inputs)
    requires NoOrphans(w) && Teardown.TearingDown(w)
    requires i.lookup.ClassFound? && i.lookup.classSpec.cloudFront.Some?
    ensures NoOrphans(Round(w, i))
  {
    var d := DeployAll(w);
    assert forall id :: Owned(d.account.cf, w.uid, id) <==> Owned(w.account.cf, w.uid, id);
    assert forall arn :: Minted(d.account, arn) <==> Minted(w.account, arn);
    assert OwnsAnything(d.account, w.uid) <==> OwnsAnything(w.account, w.uid);
    PassNoOrphansIff(d, i);
  }

  // Four undisturbed rounds after deletion was asked for, the object is gone
  // and nothing it owned is live.
  lemma {:induction false} NothingLeftAfterTeardown(w: World, inputs: seq<Inputs>)
    requires NoOrphans(w) && Teardown.TearingDown(w) && |inputs| >= Teardown.RoundsLeft(w)
    requires forall k :: 0 <= k < |inputs| ==>
               && inputs[k].lookup.ClassFound? && inputs[k].lookup.classSpec.cloudFront.Some?
               && inputs[k].answers.failing == {}
    ensures Teardown.RoundsLeft(w) <= 4
    ensures var end := Rounds(w, inputs); end.obj.None? && !OwnsAnything(end.account, w.uid)
    decreases inputs
  {
    Teardown.GoneWithinFourRounds(w, inputs);
    if inputs == [] {
    } else {
      var rest, w' := inputs[1..], Round(w, inputs[0]);
      assert forall k :: 0 <= k < |rest| ==> rest[k] == inputs[k + 1];
      RoundNoOrphans(w, inputs[0]);
      if w.obj.Some? { Teardown.RoundShrinks(w, inputs[0]); }
      assert Teardown.TearingDown(w') && w'.uid == w.uid;
      NothingLeftAfterTeardown(w', rest);
    }
  }
}

// What the CloudFront provider does to the account and to the status it is
// handed: certificate first, then distribution; the reverse on deletion.
module CloudFront {
  import opened Types
  import opened DistributionConfig
  import opened Aws
  import Serial
  import DistributionId

  // `Panicked`: a nil certificate was dereferenced.
  datatype Outcome = Done | Failed | Panicked

  datatype Out = Out(account: Account, status: DistributionStatus, outcome: Outcome)

  // The arguments a provider gets by value; `cert` is the serial of the
  // resolved certificate, if any was resolved.
  datatype Request = Request(
    classSpec: DistributionClassSpec,
    uid: string,
    spec: DistributionSpec,
    recordedId: string,
    cert: Option<nat>)

  // ----- certificate -----

  function ImportFor(acc: Account, a: Answers, st: DistributionStatus, cert: Option<nat>): Out {
    if cert.None? then Out(acc, st, Panicked)
    else
      var into := StringOrNil(st.externalCertificateId);
      var (acc', r) := DoImport(acc, a, into, cert.value);
      if r.Err? then Out(acc', st, Failed) else Out(acc', st.(externalCertificateId := r.value), Done)
  }

  function CheckCertificate(acc: Account, a: Answers, st: DistributionStatus, cert: Option<nat>): Out {
    var (acc', r) := DoDescribe(acc, a, st.externalCertificateId);
    if r == Err(NotFound) then ImportFor(acc', a, st.(externalCertificateId := ""), cert)
    else if r.Err? then Out(acc', st, Failed)
    else if cert.None? then Out(acc', st, Panicked)
    else if Serial.GetSerial(cert.value) != r.value then ImportFor(acc', a, st, cert)
    else Out(acc', st, Done)
  }

  function ReconcileCertificate(acc: Account, a: Answers, st: DistributionStatus, cert: Option<nat>): Out {
    if st.externalCertificateId != "" then CheckCertificate(acc, a, st, cert) else ImportFor(acc, a, st, cert)
  }

  function DeleteCertificateOf(acc: Account, a: Answers, st: DistributionStatus): Out {
    var (acc', r) := DoDeleteCertificate(acc, a, st.externalCertificateId);
    if r.Err? && r.error != NotFound then Out(acc', st, Failed)
    else Out(acc', st.(externalCertificateId := ""), Done)
  }

  // ----- distribution -----

  function SetStatus(st: DistributionStatus, d: Description): DistributionStatus {
    st.(externalStatus := d.status, externalId := d.id, endpoints := Some([d.domain]), ready := d.status == DEPLOYED)
  }

  datatype Loaded = Missing | LoadFailed | Found(current: Description, etag: nat)

  function Load(acc: Account, a: Answers, id: string, st: DistributionStatus): (Account, DistributionStatus, Loaded) {
    var (acc', r) := DoGet(acc, a, id);
    if r == Err(NotFound) then
      (acc', st.(externalId := "", externalStatus := "Unknown", endpoints := Some([])), Missing)
    else if r.Err? then (acc', st.(externalStatus := "Unknown"), LoadFailed)
    else (acc', SetStatus(st, r.value.0), Found(r.value.0, r.value.1))
  }

  function Send(acc: Account, a: Answers, st: DistributionStatus, id: string, config: Config, etag: nat): Out {
    var (acc', r) := DoUpdate(acc, a, id, config, etag);
    if r.Err? then Out(acc', st, Failed) else Out(acc', SetStatus(st, r.value.0), Done)
  }

  function CreateFor(acc: Account, a: Answers, req: Request, st: DistributionStatus): Out
    requires req.classSpec.cloudFront.Some?
  {
    var config := Desired(req.uid, req.spec, req.classSpec.cloudFront.value, st.externalCertificateId, true);
    var (acc', r) := DoCreate(acc, a, config);
    if r.Ok? then Out(acc', SetStatus(st, r.value), Done)
    else
      var id := if r.error.AlreadyExists? then DistributionId.FindId(r.error.message) else st.externalId;
      Out(acc', st.(externalId := id, externalStatus := "Unknown"), Failed)
  }

  function CheckDistribution(acc: Account, a: Answers, req: Request, st: DistributionStatus): Out
    requires req.classSpec.cloudFront.Some?
  {
    var (acc', st', loaded) := Load(acc, a, req.recordedId, st);
    if loaded.LoadFailed? then Out(acc', st', Failed)
    else if loaded.Missing? then CreateFor(acc', a, req, st')
    else
      var config := Desired(req.uid, req.spec, req.classSpec.cloudFront.value, st'.externalCertificateId, true);
      if config == Normalised(loaded.current.config) then Out(acc', st', Done)
      else Send(acc', a, st', loaded.current.id, config, loaded.etag)
  }

  function ReconcileDistribution(acc: Account, a: Answers, req: Request, st: DistributionStatus): Out
    requires req.classSpec.cloudFront.Some?
  {
    if req.recordedId != "" then CheckDistribution(acc, a, req, st) else CreateFor(acc, a, req, st)
  }

  function DeleteDistributionOf(acc: Account, a: Answers, req: Request, st: DistributionStatus): Out {
    var (acc', st', loaded) := Load(acc, a, req.recordedId, st);
    if loaded.LoadFailed? then Out(acc', st', Failed)
    else if loaded.Missing? then Out(acc', st', Done)
    else if loaded.current.config.enabled then
      Send(acc', a, st', loaded.current.id, loaded.current.config.(enabled := false), loaded.etag)
    else if loaded.current.status == IN_PROGRESS then Out(acc', st', Done)
    else
      var (acc'', r) := DoDelete(acc', a, loaded.current.id, loaded.etag);
      if r.Err? then Out(acc'', st', Failed)
      else Out(acc'', st'.(externalId := "", endpoints := Some([])), Done)
  }

  // ----- the provider -----

  function Reconcile(acc: Account, a: Answers, req: Request, st: DistributionStatus): Out
    requires req.classSpec.cloudFront.Some?
  {
    var c := ReconcileCertificate(acc, a, st, req.cert);
    if c.outcome.Done? then ReconcileDistribution(c.account, a, req, c.status) else c
  }

  function Delete(acc: Account, a: Answers, req: Request, st: DistributionStatus): Out {
    var d := if st.externalId != "" then DeleteDistributionOf(acc, a, req, st) else Out(acc, st, Done);
    if !d.outcome.Done? || d.status.externalId != "" then d
    else DeleteCertificateOf(d.account, a, d.status)
  }
}

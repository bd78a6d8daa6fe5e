// The provider objects, step by step as they update the status they share.
// Every method is proved to do what the functions of CloudFront say.
module Providers {
  import opened Types
  import opened DistributionConfig
  import opened StringSort
  import opened Aws
  import opened CloudFront
  import opened Clients
  import Methods
  import Serial
  import DistributionId

  class CertificateProvider {
    const client: AwsSession
    const status: StatusObject
    const certificate: Option<nat>

    constructor (client: AwsSession, status: StatusObject, certificate: Option<nat>)
      ensures this.client == client && this.status == status && this.certificate == certificate
    {
      this.client, this.status, this.certificate := client, status, certificate;
    }

    method Create() returns (outcome: Outcome)
      modifies client, status
      ensures Out(client.account, status.Value(), outcome) ==
              ImportFor(old(client.account), client.answers, old(status.Value()), certificate)
    {
      var arn := None;
      if status.externalCertificateId != "" {
        arn := Some(status.externalCertificateId);
      }
      if certificate.None? {
        return Panicked;
      }
      var r := client.ImportCertificate(arn, certificate.value);
      if r.Err? {
        return Failed;
      }
      status.externalCertificateId := r.value;
      return Done;
    }

    method Check() returns (outcome: Outcome)
      modifies client, status
      ensures Out(client.account, status.Value(), outcome) ==
              CheckCertificate(old(client.account), client.answers, old(status.Value()), certificate)
    {
      var r := client.DescribeCertificate(status.externalCertificateId);
      if r == Err(NotFound) {
        status.externalCertificateId := "";
        outcome := Create();
        return;
      } else if r.Err? {
        return Failed;
      }
      if certificate.None? {
        return Panicked;
      }
      if Serial.GetSerial(certificate.value) != r.value {
        outcome := Create();
        return;
      }
      return Done;
    }

    method Reconcile() returns (outcome: Outcome)
      modifies client, status
      ensures Out(client.account, status.Value(), outcome) ==
              ReconcileCertificate(old(client.account), client.answers, old(status.Value()), certificate)
    {
      if status.externalCertificateId != "" {
        outcome := Check();
      } else {
        outcome := Create();
      }
    }

    method Delete() returns (outcome: Outcome)
      modifies client, status
      ensures Out(client.account, status.Value(), outcome) ==
              DeleteCertificateOf(old(client.account), client.answers, old(status.Value()))
    {
      var r := client.DeleteCertificate(status.externalCertificateId);
      if r == Err(NotFound) {
        status.externalCertificateId := "";
        return Done;
      } else if r.Err? {
        return Failed;
      }
      status.externalCertificateId := "";
      return Done;
    }
  }

  class DistributionProvider {
    const client: AwsSession
    const distribution: DistroCopy
    const classSpec: CloudFrontSpec
    const status: StatusObject
    var currentState: DistributionObject?
    var desiredState: ConfigObject?

    constructor (client: AwsSession, classSpec: CloudFrontSpec, distribution: DistroCopy, status: StatusObject)
      ensures this.client == client && this.classSpec == classSpec
      ensures this.distribution == distribution && this.status == status
    {
      this.client, this.classSpec, this.distribution, this.status := client, classSpec, distribution, status;
      currentState, desiredState := null, null;
    }

    // The arguments as a request; the distribution code does not look at the
    // certificate.
    ghost function Req(): Request
      reads distribution.hosts
    {
      Request(DistributionClassSpec(Some(classSpec)), distribution.uid, distribution.Spec(),
              distribution.status.externalId, None)
    }

    // Sorts the shared array of hosts before copying it.
    method CalculateAliases() returns (aliases: Option<seq<string>>)
      modifies distribution.hosts
      ensures aliases == Aliases(old(distribution.hosts[..]))
      ensures distribution.hosts[..] == Sorted(old(distribution.hosts[..]))
    {
      SortInPlace(distribution.hosts);
      aliases := None;
      SortedLength(old(distribution.hosts[..]));
      if distribution.hosts.Length > 0 {
        aliases := Some(distribution.hosts[..]);
      }
    }

    method GenerateDistributionConfig(enabled: bool)
      modifies this`desiredState, distribution.hosts
      ensures desiredState != null && fresh(desiredState)
      ensures desiredState.Value() ==
              Desired(distribution.uid, old(distribution.Spec()), classSpec, status.externalCertificateId, enabled)
      ensures distribution.hosts[..] == Sorted(old(distribution.hosts[..]))
    {
      var allowed, cached := Methods.CalculateMethods(classSpec.supportedMethods);
      var origin := distribution.origin;
      var aliases := CalculateAliases();
      var behavior := CacheBehavior(origin.host, ViewerPolicy(distribution.tls),
        StringOrNil(classSpec.cachePolicyId), StringOrNil(classSpec.originRequestPolicyId),
        Forwarded(classSpec), Ttl(classSpec, 0), Ttl(classSpec, 31536000), Ttl(classSpec, 86400), allowed, cached);
      desiredState := new ConfigObject(Config(distribution.uid, enabled,
        OriginConfig(origin.host, origin.host, origin.httpPort, origin.httpsPort), aliases,
        CertificateFor(status.externalCertificateId, classSpec.sslMode), behavior, FIXED));
    }

    method SetStatus()
      requires currentState != null
      modifies status
      ensures status.Value() == CloudFront.SetStatus(old(status.Value()), old(currentState.Value()))
    {
      status.externalStatus := currentState.status;
      status.externalId := currentState.id;
      status.endpoints := Some([currentState.domain]);
      status.ready := currentState.status == DEPLOYED;
    }

    method Load() returns (loaded: Loaded)
      modifies this`currentState, client, status
      ensures (client.account, status.Value(), loaded) ==
              CloudFront.Load(old(client.account), client.answers, distribution.status.externalId, old(status.Value()))
      ensures loaded.Found? ==>
                currentState != null && fresh(currentState) && fresh(currentState.config) &&
                currentState.Value() == loaded.current
    {
      var r, d := client.GetDistribution(distribution.status.externalId);
      if r == Err(NotFound) {
        status.externalId := "";
        status.externalStatus := "Unknown";
        status.endpoints := Some([]);
        return Missing;
      } else if r.Err? {
        status.externalStatus := "Unknown";
        return LoadFailed;
      } else {
        currentState := d;
        SetStatus();
        return Found(r.value.0, r.value.1);
      }
    }

    method Update(etag: nat) returns (outcome: Outcome)
      requires currentState != null && desiredState != null
      modifies this`currentState, client, status
      ensures Out(client.account, status.Value(), outcome) ==
              Send(old(client.account), client.answers, old(status.Value()), old(currentState.id),
                   old(desiredState.Value()), etag)
    {
      var r, d := client.UpdateDistribution(currentState.id, desiredState, etag);
      if r.Err? {
        return Failed;
      } else {
        currentState := d;
        SetStatus();
        return Done;
      }
    }

    // Replaces the loaded aliases by a sorted copy.
    method NormaliseAliases()
      requires currentState != null
      modifies currentState.config
      ensures currentState.config.Value() == Normalised(old(currentState.config.Value()))
    {
      var items := Items(currentState.config.aliases);
      var hosts := new string[|items|];
      for idx := 0 to |items|
        invariant hosts[..idx] == items[..idx]
        invariant currentState.config.Value() == old(currentState.config.Value())
      {
        hosts[idx] := items[idx];
        assert hosts[..idx + 1] == hosts[..idx] + [items[idx]] && items[..idx + 1] == items[..idx] + [items[idx]];
      }
      assert hosts[..] == hosts[..|items|] == items[..|items|] == items;
      SortInPlace(hosts);
      currentState.config.aliases := Some(hosts[..]);
    }

    method Create() returns (outcome: Outcome)
      modifies this`currentState, this`desiredState, client, status, distribution.hosts
      ensures Out(client.account, status.Value(), outcome) ==
              CreateFor(old(client.account), client.answers, old(Req()), old(status.Value()))
      ensures distribution.hosts[..] == Sorted(old(distribution.hosts[..]))
    {
      GenerateDistributionConfig(true);
      var r, d := client.CreateDistribution(desiredState);
      if r.Err? {
        if r.error.AlreadyExists? {
          status.externalId := DistributionId.FindId(r.error.message);
        }
        status.externalStatus := "Unknown";
        return Failed;
      }
      currentState := d;
      SetStatus();
      return Done;
    }

    method Check() returns (outcome: Outcome)
      modifies this`currentState, this`desiredState, client, status, distribution.hosts
      ensures Out(client.account, status.Value(), outcome) ==
              CheckDistribution(old(client.account), client.answers, old(Req()), old(status.Value()))
      ensures distribution.hosts[..] in {old(distribution.hosts[..]), Sorted(old(distribution.hosts[..]))}
    {
      var loaded := Load();
      if loaded.LoadFailed? {
        return Failed;
      }
      if loaded.Missing? {
        outcome := Create();
        return;
      }
      GenerateDistributionConfig(true);
      NormaliseAliases();
      if desiredState.Value() == currentState.config.Value() {
        return Done;
      }
      outcome := Update(loaded.etag);
    }

    method Reconcile() returns (outcome: Outcome)
      modifies this`currentState, this`desiredState, client, status, distribution.hosts
      ensures Out(client.account, status.Value(), outcome) ==
              ReconcileDistribution(old(client.account), client.answers, old(Req()), old(status.Value()))
      ensures distribution.hosts[..] in {old(distribution.hosts[..]), Sorted(old(distribution.hosts[..]))}
    {
      if distribution.status.externalId != "" {
        outcome := Check();
      } else {
        outcome := Create();
      }
    }

    method Delete() returns (outcome: Outcome)
      modifies this`currentState, this`desiredState, client, status
      ensures Out(client.account, status.Value(), outcome) ==
              DeleteDistributionOf(old(client.account), client.answers, Req(), old(status.Value()))
    {
      var loaded := Load();
      if loaded.LoadFailed? {
        return Failed;
      } else if loaded.Missing? {
        return Done;
      }
      if currentState.config.enabled {
        // The desired state is the current one: the same object.
        desiredState := currentState.config;
        desiredState.enabled := false;
        assert desiredState.Value() == loaded.current.config.(enabled := false);
        outcome := Update(loaded.etag);
        return;
      }
      if currentState.status == IN_PROGRESS {
        return Done;
      }
      var r := client.DeleteDistribution(currentState.id, loaded.etag);
      if r.Err? {
        return Failed;
      }
      status.externalId := "";
      status.endpoints := Some([]);
      return Done;
    }
  }

  lemma CertificateIgnored(acc: Account, a: Answers, req: Request, st: DistributionStatus, cert: Option<nat>)
    requires req.classSpec.cloudFront.Some?
    ensures ReconcileDistribution(acc, a, req.(cert := cert), st) == ReconcileDistribution(acc, a, req, st)
    ensures DeleteDistributionOf(acc, a, req.(cert := cert), st) == DeleteDistributionOf(acc, a, req, st)
  {
  }

  // CloudFrontProvider.Reconcile
  method ReconcileCloudFront(session: AwsSession, classSpec: CloudFrontSpec, distro: DistroCopy, cert: Option<nat>,
                             status: StatusObject)
    returns (outcome: Outcome)
    modifies session, status, distro.hosts
    ensures var req := Request(DistributionClassSpec(Some(classSpec)), distro.uid, old(distro.Spec()),
                               distro.status.externalId, cert);
      Out(session.account, status.Value(), outcome) ==
      CloudFront.Reconcile(old(session.account), session.answers, req, old(status.Value()))
    ensures distro.hosts[..] in {old(distro.hosts[..]), Sorted(old(distro.hosts[..]))}
  {
    var certificates := new CertificateProvider(session, status, cert);
    outcome := certificates.Reconcile();
    if !outcome.Done? {
      return;
    }
    var distributions := new DistributionProvider(session, classSpec, distro, status);
    CertificateIgnored(session.account, session.answers, distributions.Req(), status.Value(), cert);
    outcome := distributions.Reconcile();
  }

  // CloudFrontProvider.Delete
  method DeleteCloudFront(session: AwsSession, classSpec: CloudFrontSpec, distro: DistroCopy, status: StatusObject)
    returns (outcome: Outcome)
    modifies session, status
    ensures var req := Request(DistributionClassSpec(Some(classSpec)), distro.uid, distro.Spec(),
                               distro.status.externalId, None);
      Out(session.account, status.Value(), outcome) ==
      CloudFront.Delete(old(session.account), session.answers, req, old(status.Value()))
  {
    if status.externalId != "" {
      var distributions := new DistributionProvider(session, classSpec, distro, status);
      outcome := distributions.Delete();
      if !outcome.Done? {
        return;
      }
    }
    // While the distribution is there its certificate cannot go.
    if status.externalId != "" {
      return Done;
    }
    var certificates := new CertificateProvider(session, status, None);
    outcome := certificates.Delete();
  }
}

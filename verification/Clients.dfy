// Heap objects the provider code works on, and the two remote clients. The
// clients' methods are the store functions of Aws and ApiServer, applied to a
// field.
module Clients {
  import opened Types
  import opened DistributionConfig
  import opened Aws
  import opened ApiServer

  // *DistributionStatus
  class StatusObject {
    var ready: bool
    var endpoints: Option<seq<string>>
    var externalId: string
    var externalCertificateId: string
    var externalStatus: string

    function Value(): DistributionStatus
      reads this
    {
      DistributionStatus(ready, endpoints, externalId, externalCertificateId, externalStatus)
    }

    constructor (st: DistributionStatus)
      ensures Value() == st
    {
      ready, endpoints := st.ready, st.endpoints;
      externalId, externalCertificateId, externalStatus := st.externalId, st.externalCertificateId, st.externalStatus;
    }

    method Assign(st: DistributionStatus)
      modifies this
      ensures Value() == st
    {
      ready, endpoints := st.ready, st.endpoints;
      externalId, externalCertificateId, externalStatus := st.externalId, st.externalCertificateId, st.externalStatus;
    }
  }

  // *cloudfront.DistributionConfig
  class ConfigObject {
    const callerReference: string
    var enabled: bool
    const origin: OriginConfig
    var aliases: Option<seq<string>>
    const viewerCertificate: ViewerCertificate
    const behavior: CacheBehavior
    const fixed: string

    function Value(): Config
      reads this
    {
      Config(callerReference, enabled, origin, aliases, viewerCertificate, behavior, fixed)
    }

    constructor (c: Config)
      ensures Value() == c
    {
      callerReference, enabled, origin, aliases := c.callerReference, c.enabled, c.origin, c.aliases;
      viewerCertificate, behavior, fixed := c.viewerCertificate, c.behavior, c.fixed;
    }
  }

  // *cloudfront.Distribution
  class DistributionObject {
    const id: string
    const status: string
    const domain: string
    const config: ConfigObject

    function Value(): Description
      reads this, config
    {
      Description(id, status, domain, config.Value())
    }

    constructor (d: Description)
      ensures Value() == d && fresh(config)
    {
      id, status, domain := d.id, d.status, d.domain;
      config := new ConfigObject(d.config);
    }
  }

  // An api.Distribution passed by value: copies share the array of hosts.
  datatype DistroCopy = DistroCopy(
    uid: string,
    version: nat,
    meta: Metadata,
    finalizer: bool,
    deleting: bool,
    classRef: ObjectReference,
    origin: Origin,
    hosts: array<string>,
    tls: Option<TlsSpec>,
    status: DistributionStatus)
  {
    function Spec(): DistributionSpec
      reads hosts
    {
      DistributionSpec(classRef, origin, hosts[..], tls)
    }

    function Value(): Object
      reads hosts
    {
      Object(uid, version, meta, finalizer, deleting, Spec(), status)
    }
  }

  method CopyOf(o: Object) returns (d: DistroCopy)
    ensures fresh(d.hosts) && d.Value() == o
  {
    var hosts := new string[|o.spec.hosts|](i requires 0 <= i < |o.spec.hosts| => o.spec.hosts[i]);
    d := DistroCopy(o.uid, o.version, o.meta, o.finalizer, o.deleting, o.spec.classRef, o.spec.origin, hosts,
                    o.spec.tls, o.status);
    assert hosts[..] == o.spec.hosts;
  }

  class AwsSession {
    var account: Account
    const answers: Answers

    constructor (account: Account, answers: Answers)
      ensures this.account == account && this.answers == answers
    {
      this.account, this.answers := account, answers;
    }

    // A session starts with an empty log.
    method Renew()
      modifies this
      ensures account == old(account).(calls := [])
    {
      account := account.(calls := []);
    }

    method GetDistribution(id: string) returns (r: Response<(Description, nat)>, d: DistributionObject?)
      modifies this
      ensures (account, r) == DoGet(old(account), answers, id)
      ensures r.Ok? ==> d != null && fresh(d) && fresh(d.config) && d.Value() == r.value.0
    {
      var (acc, res) := DoGet(account, answers, id);
      account, r, d := acc, res, null;
      if r.Ok? { d := new DistributionObject(r.value.0); }
    }

    method UpdateDistribution(id: string, config: ConfigObject, etag: nat)
      returns (r: Response<(Description, nat)>, d: DistributionObject?)
      modifies this
      ensures (account, r) == DoUpdate(old(account), answers, id, config.Value(), etag)
      ensures r.Ok? ==> d != null && fresh(d) && fresh(d.config) && d.Value() == r.value.0
    {
      var (acc, res) := DoUpdate(account, answers, id, config.Value(), etag);
      account, r, d := acc, res, null;
      if r.Ok? { d := new DistributionObject(r.value.0); }
    }

    method CreateDistribution(config: ConfigObject) returns (r: Response<Description>, d: DistributionObject?)
      modifies this
      ensures (account, r) == DoCreate(old(account), answers, config.Value())
      ensures r.Ok? ==> d != null && fresh(d) && fresh(d.config) && d.Value() == r.value
    {
      var (acc, res) := DoCreate(account, answers, config.Value());
      account, r, d := acc, res, null;
      if r.Ok? { d := new DistributionObject(r.value); }
    }

    method DeleteDistribution(id: string, etag: nat) returns (r: Response<()>)
      modifies this
      ensures (account, r) == DoDelete(old(account), answers, id, etag)
    {
      var (acc, res) := DoDelete(account, answers, id, etag);
      account, r := acc, res;
    }

    method DescribeCertificate(arn: string) returns (r: Response<string>)
      modifies this
      ensures (account, r) == DoDescribe(old(account), answers, arn)
    {
      var (acc, res) := DoDescribe(account, answers, arn);
      account, r := acc, res;
    }

    method ImportCertificate(into: Option<string>, serial: nat) returns (r: Response<string>)
      modifies this
      ensures (account, r) == DoImport(old(account), answers, into, serial)
    {
      var (acc, res) := DoImport(account, answers, into, serial);
      account, r := acc, res;
    }

    method DeleteCertificate(arn: string) returns (r: Response<()>)
      modifies this
      ensures (account, r) == DoDeleteCertificate(old(account), answers, arn)
    {
      var (acc, res) := DoDeleteCertificate(account, answers, arn);
      account, r := acc, res;
    }
  }

  // The API server, for one object.
  class ApiClient {
    var stored: Option<Object>
    const failing: set<Op>

    constructor (stored: Option<Object>, failing: set<Op>)
      ensures this.stored == stored && this.failing == failing
    {
      this.stored, this.failing := stored, failing;
    }

    method Get() returns (found: bool, d: DistroCopy)
      ensures found <==> stored.Some?
      ensures found ==> fresh(d.hosts) && d.Value() == stored.value
    {
      if stored.Some? {
        d := CopyOf(stored.value);
        return true, d;
      }
      var none := new string[0];
      return false, DistroCopy("", 0, Metadata("", "", map[], []), false, false, ObjectReference("", ""),
                               Origin("", 0, 0), none, None, EMPTY_STATUS);
    }

    // On success the local copy takes on what the server answers.
    method Update(local: DistroCopy, op: Op) returns (local': DistroCopy)
      modifies this
      ensures stored == ApiServer.Update(old(stored), local.Value(), op in failing)
      ensures if Accepted(old(stored), local.Value(), op in failing) && stored.Some?
              then fresh(local'.hosts) && local'.Value() == stored.value
              else local' == local
    {
      var accepted := Accepted(stored, local.Value(), op in failing);
      stored := ApiServer.Update(stored, local.Value(), op in failing);
      local' := local;
      if accepted && stored.Some? { local' := CopyOf(stored.value); }
    }

    method UpdateStatus(local: DistroCopy, op: Op)
      modifies this
      ensures stored == ApiServer.UpdateStatus(old(stored), local.Value(), op in failing)
    {
      stored := ApiServer.UpdateStatus(stored, local.Value(), op in failing);
    }
  }
}

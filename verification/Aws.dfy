// The external stores: CloudFront distributions and ACM certificates of one
// account. Every operation is total; `Answers` holds what the services are
// free to choose.
module Aws {
  import opened Types
  import opened DistributionConfig
  import Serial

  const DEPLOYED := "Deployed"
  const IN_PROGRESS := "InProgress"

  datatype Live = Live(config: Config, deployed: bool, etag: nat, domain: string)

  // A distribution as an API response describes it.
  datatype Description = Description(id: string, status: string, domain: string, config: Config)

  datatype Error = NotFound | AlreadyExists(message: string) | Other

  datatype Response<+T> = Ok(value: T) | Err(error: Error)

  datatype Call =
    | GetDistribution(id: string)
    | UpdateDistribution(id: string, config: Config, etag: nat)
    | CreateDistribution(config: Config)
    | DeleteDistribution(id: string, etag: nat)
    | DescribeCertificate(arn: string)
    | ImportCertificate(into: Option<string>, serial: nat)
    | DeleteCertificate(arn: string)

  // `minted` records the ARNs this controller was given; `calls` is the log of
  // the current controller pass.
  datatype Account = Account(
    cf: map<string, Live>,
    acm: map<string, nat>,
    minted: set<string>,
    calls: seq<Call>)

  // The remote operations of a pass, including the writes to the API server.
  datatype Op =
    | OpGet | OpUpdate | OpCreate | OpDelete | OpDescribe | OpImport | OpDeleteCert
    | OpAddFinalizer | OpWriteStatus | OpRemoveFinalizer

  datatype Answers = Answers(
    failing: set<Op>,
    newId: string,
    newDomain: string,
    newArn: string,
    aliasOrder: seq<string>,
    message: string)

  function Log(acc: Account, call: Call): Account {
    acc.(calls := acc.calls + [call])
  }

  function StatusOf(live: Live): string {
    if live.deployed then DEPLOYED else IN_PROGRESS
  }

  // Aliases come back in the order `order` gives, when that is an order of
  // them at all.
  function Describes(id: string, live: Live, order: seq<string>): Description {
    var aliases := if live.config.aliases.Some? && multiset(order) == multiset(live.config.aliases.value)
                   then Some(order) else live.config.aliases;
    Description(id, StatusOf(live), live.domain, live.config.(aliases := aliases))
  }

  function DoGet(acc: Account, a: Answers, id: string): (Account, Response<(Description, nat)>) {
    var acc' := Log(acc, GetDistribution(id));
    if OpGet in a.failing then (acc', Err(Other))
    else if id !in acc.cf then (acc', Err(NotFound))
    else (acc', Ok((Describes(id, acc.cf[id], a.aliasOrder), acc.cf[id].etag)))
  }

  function DoUpdate(acc: Account, a: Answers, id: string, config: Config, etag: nat)
    : (Account, Response<(Description, nat)>)
  {
    var acc' := Log(acc, UpdateDistribution(id, config, etag));
    if OpUpdate in a.failing then (acc', Err(Other))
    else if id !in acc.cf then (acc', Err(NotFound))
    else if etag != acc.cf[id].etag || config.callerReference != acc.cf[id].config.callerReference then
      (acc', Err(Other))
    else
      var live := Live(config, false, etag + 1, acc.cf[id].domain);
      (acc'.(cf := acc.cf[id := live]), Ok((Describes(id, live, a.aliasOrder), live.etag)))
  }

  predicate Taken(cf: map<string, Live>, reference: string) {
    exists id :: id in cf && cf[id].config.callerReference == reference
  }

  predicate Fresh(name: string, used: set<string>) {
    name != "" && name !in used
  }

  function DoCreate(acc: Account, a: Answers, config: Config): (Account, Response<Description>) {
    var acc' := Log(acc, CreateDistribution(config));
    if OpCreate in a.failing then (acc', Err(Other))
    else if Taken(acc.cf, config.callerReference) then (acc', Err(AlreadyExists(a.message)))
    else if !Fresh(a.newId, acc.cf.Keys) then (acc', Err(Other))
    else
      var live := Live(config, false, 0, a.newDomain);
      (acc'.(cf := acc.cf[a.newId := live]), Ok(Describes(a.newId, live, a.aliasOrder)))
  }

  function DoDelete(acc: Account, a: Answers, id: string, etag: nat): (Account, Response<()>) {
    var acc' := Log(acc, DeleteDistribution(id, etag));
    if OpDelete in a.failing then (acc', Err(Other))
    else if id !in acc.cf then (acc', Err(NotFound))
    else if etag != acc.cf[id].etag || acc.cf[id].config.enabled || !acc.cf[id].deployed then (acc', Err(Other))
    else (acc'.(cf := acc.cf - {id}), Ok(()))
  }

  // The serial of the certificate, in ACM's format.
  function DoDescribe(acc: Account, a: Answers, arn: string): (Account, Response<string>) {
    var acc' := Log(acc, DescribeCertificate(arn));
    if OpDescribe in a.failing then (acc', Err(Other))
    else if arn !in acc.acm then (acc', Err(NotFound))
    else (acc', Ok(Serial.ColonHex(acc.acm[arn])))
  }

  // Imports in place when given an ARN, else under a new one.
  function DoImport(acc: Account, a: Answers, into: Option<string>, serial: nat): (Account, Response<string>) {
    var acc' := Log(acc, ImportCertificate(into, serial));
    if OpImport in a.failing then (acc', Err(Other))
    else if into.Some? then
      if into.value !in acc.acm then (acc', Err(NotFound))
      else (acc'.(acm := acc.acm[into.value := serial]), Ok(into.value))
    else if !Fresh(a.newArn, acc.acm.Keys) then (acc', Err(Other))
    else (acc'.(acm := acc.acm[a.newArn := serial], minted := acc.minted + {a.newArn}), Ok(a.newArn))
  }

  // An empty ARN is refused by the client's own parameter check.
  function DoDeleteCertificate(acc: Account, a: Answers, arn: string): (Account, Response<()>) {
    var acc' := Log(acc, DeleteCertificate(arn));
    if OpDeleteCert in a.failing || arn == "" then (acc', Err(Other))
    else if arn !in acc.acm then (acc', Err(NotFound))
    else (acc'.(acm := acc.acm - {arn}), Ok(()))
  }

  // An etag is good for one change: after an accepted update, neither an update
  // nor a deletion with the same one is accepted.
  lemma EtagsAreUsedUp(acc: Account, a: Answers, id: string, config: Config, etag: nat, config': Config, a': Answers)
    requires DoUpdate(acc, a, id, config, etag).1.Ok?
    ensures var acc' := DoUpdate(acc, a, id, config, etag).0;
      && id in acc.cf && etag == acc.cf[id].etag
      && DoUpdate(acc', a', id, config', etag).1.Err? && DoDelete(acc', a', id, etag).1.Err?
  {
  }

  // Only a disabled and deployed distribution is deleted, with its current etag;
  // and then it is gone, and nothing else.
  lemma DeletionAccepted(acc: Account, a: Answers, id: string, etag: nat)
    ensures var (acc', r) := DoDelete(acc, a, id, etag);
      && (r.Ok? <==>
            && OpDelete !in a.failing && id in acc.cf && etag == acc.cf[id].etag
            && !acc.cf[id].config.enabled && acc.cf[id].deployed)
      && acc'.cf == if r.Ok? then acc.cf - {id} else acc.cf
  {
  }
}

// The CloudFront configuration a Distribution calls for, and what it means for
// a live configuration to match it.
module DistributionConfig {
  import opened Types
  import Methods
  import opened StringSort

  datatype OriginConfig = OriginConfig(domainName: string, id: string, httpPort: int, httpsPort: int)

  datatype ViewerCertificate = ViewerCertificate(
    acmArn: Option<string>,
    certificate: Option<string>,
    useDefault: bool,
    source: string,
    minimumProtocol: string,
    sslSupport: Option<string>)

  datatype ForwardedValues = ForwardedValues(cookies: string, queryString: bool, headers: seq<string>)

  datatype CacheBehavior = CacheBehavior(
    targetOriginId: string,
    viewerPolicy: string,
    cachePolicyId: Option<string>,
    originRequestPolicyId: Option<string>,
    forwardedValues: Option<ForwardedValues>,
    minTtl: Option<nat>,
    maxTtl: Option<nat>,
    defaultTtl: Option<nat>,
    allowedMethods: seq<string>,
    cachedMethods: seq<string>)

  // `aliases` is the Items list, nil or not; `fixed` stands for every field
  // that is the same in all configurations the controller writes.
  datatype Config = Config(
    callerReference: string,
    enabled: bool,
    origin: OriginConfig,
    aliases: Option<seq<string>>,
    viewerCertificate: ViewerCertificate,
    behavior: CacheBehavior,
    fixed: string)

  const FIXED := "Managed By CDN-Manager"

  function StringOrNil(value: string): Option<string> {
    if value == "" then None else Some(value)
  }

  function ViewerPolicy(tls: Option<TlsSpec>): string {
    if tls.None? || tls.value.mode == "both" then "allow-all"
    else if tls.value.mode == "only" then "https-only"
    else "redirect-to-https"
  }

  function CertificateFor(certificateId: string, sslMode: string): ViewerCertificate {
    if certificateId != "" then
      ViewerCertificate(Some(certificateId), Some(certificateId), false, "acm", "TLSv1.2_2021", Some(sslMode))
    else
      ViewerCertificate(None, None, true, "cloudfront", "TLSv1", None)
  }

  function Aliases(hosts: seq<string>): Option<seq<string>> {
    if hosts == [] then None else Some(Sorted(hosts))
  }

  function Forwarded(classSpec: CloudFrontSpec): Option<ForwardedValues> {
    if classSpec.cachePolicyId != "" then None else Some(ForwardedValues("none", true, ["Host"]))
  }

  function Ttl(classSpec: CloudFrontSpec, default: nat): Option<nat> {
    if classSpec.cachePolicyId != "" then None else Some(default)
  }

  function Behavior(spec: DistributionSpec, classSpec: CloudFrontSpec): CacheBehavior {
    var (allowed, cached) := Methods.MethodLists(classSpec.supportedMethods);
    CacheBehavior(spec.origin.host, ViewerPolicy(spec.tls),
      StringOrNil(classSpec.cachePolicyId), StringOrNil(classSpec.originRequestPolicyId),
      Forwarded(classSpec), Ttl(classSpec, 0), Ttl(classSpec, 31536000), Ttl(classSpec, 86400), allowed, cached)
  }

  function Desired(uid: string, spec: DistributionSpec, classSpec: CloudFrontSpec, certificateId: string, enabled: bool)
    : Config
  {
    Config(uid, enabled,
      OriginConfig(spec.origin.host, spec.origin.host, spec.origin.httpPort, spec.origin.httpsPort),
      Aliases(spec.hosts), CertificateFor(certificateId, classSpec.sslMode), Behavior(spec, classSpec), FIXED)
  }

  function Items(aliases: Option<seq<string>>): seq<string> {
    if aliases.None? then [] else aliases.value
  }

  // The loaded configuration with its aliases copied into a fresh list and
  // sorted, as it is compared.
  function Normalised(loaded: Config): Config {
    loaded.(aliases := Some(Sorted(Items(loaded.aliases))))
  }

  // Equal in every field, with aliases taken as a multiset.
  ghost predicate Same(a: Config, b: Config) {
    && a.(aliases := None) == b.(aliases := None)
    && multiset(Items(a.aliases)) == multiset(Items(b.aliases))
  }

  // An update is asked for exactly when the loaded configuration differs from
  // the desired one in more than alias order, or no host is given at all: a
  // nil list is never equal to the sorted copy.
  lemma NeedsUpdateIff(uid: string, spec: DistributionSpec, classSpec: CloudFrontSpec, cert: string, loaded: Config)
    ensures var desired := Desired(uid, spec, classSpec, cert, true);
      desired != Normalised(loaded) <==> spec.hosts == [] || !Same(desired, loaded)
  {
    var desired := Desired(uid, spec, classSpec, cert, true);
    SortedEqualIffPermutation(spec.hosts, Items(loaded.aliases));
    SortedIsSort(spec.hosts);
    if desired == Normalised(loaded) {
      assert desired.(aliases := None) == Normalised(loaded).(aliases := None) == loaded.(aliases := None);
    }
    if spec.hosts != [] && Same(desired, loaded) {
      assert desired == loaded.(aliases := desired.aliases);
    }
  }

  // The result of a comparison does not depend on the order in which the
  // aliases are returned.
  lemma SameIsEquivalence(a: Config, b: Config, c: Config)
    ensures Same(a, a)
    ensures Same(a, b) ==> Same(b, a)
    ensures Same(a, b) && Same(b, c) ==> Same(a, c)
  {
  }

  // ----- what a desired configuration says -----

  datatype HttpHandling = Served | Refused | Redirected

  // How plain HTTP is to be handled, by the TLS block.
  function Handling(tls: Option<TlsSpec>): HttpHandling {
    match tls
    case None => Served
    case Some(t) => if t.mode == "both" then Served else if t.mode == "only" then Refused else Redirected
  }

  lemma PolicyIsHandling(s: Option<TlsSpec>, t: Option<TlsSpec>)
    ensures ViewerPolicy(s) == ViewerPolicy(t) <==> Handling(s) == Handling(t)
  {
    assert "allow-all"[0] == 'a' && "https-only"[0] == 'h' && "redirect-to-https"[0] == 'r';
  }

  lemma CertificateTells(arn: string, ssl: string, arn': string, ssl': string)
    ensures CertificateFor(arn, ssl) == CertificateFor(arn', ssl') <==> arn == arn' && (arn != "" ==> ssl == ssl')
  {
  }

  lemma AliasesTell(hosts: seq<string>, hosts': seq<string>)
    ensures Aliases(hosts) == Aliases(hosts') <==> multiset(hosts) == multiset(hosts')
  {
    SortedEqualIffPermutation(hosts, hosts');
    assert hosts == [] <==> |multiset(hosts)| == 0;
    assert hosts' == [] <==> |multiset(hosts')| == 0;
  }

  lemma BehaviorTells(s: DistributionSpec, c: CloudFrontSpec, s': DistributionSpec, c': CloudFrontSpec)
    ensures Behavior(s, c) == Behavior(s', c') <==>
            && s.origin.host == s'.origin.host && ViewerPolicy(s.tls) == ViewerPolicy(s'.tls)
            && c.cachePolicyId == c'.cachePolicyId && c.originRequestPolicyId == c'.originRequestPolicyId
            && Methods.MethodLists(c.supportedMethods) == Methods.MethodLists(c'.supportedMethods)
  {
  }

  // Two Distributions ask for the same configuration exactly when they agree on
  // these; so exactly such an edit, and no other, makes a pass send an update.
  lemma EditMattersIff(uid: string, s: DistributionSpec, c: CloudFrontSpec, arn: string,
                       s': DistributionSpec, c': CloudFrontSpec, arn': string)
    ensures Desired(uid, s, c, arn, true) == Desired(uid, s', c', arn', true) <==>
            && s.origin == s'.origin && multiset(s.hosts) == multiset(s'.hosts)
            && Handling(s.tls) == Handling(s'.tls)
            && arn == arn' && (arn != "" ==> c.sslMode == c'.sslMode)
            && c.cachePolicyId == c'.cachePolicyId && c.originRequestPolicyId == c'.originRequestPolicyId
            && Methods.MethodLists(c.supportedMethods) == Methods.MethodLists(c'.supportedMethods)
  {
    AliasesTell(s.hosts, s'.hosts);
    PolicyIsHandling(s.tls, s'.tls);
    CertificateTells(arn, c.sslMode, arn', c'.sslMode);
    BehaviorTells(s, c, s', c');
  }

  // Field by field: where the configuration points, what it serves and how.
  lemma DesiredMeans(uid: string, spec: DistributionSpec, c: CloudFrontSpec, arn: string, enabled: bool)
    ensures var d := Desired(uid, spec, c, arn, enabled);
      && d.callerReference == uid && d.enabled == enabled && d.fixed == "Managed By CDN-Manager"
      && d.origin.domainName == spec.origin.host && d.origin.id == spec.origin.host
      && d.origin.httpPort == spec.origin.httpPort && d.origin.httpsPort == spec.origin.httpsPort
      && d.behavior.targetOriginId == spec.origin.host
      && (d.aliases.None? <==> spec.hosts == [])
      && (spec.hosts != [] ==> Ordered(d.aliases.value) && multiset(d.aliases.value) == multiset(spec.hosts))
  {
    SortedIsSort(spec.hosts);
  }

  // The viewer certificate is the given one, or CloudFront's own.
  lemma CertificateMeans(uid: string, spec: DistributionSpec, c: CloudFrontSpec, arn: string, enabled: bool)
    ensures var v := Desired(uid, spec, c, arn, enabled).viewerCertificate;
      if arn == "" then v == ViewerCertificate(None, None, true, "cloudfront", "TLSv1", None)
      else v == ViewerCertificate(Some(arn), Some(arn), false, "acm", "TLSv1.2_2021", Some(c.sslMode))
  {
  }

  // How plain HTTP is handled, and what is forwarded and cached: by the policies
  // of the class, or else by fixed values.
  lemma BehaviorMeans(uid: string, spec: DistributionSpec, c: CloudFrontSpec, arn: string, enabled: bool)
    ensures var b := Desired(uid, spec, c, arn, enabled).behavior;
      && b.viewerPolicy == (match Handling(spec.tls)
                            case Served => "allow-all"
                            case Refused => "https-only"
                            case Redirected => "redirect-to-https")
      && (c.cachePolicyId == "" ==>
            && b.cachePolicyId.None? && b.forwardedValues == Some(ForwardedValues("none", true, ["Host"]))
            && b.minTtl == Some(0) && b.defaultTtl == Some(86400) && b.maxTtl == Some(31536000))
      && (c.cachePolicyId != "" ==>
            && b.cachePolicyId == Some(c.cachePolicyId) && b.forwardedValues.None?
            && b.minTtl.None? && b.defaultTtl.None? && b.maxTtl.None?)
      && b.originRequestPolicyId == (if c.originRequestPolicyId == "" then None else Some(c.originRequestPolicyId))
      && (b.allowedMethods, b.cachedMethods) == Methods.MethodLists(c.supportedMethods)
  {
  }

  // The three ways, by the TLS block.
  lemma HandlingMeans(tls: Option<TlsSpec>)
    ensures Handling(tls) == Served <==> tls.None? || tls.value.mode == "both"
    ensures Handling(tls) == Refused <==> tls.Some? && tls.value.mode == "only"
  {
    assert "both"[0] == 'b' && "only"[0] == 'o';
  }

  // What this repository says CloudFront demands of a configuration: own
  // aliases only with an own certificate, an origin request policy only with a
  // cache policy, and one of the supported method lists. Beyond that, the one
  // origin is the target; a cache policy takes the place of TTLs and forwarded
  // values; without one the Host header is forwarded and the TTLs are in order.
  ghost predicate Acceptable(d: Config) {
    var b := d.behavior;
    && (d.aliases.Some? ==> d.viewerCertificate.acmArn.Some?)
    && (b.originRequestPolicyId.Some? ==> b.cachePolicyId.Some?)
    && Methods.NoRepeats(b.allowedMethods) && Methods.IsLevel(Methods.Elements(b.allowedMethods))
    && Methods.NoRepeats(b.cachedMethods)
    && Methods.Elements(b.cachedMethods) <= Methods.Elements(b.allowedMethods)
    && d.origin.id == b.targetOriginId
    && (d.viewerCertificate.useDefault <==> d.viewerCertificate.acmArn.None?)
    && (d.viewerCertificate.sslSupport.Some? <==> d.viewerCertificate.acmArn.Some?)
    && if b.cachePolicyId.Some? then
         b.forwardedValues.None? && b.minTtl.None? && b.defaultTtl.None? && b.maxTtl.None?
       else
         && b.forwardedValues.Some? && "Host" in b.forwardedValues.value.headers
         && b.minTtl.Some? && b.defaultTtl.Some? && b.maxTtl.Some?
         && b.minTtl.value < b.defaultTtl.value < b.maxTtl.value
  }

  // A desired configuration meets these demands exactly if hosts come with a
  // certificate, an origin request policy with a cache policy, and OPTIONS is
  // asked for at most once or along with a writing method.
  lemma AcceptableIff(uid: string, spec: DistributionSpec, c: CloudFrontSpec, arn: string, enabled: bool)
    ensures Acceptable(Desired(uid, spec, c, arn, enabled)) <==>
            && (spec.hosts != [] ==> arn != "")
            && (c.originRequestPolicyId != "" ==> c.cachePolicyId != "")
            && (multiset(c.supportedMethods)["OPTIONS"] <= 1
                || exists i :: 0 <= i < |c.supportedMethods| && Methods.IsWrite(c.supportedMethods[i]))
  {
    Methods.LeastLevel(c.supportedMethods);
    Methods.RepeatsExactlyWhen(c.supportedMethods);
    Methods.CachedRepeatsNoMore(c.supportedMethods);
  }

  // A class that names only an origin request policy makes every configuration
  // unacceptable, whatever the Distribution.
  lemma OriginRequestPolicyAlone(uid: string, spec: DistributionSpec, arn: string, sslMode: string,
                                 methods: seq<string>)
    ensures var d := Desired(uid, spec, CloudFrontSpec(sslMode, "", "policy", methods), arn, true);
      d.behavior.originRequestPolicyId == Some("policy") && d.behavior.cachePolicyId.None? && !Acceptable(d)
  {
    AcceptableIff(uid, spec, CloudFrontSpec(sslMode, "", "policy", methods), arn, true);
  }
}

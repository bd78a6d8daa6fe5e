// The resource types of the api group, as values.
module Types {
  datatype Option<+T> = None | Some(value: T)

  datatype ObjectReference = ObjectReference(kind: string, name: string)

  datatype Origin = Origin(host: string, httpPort: int, httpsPort: int)

  datatype TlsSpec = TlsSpec(mode: string, secretRef: string)

  datatype DistributionSpec = DistributionSpec(
    classRef: ObjectReference,
    origin: Origin,
    hosts: seq<string>,
    tls: Option<TlsSpec>)

  // `endpoints` keeps a nil list apart from an empty one, because status
  // comparison does.
  datatype DistributionStatus = DistributionStatus(
    ready: bool,
    endpoints: Option<seq<string>>,
    externalId: string,
    externalCertificateId: string,
    externalStatus: string)

  const EMPTY_STATUS := DistributionStatus(false, None, "", "", "")

  datatype CloudFrontSpec = CloudFrontSpec(
    sslMode: string,
    cachePolicyId: string,
    originRequestPolicyId: string,
    supportedMethods: seq<string>)

  datatype DistributionClassSpec = DistributionClassSpec(cloudFront: Option<CloudFrontSpec>)

  predicate IdsEmpty(status: DistributionStatus) {
    status.externalId == "" && status.externalCertificateId == ""
  }
}

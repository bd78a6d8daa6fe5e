// The certificate half of a reconcile: when it succeeds, what it creates and
// what it leaves.
module Certificates {
  import opened Types
  import opened Aws
  import opened CloudFront
  import Serial

  // A certificate is imported under a new ARN: none is recorded, or the
  // recorded one is gone.
  predicate MintsCertificate(acc: Account, a: Answers, st: DistributionStatus, cert: Option<nat>) {
    && cert.Some? && OpImport !in a.failing && Fresh(a.newArn, acc.acm.Keys)
    && (st.externalCertificateId != "" ==> st.externalCertificateId !in acc.acm && OpDescribe !in a.failing)
  }

  predicate CertificateSucceeds(acc: Account, a: Answers, st: DistributionStatus, cert: Option<nat>) {
    || MintsCertificate(acc, a, st, cert)
    || (&& cert.Some? && OpDescribe !in a.failing && st.externalCertificateId != ""
        && st.externalCertificateId in acc.acm
        && (acc.acm[st.externalCertificateId] == cert.value || OpImport !in a.failing))
  }

  // The ARN on record after the certificate step.
  function ArnAfter(acc: Account, a: Answers, st: DistributionStatus, cert: Option<nat>): string {
    if MintsCertificate(acc, a, st, cert) then a.newArn else st.externalCertificateId
  }

  lemma CertificateCreates(acc: Account, a: Answers, st: DistributionStatus, cert: Option<nat>)
    ensures var out := ReconcileCertificate(acc, a, st, cert);
      && (out.outcome.Done? <==> CertificateSucceeds(acc, a, st, cert))
      && out.account.minted == acc.minted + (if MintsCertificate(acc, a, st, cert) then {a.newArn} else {})
      && out.account.acm.Keys == acc.acm.Keys + (if MintsCertificate(acc, a, st, cert) then {a.newArn} else {})
      && out.account.cf == acc.cf && out.status.externalId == st.externalId
      && (out.outcome.Done? ==> out.status == st.(externalCertificateId := ArnAfter(acc, a, st, cert)))
  {
    if st.externalCertificateId in acc.acm && cert.Some? {
      Serial.SerialsDifferIff(cert.value, acc.acm[st.externalCertificateId]);
    }
  }

  predicate CertificateGood(acc: Account, arn: string, serial: nat) {
    arn != "" && arn in acc.acm && acc.acm[arn] == serial
  }

  lemma CertificateDone(acc: Account, a: Answers, st: DistributionStatus, cert: Option<nat>)
    requires ReconcileCertificate(acc, a, st, cert).outcome.Done?
    ensures var out := ReconcileCertificate(acc, a, st, cert);
      && cert.Some? && CertificateGood(out.account, out.status.externalCertificateId, cert.value)
      && out.status == st.(externalCertificateId := out.status.externalCertificateId)
      && out.account.cf == acc.cf
  {
    if st.externalCertificateId in acc.acm && cert.Some? {
      Serial.SerialsDifferIff(cert.value, acc.acm[st.externalCertificateId]);
    }
  }

  lemma GoodCertificateIsQuiet(acc: Account, a: Answers, st: DistributionStatus, serial: nat)
    requires CertificateGood(acc, st.externalCertificateId, serial) && OpDescribe !in a.failing
    ensures ReconcileCertificate(acc, a, st, Some(serial)) ==
            Out(Log(acc, DescribeCertificate(st.externalCertificateId)), st, Done)
  {
    Serial.SerialsDifferIff(serial, acc.acm[st.externalCertificateId]);
  }
}

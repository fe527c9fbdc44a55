/** The inputs every certificate extension is handed when a certificate is
    issued: the end entity, the issuing CA, the certificate profile, the
    subject's and the CA's public keys, and the validity. */
module Certificates {
  import opened Wrappers
  import opened KeyIdentifiers

  /** An X.509 certificate as far as the key identifiers read it: its public
      key and, when it carries one, its Subject Key Identifier value. */
  datatype Cert = Cert(publicKey: PublicKey, subjectKeyId: Option<KeyId>)

  /** A certificate authority: its current CA certificate (possibly absent)
      and, during a key rollover, the certificate chain of the next key
      (absent when no rollover is pending). */
  datatype Ca = Ca(caCertificate: Option<Cert>, rolloverChain: Option<seq<Cert>>)

  /** The type a certificate profile is declared with; `OtherType` stands for
      every declared type other than the three named ones. */
  datatype CertType = EndEntity | SubCa | RootCa | OtherType

  /** The two profile settings the key identifiers consult. */
  datatype Profile = Profile(certType: CertType, useTruncatedSubjectKeyIdentifier: bool)

  /** The end entity the certificate is issued to. */
  datatype EndEntityInformation = EndEntityInformation(username: string, subjectDn: string)

  /** The validity period of the certificate being issued. */
  datatype Validity = Validity(notBefore: int, notAfter: int)

  /** One call of an extension's value computation, with all its arguments. */
  datatype Request = Request(
    subject: EndEntityInformation,
    ca: Ca,
    profile: Profile,
    userPublicKey: PublicKey,
    caPublicKey: PublicKey,
    validity: Validity)

  /** The run-time failure a computation can end in: the CA holds a rollover
      chain that is present but empty, so reading its first element fails. */
  datatype ExtensionError = RolloverChainEmpty

  /** A profile counts as a root CA profile by its declared type alone;
      nothing checks that the certificate is self-signed. */
  predicate IsRootCa(p: Profile) {
    p.certType == RootCa
  }

  /** The CA holds a rollover chain whose first certificate carries `key`. */
  predicate RolloverHeadHasKey(ca: Ca, key: PublicKey) {
    && ca.rolloverChain.Some?
    && |ca.rolloverChain.value| > 0
    && ca.rolloverChain.value[0].publicKey == key
  }
}

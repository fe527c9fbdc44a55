# Key identifier extensions of certificate issuance

A Dafny model of how CESeCore chooses the values of the two key identifier
extensions of RFC 5280 when it issues a certificate: the Subject Key
Identifier (section 4.2.1.2) and the Authority Key Identifier (section
4.2.1.1).

- `KeyIdentifiers` — public keys, key identifier octet strings and the two
  derivations: method (1), the digest of the whole public key bit string, and
  method (2), its truncated form. The identifier calculator
  (`ExtensionUtils`) is a parameter of every operation. Its two functions are
  uninterpreted, so every result holds for any digest.
- `Certificates` — the arguments every extension receives: end entity, CA
  (current certificate plus optional rollover chain), certificate profile
  (type plus truncation flag), subject key, CA key and validity. These are
  bundled as one `Request`.
- `SubjectKeyIdentifier` — the subject's identifier. The profile flag picks
  method (2) or method (1) of the subject's key.
- `AuthorityKeyIdentifier` — the two-stage authority identifier.
  - Stage 1 is a default derived from the CA key. It is truncated only for a
    root CA profile with the flag set.
  - Stage 2 applies outside root CA profiles. It copies the identifier
    published by the issuer certificate, selected by `GetCaCertificate`.
  - The module also holds a flat case table (`Expected`) that the two-stage
    computation is proved equal to.
- `Issuance` — both identifiers of one issued certificate. It builds a CA
  hierarchy issued top-down and proves it linked: every certificate's
  authority identifier equals its issuer's subject identifier.

Java `null` is `Option.None` for the CA's current certificate and rollover
chain. The one run-time failure modelled is an error result: reading the first
element of a rollover chain that is present but empty. An empty rollover
chain does not fall back to the current certificate: `getCACertificate`
reads its first element and fails. Because the issuer certificate is
selected before the root CA test, that failure happens for root CA profiles
too.

## Model

| member | source | states |
|---|---|---|
| KeyIdentifiers.MethodFor | modules/cesecore-common/src/org/cesecore/certificates/certificate/certextensions/standard/SubjectKeyIdentifier.java:55-58 | the truncated method is chosen exactly when the profile's truncation flag is set |
| SubjectKeyIdentifier.GetValue | modules/cesecore-common/src/org/cesecore/certificates/certificate/certextensions/standard/SubjectKeyIdentifier.java:51-60 | with the flag on the value is method (2) of the subject key; with it off it is method (1) |
| SubjectKeyIdentifier.IsDerivationOfUserKey | modules/cesecore-common/src/org/cesecore/certificates/certificate/certextensions/standard/SubjectKeyIdentifier.java:53-59 | the value is always one of the two derivations of the subject's key |
| SubjectKeyIdentifier.ReadsOnlyUserKeyAndFlag | modules/cesecore-common/src/org/cesecore/certificates/certificate/certextensions/standard/SubjectKeyIdentifier.java:51-60 | requests agreeing on subject key and flag get the same value; the CA, the CA key, the profile type, the subject and the validity are never read; same inputs give the same value |
| AuthorityKeyIdentifier.BaseValue | modules/cesecore-common/src/org/cesecore/certificates/certificate/certextensions/standard/AuthorityKeyIdentifier.java:65-79 | the default is method (2) of the CA key for a root CA profile with truncation on, and method (1) in every other case, including non-root profiles with the flag on |
| AuthorityKeyIdentifier.GetCaCertificate | modules/cesecore-common/src/org/cesecore/certificates/certificate/certextensions/standard/AuthorityKeyIdentifier.java:97-104 | fails exactly on a present but empty rollover chain; selects the first rollover certificate when it carries the signing key; otherwise selects the current certificate, which may be absent |
| AuthorityKeyIdentifier.GetValue | modules/cesecore-common/src/org/cesecore/certificates/certificate/certextensions/standard/AuthorityKeyIdentifier.java:59-95 | fails exactly on an empty rollover chain. Root CA profiles always get the value derived from the CA key, truncated iff the flag is set, even when the selected certificate publishes an identifier. Other profiles get that certificate's identifier octet for octet when it has one, else method (1) of the CA key |
| AuthorityKeyIdentifier.SelectionLooksOnlyAtHead | modules/cesecore-common/src/org/cesecore/certificates/certificate/certextensions/standard/AuthorityKeyIdentifier.java:97-104 | when the first rollover certificate carries another key, the current certificate is selected even if a later rollover certificate carries the signing key |
| AuthorityKeyIdentifier.CurrentCertificateKeyNotCompared | modules/cesecore-common/src/org/cesecore/certificates/certificate/certextensions/standard/AuthorityKeyIdentifier.java:97-104 | with no rollover chain the current certificate's identifier is copied for a non-root profile even when that certificate carries a key other than the signing key: the current certificate's key is never compared |
| AuthorityKeyIdentifier.RolloverPrecedence | modules/cesecore-common/src/org/cesecore/certificates/certificate/certextensions/standard/AuthorityKeyIdentifier.java:83-104 | during a rollover where both certificates publish an identifier, signing with the new key copies the rollover certificate's, signing with the old key the current certificate's |
| AuthorityKeyIdentifier.ReadsOnlyIssuerSide | modules/cesecore-common/src/org/cesecore/certificates/certificate/certextensions/standard/AuthorityKeyIdentifier.java:59-94 | the value depends only on the CA, the CA key, whether the profile is a root CA profile, and the truncation flag; the subject's key, the subject and the validity are never read |
| AuthorityKeyIdentifier.FlagIgnoredOutsideRoot | modules/cesecore-common/src/org/cesecore/certificates/certificate/certextensions/standard/AuthorityKeyIdentifier.java:72-88 | outside root CA profiles flipping the truncation flag never changes the value |
| AuthorityKeyIdentifier.GetValueIsExpected | modules/cesecore-common/src/org/cesecore/certificates/certificate/certextensions/standard/AuthorityKeyIdentifier.java:59-104 | the compute-then-override pipeline yields exactly the value of a flat table of disjoint cases (empty rollover, root with and without truncation, matching rollover head with and without identifier, current certificate with and without identifier), in both directions |
| Issuance.Issue | modules/cesecore-common/src/org/cesecore/certificates/certificate/certextensions/standard/SubjectKeyIdentifier.java:51-60 | combines both extensions, which the source computes separately for the same certificate: the issued certificate carries the subject key, the subject identifier its flag derives from that key, and exactly the authority identifier `AuthorityKeyIdentifier.GetValue` yields; issuance fails exactly when that computation does |
| Issuance.RootAkiEqualsSki | modules/cesecore-common/src/org/cesecore/certificates/certificate/certextensions/standard/AuthorityKeyIdentifier.java:67-79 | for a root CA profile whose certificate carries the CA key, when the rollover chain is not present-but-empty, the authority identifier equals the subject identifier under both flag settings |
| Issuance.IssueHierarchy | modules/cesecore-common/src/org/cesecore/certificates/certificate/certextensions/standard/SubjectKeyIdentifier.java:51-60 | every certificate of a hierarchy issued top-down carries its own key and the identifier its own flag derives from it |
| Issuance.HierarchyIsLinked | modules/cesecore-common/src/org/cesecore/certificates/certificate/certextensions/standard/AuthorityKeyIdentifier.java:80-93 | in such a hierarchy the root's authority identifier equals its own subject identifier and every other certificate's equals its issuer's; it is derived by the issuer's method, not by the certificate's own profile |

## Left out

- The digests: the digest and the identifier calculator internals are not visible. The two derivations are uninterpreted function parameters, so no identifier length or method (2) tag bits are stated.
- Method (1) is shared: the authority and subject identifier builders are taken to compute the same method (1) digest of a key.
- ASN.1 plumbing is not modelled. This covers parsing the key into SubjectPublicKeyInfo, building the extension objects and `getValueEncoded`. A key is always well formed here, so the malformed-key failure does not arise.
- The subject identifier of a CA certificate is read as the certificate's `subjectKeyId` field. How it is extracted from the encoding is not modelled.
- Public key equality is plain equality of the encoded key. Provider-specific `equals` behaviour is not modelled.
- Null arguments are not modelled: a null CA key, subject key, CA or profile makes the code throw a NullPointerException, but here keys, the CA and the profile are always values.
- A null element inside a rollover chain and a failing cast to an X.509 certificate are not modelled. Certificates here are always X.509 values.
- Bookkeeping is not modelled: `init` (OID and criticality flags), `getAvailableProperties`, display names, serialisation and debug logging. None of it affects the values.
- Link certificates are not handled. A link certificate after a root renewal from method (1) to method (2) would need the old identifier, and the code cannot tell that it is issuing one.
- Issuance.IssueHierarchy: the root is issued by a CA with no current certificate and no rollover chain, and every level uses a sub CA profile with no rollover. Rollover is covered separately by `AuthorityKeyIdentifier.RolloverPrecedence`.

/** The Authority Key Identifier extension (section 4.2.1.1 of RFC 5280): the
    identifier of the key that signs the certificate. It is computed in two
    stages: a default derived from the CA's public key, which an identifier
    the issuing CA certificate already publishes then replaces. */
module AuthorityKeyIdentifier {
  import opened Wrappers
  import opened KeyIdentifiers
  import opened Certificates

  /** Stage 1, the default: a root CA profile with truncation on mirrors its
      own truncated subject identifier; every other profile uses method (1),
      whatever its truncation flag says. */
  function BaseValue(utils: ExtensionUtils, profile: Profile, caPublicKey: PublicKey): (aki: KeyId)
    ensures IsRootCa(profile) && profile.useTruncatedSubjectKeyIdentifier ==>
              aki == utils.truncatedKeyIdentifier(caPublicKey)
    ensures !(IsRootCa(profile) && profile.useTruncatedSubjectKeyIdentifier) ==>
              aki == utils.keyIdentifier(caPublicKey)
  {
    var m := if IsRootCa(profile) then MethodFor(profile.useTruncatedSubjectKeyIdentifier) else Full;
    Derive(utils, caPublicKey, m)
  }

  /** The certificate of the key that signs: the first certificate of the
      rollover chain when there is one and it carries the signing key,
      otherwise the CA's current certificate (which may be absent). Only the
      first rollover certificate is ever looked at; an empty rollover chain
      is an error. */
  function GetCaCertificate(ca: Ca, caPublicKey: PublicKey): (r: Result<Option<Cert>, ExtensionError>)
    ensures r.Err? <==> ca.rolloverChain == Some([])
    ensures RolloverHeadHasKey(ca, caPublicKey) ==> r == Ok(Some(ca.rolloverChain.value[0]))
    ensures ca.rolloverChain != Some([]) && !RolloverHeadHasKey(ca, caPublicKey) ==>
              r == Ok(ca.caCertificate)
  {
    match ca.rolloverChain
    case None => Ok(ca.caCertificate)
    case Some(chain) =>
      if |chain| == 0 then Err(RolloverChainEmpty)
      else if chain[0].publicKey == caPublicKey then Ok(Some(chain[0]))
      else Ok(ca.caCertificate)
  }

  /** Stage 2 applied to the stage 1 value: outside root CA profiles, the
      subject identifier the selected CA certificate carries, when it carries
      one, replaces the default octet for octet. The selection happens for
      root profiles too, so an empty rollover chain fails even there. */
  function GetValue(utils: ExtensionUtils, req: Request): (r: Result<KeyId, ExtensionError>)
    ensures r.Err? <==> req.ca.rolloverChain == Some([])
    // root profiles: always the value derived from the CA key, never a copied one
    ensures r.Ok? && IsRootCa(req.profile) && req.profile.useTruncatedSubjectKeyIdentifier ==>
              r.value == utils.truncatedKeyIdentifier(req.caPublicKey)
    ensures r.Ok? && IsRootCa(req.profile) && !req.profile.useTruncatedSubjectKeyIdentifier ==>
              r.value == utils.keyIdentifier(req.caPublicKey)
    // other profiles: the selected certificate's identifier when it has one ...
    ensures !IsRootCa(req.profile) && RolloverHeadHasKey(req.ca, req.caPublicKey)
            && req.ca.rolloverChain.value[0].subjectKeyId.Some? ==>
              r == Ok(req.ca.rolloverChain.value[0].subjectKeyId.value)
    ensures !IsRootCa(req.profile) && req.ca.rolloverChain != Some([])
            && !RolloverHeadHasKey(req.ca, req.caPublicKey)
            && req.ca.caCertificate.Some? && req.ca.caCertificate.value.subjectKeyId.Some? ==>
              r == Ok(req.ca.caCertificate.value.subjectKeyId.value)
    // ... and otherwise method (1) of the CA key, the truncation flag ignored
    ensures !IsRootCa(req.profile) && RolloverHeadHasKey(req.ca, req.caPublicKey)
            && req.ca.rolloverChain.value[0].subjectKeyId.None? ==>
              r == Ok(utils.keyIdentifier(req.caPublicKey))
    ensures !IsRootCa(req.profile) && req.ca.rolloverChain != Some([])
            && !RolloverHeadHasKey(req.ca, req.caPublicKey)
            && (req.ca.caCertificate.None? || req.ca.caCertificate.value.subjectKeyId.None?) ==>
              r == Ok(utils.keyIdentifier(req.caPublicKey))
  {
    var base := BaseValue(utils, req.profile, req.caPublicKey);
    var cacert :- GetCaCertificate(req.ca, req.caPublicKey);
    if cacert.Some? && !IsRootCa(req.profile) && cacert.value.subjectKeyId.Some? then
      Ok(cacert.value.subjectKeyId.value)
    else
      Ok(base)
  }

  /** The issuer certificate is chosen from the first rollover certificate
      or the current certificate only: when the first rollover certificate
      carries another key, the current certificate is chosen even if a later
      rollover certificate carries the signing key. */
  lemma SelectionLooksOnlyAtHead(ca: Ca, caPublicKey: PublicKey, i: nat)
    requires ca.rolloverChain.Some? && 0 < i < |ca.rolloverChain.value|
    requires ca.rolloverChain.value[0].publicKey != caPublicKey
    requires ca.rolloverChain.value[i].publicKey == caPublicKey
    ensures GetCaCertificate(ca, caPublicKey) == Ok(ca.caCertificate)
  {
  }

  /** With no rollover chain the current certificate is taken as the issuer
      certificate without comparing its key with the signing key, so outside
      root CA profiles its identifier is copied even when it belongs to
      another key. */
  lemma CurrentCertificateKeyNotCompared(utils: ExtensionUtils, req: Request, c: Cert, s: KeyId)
    requires !IsRootCa(req.profile)
    requires req.ca == Ca(Some(c), None)
    requires c.publicKey != req.caPublicKey
    requires c.subjectKeyId == Some(s)
    ensures GetValue(utils, req) == Ok(s)
  {
  }

  /** During a rollover the certificate of the key that signs wins: signing
      with the new key copies the rollover certificate's identifier, signing
      with the old key copies the current certificate's, even though both
      certificates publish one. */
  lemma RolloverPrecedence(utils: ExtensionUtils, req: Request, oldCert: Cert, newCert: Cert, rest: seq<Cert>)
    requires !IsRootCa(req.profile)
    requires req.ca == Ca(Some(oldCert), Some([newCert] + rest))
    requires oldCert.subjectKeyId.Some? && newCert.subjectKeyId.Some?
    requires oldCert.publicKey != newCert.publicKey
    ensures req.caPublicKey == newCert.publicKey ==> GetValue(utils, req) == Ok(newCert.subjectKeyId.value)
    ensures req.caPublicKey == oldCert.publicKey ==> GetValue(utils, req) == Ok(oldCert.subjectKeyId.value)
  {
  }

  /** Only the CA, the CA key and the two profile settings are read: the
      subject, its public key and the validity never influence the value,
      and among profile types only "root CA or not" matters. */
  lemma ReadsOnlyIssuerSide(utils: ExtensionUtils, r1: Request, r2: Request)
    requires r1.ca == r2.ca && r1.caPublicKey == r2.caPublicKey
    requires IsRootCa(r1.profile) == IsRootCa(r2.profile)
    requires r1.profile.useTruncatedSubjectKeyIdentifier == r2.profile.useTruncatedSubjectKeyIdentifier
    ensures GetValue(utils, r1) == GetValue(utils, r2)
  {
  }

  /** Outside root CA profiles the truncation flag plays no part at all. */
  lemma FlagIgnoredOutsideRoot(utils: ExtensionUtils, req: Request)
    requires !IsRootCa(req.profile)
    ensures GetValue(utils, req) == GetValue(utils, req.(profile := req.profile.(
              useTruncatedSubjectKeyIdentifier := !req.profile.useTruncatedSubjectKeyIdentifier)))
  {
  }

  /** The value as a flat table of disjoint cases, with no stage that
      overrides another: a reference the two-stage computation is checked
      against. */
  ghost predicate Expected(utils: ExtensionUtils, req: Request, r: Result<KeyId, ExtensionError>) {
    var ca, key, p := req.ca, req.caPublicKey, req.profile;
    if ca.rolloverChain == Some([]) then
      r == Err(RolloverChainEmpty)
    else if IsRootCa(p) && p.useTruncatedSubjectKeyIdentifier then
      r == Ok(utils.truncatedKeyIdentifier(key))
    else if IsRootCa(p) then
      r == Ok(utils.keyIdentifier(key))
    else if RolloverHeadHasKey(ca, key) then
      match ca.rolloverChain.value[0].subjectKeyId
      case Some(s) => r == Ok(s)
      case None => r == Ok(utils.keyIdentifier(key))
    else
      match ca.caCertificate
      case Some(Cert(_, Some(s))) => r == Ok(s)
      case _ => r == Ok(utils.keyIdentifier(key))
  }

  /** The two-stage computation yields exactly the tabled value, and the
      table admits no other. */
  lemma GetValueIsExpected(utils: ExtensionUtils, req: Request, r: Result<KeyId, ExtensionError>)
    ensures Expected(utils, req, r) <==> r == GetValue(utils, req)
  {
  }
}

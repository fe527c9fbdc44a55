/** The Subject Key Identifier extension (section 4.2.1.2 of RFC 5280): the
    identifier of the subject's own public key, derived by the method the
    profile's truncation flag selects. */
module SubjectKeyIdentifier {
  import opened KeyIdentifiers
  import opened Certificates

  /** The extension value for one issuance. */
  function GetValue(utils: ExtensionUtils, req: Request): (ski: KeyId)
    ensures req.profile.useTruncatedSubjectKeyIdentifier ==>
              ski == utils.truncatedKeyIdentifier(req.userPublicKey)
    ensures !req.profile.useTruncatedSubjectKeyIdentifier ==>
              ski == utils.keyIdentifier(req.userPublicKey)
  {
    Derive(utils, req.userPublicKey, MethodFor(req.profile.useTruncatedSubjectKeyIdentifier))
  }

  /** The value is always one of the two derivations of the subject's key. */
  lemma IsDerivationOfUserKey(utils: ExtensionUtils, req: Request)
    ensures GetValue(utils, req) == utils.keyIdentifier(req.userPublicKey)
         || GetValue(utils, req) == utils.truncatedKeyIdentifier(req.userPublicKey)
  {
  }

  /** Only the subject's key and the truncation flag are read: two requests
      that agree on those give the same value, whatever their subject, CA,
      CA key, profile type and validity. In particular the same key and flag
      always give the same value. */
  lemma ReadsOnlyUserKeyAndFlag(utils: ExtensionUtils, r1: Request, r2: Request)
    requires r1.userPublicKey == r2.userPublicKey
    requires r1.profile.useTruncatedSubjectKeyIdentifier == r2.profile.useTruncatedSubjectKeyIdentifier
    ensures GetValue(utils, r1) == GetValue(utils, r2)
  {
  }
}

/** Key identifiers and the two ways of deriving one from a public key
    (section 4.2.1.2 of RFC 5280, methods (1) and (2)). */
module KeyIdentifiers {

  type Byte = b: int | 0 <= b < 256

  /** The octet string of a key identifier. No length is assumed: the
      derivations below are opaque to the model. */
  type KeyId = seq<Byte>

  /** A public key in its encoded (SubjectPublicKeyInfo) form. Two keys are
      equal exactly when their encodings are equal. */
  datatype PublicKey = PublicKey(encoded: seq<Byte>)

  /** The identifier calculator the extensions construct on every call.
      `keyIdentifier` is method (1), the digest of the whole subject public
      key bit string; it is what both the subject and the authority key
      identifier builders compute by default. `truncatedKeyIdentifier` is
      method (2), the tagged 60-bit truncation of that digest. Both are kept
      uninterpreted: every property of the model holds for any pair. */
  datatype ExtensionUtils = ExtensionUtils(
    keyIdentifier: PublicKey -> KeyId,
    truncatedKeyIdentifier: PublicKey -> KeyId)

  /** Which of the two derivations to use. */
  datatype Method = Full | Truncated

  /** The method a profile's truncation flag selects. */
  function MethodFor(useTruncated: bool): (m: Method)
    ensures m.Truncated? <==> useTruncated
  {
    if useTruncated then Truncated else Full
  }

  /** The identifier of `key` under method `m`. */
  function Derive(utils: ExtensionUtils, key: PublicKey, m: Method): KeyId
  {
    match m
    case Full => utils.keyIdentifier(key)
    case Truncated => utils.truncatedKeyIdentifier(key)
  }
}

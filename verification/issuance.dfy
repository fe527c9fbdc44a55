/** The two key identifiers together, as one issuance computes them, and the
    property they exist for: the Authority Key Identifier of every
    certificate equals the Subject Key Identifier of the certificate of the
    key that signed it, so that a relying party can match them octet for
    octet. */
module Issuance {
  import opened Wrappers
  import opened KeyIdentifiers
  import opened Certificates
  import Ski = SubjectKeyIdentifier
  import Aki = AuthorityKeyIdentifier

  /** An issued certificate together with the Authority Key Identifier it
      carries. */
  datatype IssuedCert = IssuedCert(cert: Cert, authorityKeyId: KeyId)

  /** Both extension values for one request, placed in the new certificate. */
  function Issue(utils: ExtensionUtils, req: Request): (r: Result<IssuedCert, ExtensionError>)
    ensures r.Err? <==> req.ca.rolloverChain == Some([])
    ensures r.Ok? ==> Aki.GetValue(utils, req) == Ok(r.value.authorityKeyId)
    ensures r.Ok? ==> r.value.cert.publicKey == req.userPublicKey
    ensures r.Ok? ==>
              r.value.cert.subjectKeyId
              == Some(Derive(utils, req.userPublicKey, MethodFor(req.profile.useTruncatedSubjectKeyIdentifier)))
  {
    var aki :- Aki.GetValue(utils, req);
    Ok(IssuedCert(Cert(req.userPublicKey, Some(Ski.GetValue(utils, req))), aki))
  }

  /** For a root CA profile whose certificate carries the CA's own key, the
      two identifiers coincide under either setting of the truncation flag. */
  lemma RootAkiEqualsSki(utils: ExtensionUtils, req: Request)
    requires IsRootCa(req.profile)
    requires req.userPublicKey == req.caPublicKey
    requires req.ca.rolloverChain != Some([])
    ensures Aki.GetValue(utils, req) == Ok(Ski.GetValue(utils, req))
  {
  }

  /** One level of a CA hierarchy: the end entity, key, truncation setting
      and validity of the certificate issued at that level. */
  datatype Level = Level(
    subject: EndEntityInformation,
    key: PublicKey,
    useTruncated: bool,
    validity: Validity)

  /** The request issuing the self-signed root certificate of a new CA. */
  function RootRequest(lv: Level): Request {
    Request(lv.subject, Ca(None, None), Profile(RootCa, lv.useTruncated), lv.key, lv.key, lv.validity)
  }

  /** The request by which the CA holding `issuer` issues the certificate of
      level `lv` with a sub CA profile. */
  function SubCaRequest(issuer: Cert, lv: Level): Request {
    Request(lv.subject, Ca(Some(issuer), None), Profile(SubCa, lv.useTruncated), lv.key, issuer.publicKey, lv.validity)
  }

  /** Issues a hierarchy top-down: a self-signed root for the first level,
      then for each further level a sub CA certificate signed by the CA one
      level up. Every certificate carries its own key and the identifier its
      own truncation setting derives from that key. */
  function IssueHierarchy(utils: ExtensionUtils, levels: seq<Level>): (chain: seq<IssuedCert>)
    ensures |chain| == |levels|
    ensures forall i :: 0 <= i < |chain| ==>
              chain[i].cert == Cert(levels[i].key, Some(Derive(utils, levels[i].key, MethodFor(levels[i].useTruncated))))
    decreases |levels|
  {
    if |levels| == 0 then []
    else if |levels| == 1 then [Issue(utils, RootRequest(levels[0])).value]
    else
      var upper := IssueHierarchy(utils, levels[..|levels| - 1]);
      upper + [Issue(utils, SubCaRequest(upper[|upper| - 1].cert, levels[|levels| - 1])).value]
  }

  /** Every Authority Key Identifier matches the Subject Key Identifier of
      its issuer: the root's matches its own, every other certificate's the
      one of the level above. */
  ghost predicate Linked(chain: seq<IssuedCert>) {
    && (|chain| > 0 ==> chain[0].cert.subjectKeyId == Some(chain[0].authorityKeyId))
    && forall i :: 0 < i < |chain| ==> Some(chain[i].authorityKeyId) == chain[i - 1].cert.subjectKeyId
  }

  /** A hierarchy issued this way is linked, and each sub CA certificate's
      Authority Key Identifier is derived by its issuer's method rather than
      by its own profile's. */
  lemma {:induction false} HierarchyIsLinked(utils: ExtensionUtils, levels: seq<Level>)
    ensures Linked(IssueHierarchy(utils, levels))
    ensures forall i :: 0 < i < |levels| ==>
              IssueHierarchy(utils, levels)[i].authorityKeyId ==
                Derive(utils, levels[i - 1].key, MethodFor(levels[i - 1].useTruncated))
    decreases |levels|
  {
    var chain := IssueHierarchy(utils, levels);
    if |levels| == 1 {
      RootAkiEqualsSki(utils, RootRequest(levels[0]));
    } else if |levels| > 1 {
      var n := |levels|;
      var upper := IssueHierarchy(utils, levels[..n - 1]);
      HierarchyIsLinked(utils, levels[..n - 1]);
      var req := SubCaRequest(upper[n - 2].cert, levels[n - 1]);
      assert chain == upper + [Issue(utils, req).value];
      assert chain[n - 1].authorityKeyId == Aki.GetValue(utils, req).value;
      forall i | 0 < i < n
        ensures Some(chain[i].authorityKeyId) == chain[i - 1].cert.subjectKeyId
      {
        if i < n - 1 {
          assert chain[i] == upper[i] && chain[i - 1] == upper[i - 1];
        }
      }
    }
  }
}

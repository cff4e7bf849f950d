/** The identity document under construction: verification methods,
    the five verification-relationship buckets and the services, with the
    purpose tags that select a bucket
    (pkg/restapi/didmethod/operation/operations.go, lines 171-196). */
module Document {
  import opened Results
  import opened Keys

  /** The five verification relationships a key purpose can name. */
  datatype Relationship =
    | Authentication
    | AssertionMethod
    | KeyAgreement
    | CapabilityDelegation
    | CapabilityInvocation

  /** The purpose tag a client writes for each relationship. */
  function PurposeTag(rel: Relationship): string
  {
    match rel
    case Authentication => "authentication"
    case AssertionMethod => "assertionMethod"
    case KeyAgreement => "keyAgreement"
    case CapabilityDelegation => "capabilityDelegation"
    case CapabilityInvocation => "capabilityInvocation"
  }

  /** Recognises a purpose tag; any other text is not a purpose. */
  function ParsePurpose(p: string): (r: Option<Relationship>)
    ensures r.Some? ==> PurposeTag(r.value) == p
    ensures r.None? <==> forall rel: Relationship :: PurposeTag(rel) != p
  {
    if p == "authentication" then Some(Authentication)
    else if p == "assertionMethod" then Some(AssertionMethod)
    else if p == "keyAgreement" then Some(KeyAgreement)
    else if p == "capabilityDelegation" then Some(CapabilityDelegation)
    else if p == "capabilityInvocation" then Some(CapabilityInvocation)
    else None
  }

  /** Every tag parses back to the relationship it was written for. */
  lemma ParsePurposeTag(rel: Relationship)
    ensures ParsePurpose(PurposeTag(rel)) == Some(rel)
  {
  }

  function UnsupportedPurpose(p: string): string
  {
    "public key purpose " + p + " not supported"
  }

  /** Reads a key's purpose list in order, stopping at the first tag that
      is not one of the five. */
  function ParsePurposes(ps: seq<string>): (r: Result<seq<Relationship>>)
    ensures r.Ok? <==> forall i :: 0 <= i < |ps| ==> ParsePurpose(ps[i]).Some?
    ensures r.Ok? ==> |r.value| == |ps| && forall i :: 0 <= i < |ps| ==> PurposeTag(r.value[i]) == ps[i]
    ensures r.Err? ==>
      exists i :: 0 <= i < |ps| && ParsePurpose(ps[i]).None? && r.reason == UnsupportedPurpose(ps[i])
                  && forall j :: 0 <= j < i ==> ParsePurpose(ps[j]).Some?
    decreases |ps|
  {
    if |ps| == 0 then Ok([])
    else
      match ParsePurpose(ps[0])
      case None => Err(UnsupportedPurpose(ps[0]))
      case Some(rel) =>
        match ParsePurposes(ps[1..])
        case Err(m) =>
          assert forall i :: 1 <= i < |ps| ==> ps[i] == ps[1..][i - 1];
          Err(m)
        case Ok(rels) => Ok([rel] + rels)
  }

  /** A purpose list read successfully names each relationship exactly as
      often as its tag occurs in the list. */
  lemma PurposeCount(ps: seq<string>, rel: Relationship)
    requires ParsePurposes(ps).Ok?
    ensures multiset(ParsePurposes(ps).value)[rel] == multiset(ps)[PurposeTag(rel)]
  {
    TagCount(ParsePurposes(ps).value, ps, rel);
  }

  /** Counting relationships in `rels` is counting their tags in `ps` when
      `ps` lists the tags of `rels`. */
  lemma {:induction false} TagCount(rels: seq<Relationship>, ps: seq<string>, rel: Relationship)
    requires |rels| == |ps|
    requires forall i :: 0 <= i < |ps| ==> PurposeTag(rels[i]) == ps[i]
    ensures multiset(rels)[rel] == multiset(ps)[PurposeTag(rel)]
    decreases |ps|
  {
    if |ps| > 0 {
      var k := |ps| - 1;
      TagCount(rels[..k], ps[..k], rel);
      assert rels == rels[..k] + [rels[k]];
      assert ps == ps[..k] + [ps[k]];
      if rels[k] != rel {
        ParsePurposeTag(rels[k]);
        ParsePurposeTag(rel);
      }
    }
  }

  /** A JSON Web Key, as the key library produces it. */
  datatype Jwk = Jwk(kty: string, crv: string, x: Bytes, y: Bytes)

  /** A named, typed public-key record of the document. */
  datatype VerificationMethod = VerificationMethod(id: string, vmType: string, controller: string, jwk: Jwk)

  /** A reference to a verification method under one relationship. */
  datatype Verification = Referenced(vm: VerificationMethod, relationship: Relationship)

  datatype Service = Service(
    id: string,
    serviceType: string,
    priority: int,
    recipientKeys: seq<string>,
    routingKeys: seq<string>,
    serviceEndpoint: string)

  datatype DidDoc = DidDoc(
    authentication: seq<Verification>,
    assertionMethod: seq<Verification>,
    keyAgreement: seq<Verification>,
    capabilityDelegation: seq<Verification>,
    capabilityInvocation: seq<Verification>,
    services: seq<Service>)

  const EmptyDoc: DidDoc := DidDoc([], [], [], [], [], [])

  /** The bucket that holds references under `rel`. */
  function Bucket(doc: DidDoc, rel: Relationship): seq<Verification>
  {
    match rel
    case Authentication => doc.authentication
    case AssertionMethod => doc.assertionMethod
    case KeyAgreement => doc.keyAgreement
    case CapabilityDelegation => doc.capabilityDelegation
    case CapabilityInvocation => doc.capabilityInvocation
  }

  /** Appends `v` to the bucket of its own relationship; nothing else changes. */
  function AppendReference(doc: DidDoc, v: Verification): (r: DidDoc)
    ensures Bucket(r, v.relationship) == Bucket(doc, v.relationship) + [v]
    ensures forall rel :: rel != v.relationship ==> Bucket(r, rel) == Bucket(doc, rel)
    ensures r.services == doc.services
  {
    match v.relationship
    case Authentication => doc.(authentication := doc.authentication + [v])
    case AssertionMethod => doc.(assertionMethod := doc.assertionMethod + [v])
    case KeyAgreement => doc.(keyAgreement := doc.keyAgreement + [v])
    case CapabilityDelegation => doc.(capabilityDelegation := doc.capabilityDelegation + [v])
    case CapabilityInvocation => doc.(capabilityInvocation := doc.capabilityInvocation + [v])
  }

  /** `n` copies of `v`. */
  function Repeat<T>(v: T, n: nat): (r: seq<T>)
    ensures |r| == n
    ensures forall i :: 0 <= i < n ==> r[i] == v
  {
    seq(n, _ => v)
  }

  /** For each relationship of `rels`, in order, appends one reference to the
      same method `vm` into the matching bucket. */
  function AddReferences(doc: DidDoc, vm: VerificationMethod, rels: seq<Relationship>): (r: DidDoc)
    ensures r.services == doc.services
    ensures forall rel :: Bucket(r, rel) == Bucket(doc, rel) + Repeat(Referenced(vm, rel), multiset(rels)[rel])
    decreases |rels|
  {
    if |rels| == 0 then doc
    else
      var next := AppendReference(doc, Referenced(vm, rels[0]));
      var r := AddReferences(next, vm, rels[1..]);
      assert forall rel :: Bucket(r, rel) == Bucket(doc, rel) + Repeat(Referenced(vm, rel), multiset(rels)[rel]) by {
        forall rel
          ensures Bucket(r, rel) == Bucket(doc, rel) + Repeat(Referenced(vm, rel), multiset(rels)[rel])
        {
          AppendStep(doc, vm, rels, rel, Bucket(r, rel));
        }
      }
      r
  }

  /** One step of `AddReferences`: the head's reference followed by the
      tail's references is the whole list's. */
  lemma AppendStep(doc: DidDoc, vm: VerificationMethod, rels: seq<Relationship>, rel: Relationship, after: seq<Verification>)
    requires |rels| > 0
    requires after == Bucket(AppendReference(doc, Referenced(vm, rels[0])), rel)
                      + Repeat(Referenced(vm, rel), multiset(rels[1..])[rel])
    ensures after == Bucket(doc, rel) + Repeat(Referenced(vm, rel), multiset(rels)[rel])
  {
    assert rels == [rels[0]] + rels[1..];
    var n := multiset(rels[1..])[rel];
    if rel == rels[0] {
      assert multiset(rels)[rel] == n + 1;
      assert [Referenced(vm, rel)] + Repeat(Referenced(vm, rel), n) == Repeat(Referenced(vm, rel), n + 1);
    } else {
      assert multiset(rels)[rel] == n;
    }
  }
}

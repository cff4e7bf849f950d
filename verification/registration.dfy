/** The registration pipeline of `registerDIDHandler`
    (pkg/restapi/didmethod/operation/operations.go, lines 94-224) as a pure
    function of an already-decoded request and the collaborators it calls. */
module Registration {
  import opened Results
  import opened Keys
  import opened Document
  import opened Secrets

  /** One submitted public key. `value` is the base64 text of the key bytes. */
  datatype PublicKeyEntry = PublicKeyEntry(
    id: string,
    vmType: string,
    keyType: string,
    value: string,
    purposes: seq<string>,
    recovery: bool,
    update: bool)

  /** One submitted service, as the client sends it. */
  datatype ServiceEntry = ServiceEntry(
    id: string,
    serviceType: string,
    priority: int,
    recipientKeys: seq<string>,
    routingKeys: seq<string>,
    endpoint: string)

  datatype RegisterRequest = RegisterRequest(
    jobId: string,
    publicKeys: seq<PublicKeyEntry>,
    services: seq<ServiceEntry>)

  /** Keys handed to the backend beside the document, never inside it. */
  datatype MethodOption = RecoveryKeyOpt(key: PublicKey) | UpdateKeyOpt(key: PublicKey)

  /** What the pass over the keys has built so far: the document, the
      rotation-key options, and the bytes of every ordinary key by id. */
  datatype Draft = Draft(doc: DidDoc, options: seq<MethodOption>, keysID: map<string, Bytes>)

  const EmptyDraft: Draft := Draft(EmptyDoc, [], map[])

  datatype DidState = Finished(identifier: string, secret: set<SecretKey>) | Failed(reason: string)

  datatype RegisterResponse = RegisterResponse(jobId: string, didState: DidState)

  /** The arguments of the backend's create call. */
  datatype Submission = Submission(doc: DidDoc, options: seq<MethodOption>)

  /** The response, and what was submitted to the backend (None when the
      backend was never called). */
  datatype Registration = Registration(response: RegisterResponse, submitted: Option<Submission>)

  /** The collaborators the pipeline calls, whose code is not modelled:
      base64 decoding, P-256 point unmarshalling, JWK conversion,
      verification-method construction, base58 encoding and the backend's
      create operation (which yields the new document's identifier). */
  datatype Env = Env(
    base64Decode: string -> Result<Bytes>,
    unmarshalP256: Bytes -> Option<Point>,
    jwkFromKey: PublicKey -> Result<Jwk>,
    newVerificationMethod: (string, string, string, Jwk) -> Result<VerificationMethod>,
    base58Encode: Bytes -> string,
    create: (DidDoc, seq<MethodOption>) -> Result<string>)

  const EmptyKeysReason: string := "AddPublicKeys is empty"

  function DecodeFailure(cause: string): string
  {
    "failed to decode public key value : " + cause
  }

  function CreateFailure(cause: string): string
  {
    "failed to create did doc : " + cause
  }

  predicate IsOrdinary(e: PublicKeyEntry)
  {
    !e.recovery && !e.update
  }

  /** What one valid key entry contributes: a rotation option, or an
      ordinary key with its bytes, its verification method and the
      relationships its purposes name. */
  datatype KeyAction =
    | Rotate(option: MethodOption)
    | Track(id: string, raw: Bytes, vm: VerificationMethod, relationships: seq<Relationship>)

  /** Runs every check on one entry, in the order the handler runs them:
      base64 decoding, key type, then (for ordinary keys only) JWK
      conversion, verification method and purposes. None of the checks
      looks at the draft. */
  function Classify(e: PublicKeyEntry, env: Env): (r: Result<KeyAction>)
    ensures env.base64Decode(e.value).Err? ==> r == Err(DecodeFailure(env.base64Decode(e.value).reason))
    ensures env.base64Decode(e.value).Ok? && e.keyType != Ed25519KeyType && e.keyType != P256KeyType
            ==> r == Err(InvalidKeyType(e.keyType))
    ensures r.Ok? ==> (r.value.Rotate? <==> !IsOrdinary(e))
    ensures r.Ok? && e.recovery ==> r.value.Rotate? && r.value.option.RecoveryKeyOpt?
    ensures r.Ok? && !e.recovery && e.update ==> r.value.Rotate? && r.value.option.UpdateKeyOpt?
    ensures r.Ok? && r.value.Track? ==>
      && r.value.id == e.id
      && env.base64Decode(e.value) == Ok(r.value.raw)
      && |r.value.relationships| == |e.purposes|
      && forall i :: 0 <= i < |e.purposes| ==> PurposeTag(r.value.relationships[i]) == e.purposes[i]
    ensures IsOrdinary(e) && (exists i :: 0 <= i < |e.purposes| && ParsePurpose(e.purposes[i]).None?) ==> r.Err?
  {
    match env.base64Decode(e.value)
    case Err(cause) => Err(DecodeFailure(cause))
    case Ok(raw) =>
      match GetKey(e.keyType, raw, env.unmarshalP256)
      case Err(m) => Err(m)
      case Ok(k) =>
        if e.recovery then Ok(Rotate(RecoveryKeyOpt(k)))
        else if e.update then Ok(Rotate(UpdateKeyOpt(k)))
        else
          match env.jwkFromKey(k)
          case Err(m) => Err(m)
          case Ok(jwk) =>
            match env.newVerificationMethod(e.id, e.vmType, "", jwk)
            case Err(m) => Err(m)
            case Ok(vm) =>
              match ParsePurposes(e.purposes)
              case Err(m) => Err(m)
              case Ok(rels) => Ok(Track(e.id, raw, vm, rels))
  }

  /** The checks after the key type, one by one: a recovery or update key
      becomes its option at once; an ordinary key's JWK and verification
      method come from the collaborators, whose errors are passed through
      unchanged, and its purposes decide the rest. */
  lemma ClassifyDetails(e: PublicKeyEntry, env: Env)
    requires env.base64Decode(e.value).Ok?
    requires e.keyType == Ed25519KeyType || e.keyType == P256KeyType
    ensures var raw := env.base64Decode(e.value).value;
      var k := GetKey(e.keyType, raw, env.unmarshalP256).value;
      var jwk := env.jwkFromKey(k);
      && (e.recovery ==> Classify(e, env) == Ok(Rotate(RecoveryKeyOpt(k))))
      && (!e.recovery && e.update ==> Classify(e, env) == Ok(Rotate(UpdateKeyOpt(k))))
      && (IsOrdinary(e) && jwk.Err? ==> Classify(e, env) == Err(jwk.reason))
      && (IsOrdinary(e) && jwk.Ok? && env.newVerificationMethod(e.id, e.vmType, "", jwk.value).Err? ==>
            Classify(e, env) == Err(env.newVerificationMethod(e.id, e.vmType, "", jwk.value).reason))
      && (IsOrdinary(e) && jwk.Ok? && env.newVerificationMethod(e.id, e.vmType, "", jwk.value).Ok? ==>
            && (ParsePurposes(e.purposes).Err? ==> Classify(e, env) == Err(ParsePurposes(e.purposes).reason))
            && (ParsePurposes(e.purposes).Ok? ==>
                  Classify(e, env) == Ok(Track(e.id, raw, env.newVerificationMethod(e.id, e.vmType, "", jwk.value).value,
                                               ParsePurposes(e.purposes).value))))
  {
  }

  predicate Valid(e: PublicKeyEntry, env: Env)
  {
    Classify(e, env).Ok?
  }

  /** Adds one valid entry's contribution to the draft. */
  function Apply(a: KeyAction, d: Draft): (r: Draft)
    ensures a.Rotate? ==> r.doc == d.doc && r.keysID == d.keysID && r.options == d.options + [a.option]
    ensures a.Track? ==>
      && r.options == d.options
      && r.keysID == d.keysID[a.id := a.raw]
      && r.doc.services == d.doc.services
      && forall rel :: Bucket(r.doc, rel) == Bucket(d.doc, rel) + Repeat(Referenced(a.vm, rel), multiset(a.relationships)[rel])
  {
    match a
    case Rotate(opt) => d.(options := d.options + [opt])
    case Track(id, raw, vm, rels) => Draft(AddReferences(d.doc, vm, rels), d.options, d.keysID[id := raw])
  }

  /** The loop over the public keys: entries in submitted order, stopping
      at the first one that fails. */
  function AddKeys(entries: seq<PublicKeyEntry>, d: Draft, env: Env): (r: Result<Draft>)
    ensures r.Ok? <==> forall i :: 0 <= i < |entries| ==> Valid(entries[i], env)
    ensures r.Ok? ==> r.value.doc.services == d.doc.services
    decreases |entries|
  {
    if |entries| == 0 then Ok(d)
    else
      match Classify(entries[0], env)
      case Err(m) => Err(m)
      case Ok(a) =>
        var r := AddKeys(entries[1..], Apply(a, d), env);
        assert forall i :: 0 <= i < |entries| - 1 ==> entries[1..][i] == entries[i + 1];
        r
  }

  /** Copies one submitted service into the document's form. */
  function ToService(s: ServiceEntry): Service
  {
    Service(s.id, s.serviceType, s.priority, s.recipientKeys, s.routingKeys, s.endpoint)
  }

  /** Reads a document service back in the submitted form. */
  function FromService(s: Service): ServiceEntry
  {
    ServiceEntry(s.id, s.serviceType, s.priority, s.recipientKeys, s.routingKeys, s.serviceEndpoint)
  }

  /** The services of the document, in submitted order, field for field. */
  function CopyServices(ss: seq<ServiceEntry>): (r: seq<Service>)
    ensures |r| == |ss|
    ensures forall i :: 0 <= i < |ss| ==>
      && r[i].id == ss[i].id
      && r[i].serviceType == ss[i].serviceType
      && r[i].priority == ss[i].priority
      && r[i].recipientKeys == ss[i].recipientKeys
      && r[i].routingKeys == ss[i].routingKeys
      && r[i].serviceEndpoint == ss[i].endpoint
    ensures forall i :: 0 <= i < |ss| ==> FromService(r[i]) == ss[i]
  {
    seq(|ss|, i requires 0 <= i < |ss| => ToService(ss[i]))
  }

  function Respond(req: RegisterRequest, state: DidState, submitted: Option<Submission>): Registration
  {
    Registration(RegisterResponse(req.jobId, state), submitted)
  }

  /** The registration handler after JSON decoding. */
  function Register(req: RegisterRequest, env: Env): (r: Registration)
    ensures r.response.jobId == req.jobId
    ensures |req.publicKeys| == 0 ==> r.response.didState == Failed(EmptyKeysReason) && r.submitted.None?
    ensures r.submitted.Some? <==> |req.publicKeys| > 0 && forall i :: 0 <= i < |req.publicKeys| ==> Valid(req.publicKeys[i], env)
    ensures r.submitted.Some? ==> r.submitted.value.doc.services == CopyServices(req.services)
    ensures r.response.didState.Finished? ==>
      r.submitted.Some? && env.create(r.submitted.value.doc, r.submitted.value.options) == Ok(r.response.didState.identifier)
    ensures r.submitted.Some? && env.create(r.submitted.value.doc, r.submitted.value.options).Err? ==>
      r.response.didState == Failed(CreateFailure(env.create(r.submitted.value.doc, r.submitted.value.options).reason))
    ensures r.submitted.Some? && env.create(r.submitted.value.doc, r.submitted.value.options).Ok? ==>
      && r.response.didState.Finished?
      && r.response.didState.identifier == env.create(r.submitted.value.doc, r.submitted.value.options).value
      && r.response.didState.secret
         == SecretBundle(AddKeys(req.publicKeys, EmptyDraft, env).value.keysID, r.response.didState.identifier, env.base58Encode)
    ensures r.submitted.Some? ==>
      && r.submitted.value.doc == AddKeys(req.publicKeys, EmptyDraft, env).value.doc.(services := CopyServices(req.services))
      && r.submitted.value.options == AddKeys(req.publicKeys, EmptyDraft, env).value.options
    ensures r.submitted.None? && |req.publicKeys| > 0 ==>
      r.response.didState == Failed(AddKeys(req.publicKeys, EmptyDraft, env).reason)
  {
    if |req.publicKeys| == 0 then
      Respond(req, Failed(EmptyKeysReason), None)
    else
      match AddKeys(req.publicKeys, EmptyDraft, env)
      case Err(m) => Respond(req, Failed(m), None)
      case Ok(d) =>
        var doc := d.doc.(services := d.doc.services + CopyServices(req.services));
        var submission := Submission(doc, d.options);
        match env.create(doc, d.options)
        case Err(cause) => Respond(req, Failed(CreateFailure(cause)), Some(submission))
        case Ok(id) => Respond(req, Finished(id, SecretBundle(d.keysID, id, env.base58Encode)), Some(submission))
  }
}

/** What the whole registration guarantees, stated over the submitted
    entries rather than over the draft threaded through the loop. */
module RegistrationFacts {
  import opened Results
  import opened Keys
  import opened Document
  import opened Secrets
  import opened Registration

  predicate AllValid(entries: seq<PublicKeyEntry>, env: Env)
  {
    forall i :: 0 <= i < |entries| ==> Valid(entries[i], env)
  }

  /** The bytes of a valid entry. */
  function Decoded(e: PublicKeyEntry, env: Env): Bytes
    requires Valid(e, env)
  {
    env.base64Decode(e.value).value
  }

  /** The key of an entry whose bytes decode and whose type is supported. */
  function SupportedKey(e: PublicKeyEntry, env: Env): PublicKey
    requires env.base64Decode(e.value).Ok?
    requires e.keyType == Ed25519KeyType || e.keyType == P256KeyType
  {
    GetKey(e.keyType, env.base64Decode(e.value).value, env.unmarshalP256).value
  }

  /** The typed key of a valid entry. */
  function KeyOf(e: PublicKeyEntry, env: Env): PublicKey
    requires Valid(e, env)
  {
    SupportedKey(e, env)
  }

  /** The option a valid rotation entry is sent as: recovery wins over update. */
  function RotationOption(e: PublicKeyEntry, env: Env): MethodOption
    requires Valid(e, env) && !IsOrdinary(e)
  {
    if e.recovery then RecoveryKeyOpt(KeyOf(e, env)) else UpdateKeyOpt(KeyOf(e, env))
  }

  /** One option per rotation entry, in submitted order. */
  function RotationOptions(entries: seq<PublicKeyEntry>, env: Env): seq<MethodOption>
    requires AllValid(entries, env)
    decreases |entries|
  {
    if |entries| == 0 then []
    else OwnOptions(entries[0], env) + RotationOptions(entries[1..], env)
  }

  /** The option one valid entry adds: its rotation option, or none. */
  function OwnOptions(e: PublicKeyEntry, env: Env): seq<MethodOption>
    requires Valid(e, env)
  {
    if IsOrdinary(e) then [] else [RotationOption(e, env)]
  }

  /** The verification method built for a valid ordinary entry: the
      collaborator's method for the entry's id and type, with no
      controller, around the JWK of the entry's key. */
  function MethodOf(e: PublicKeyEntry, env: Env): (vm: VerificationMethod)
    requires Valid(e, env) && IsOrdinary(e)
    ensures Classify(e, env).value.vm == vm
  {
    ClassifyDetails(e, env);
    var jwk := env.jwkFromKey(KeyOf(e, env)).value;
    env.newVerificationMethod(e.id, e.vmType, "", jwk).value
  }

  /** The references every ordinary entry puts under `rel`, entry after
      entry: one per occurrence of the relationship's tag in its purposes. */
  function OrdinaryRefs(entries: seq<PublicKeyEntry>, rel: Relationship, env: Env): seq<Verification>
    requires AllValid(entries, env)
    decreases |entries|
  {
    if |entries| == 0 then []
    else OwnRefs(entries[0], rel, env) + OrdinaryRefs(entries[1..], rel, env)
  }

  /** The references one valid entry puts under `rel`: one per occurrence of
      the relationship's tag in an ordinary entry's purposes. */
  function OwnRefs(e: PublicKeyEntry, rel: Relationship, env: Env): seq<Verification>
    requires Valid(e, env)
  {
    if IsOrdinary(e) then Repeat(Referenced(MethodOf(e, env), rel), multiset(e.purposes)[PurposeTag(rel)]) else []
  }

  /** The keys tracked after one valid entry: an ordinary entry (re)maps its
      id to its bytes; a rotation entry leaves the map alone. */
  function TrackOne(e: PublicKeyEntry, m: map<string, Bytes>, env: Env): map<string, Bytes>
    requires Valid(e, env)
  {
    if IsOrdinary(e) then m[e.id := Decoded(e, env)] else m
  }

  /** The keys tracked after a list of valid entries, entry after entry. */
  function TrackFold(entries: seq<PublicKeyEntry>, m: map<string, Bytes>, env: Env): map<string, Bytes>
    requires AllValid(entries, env)
    decreases |entries|
  {
    if |entries| == 0 then m
    else
      AllValidTail(entries, env);
      TrackFold(entries[1..], TrackOne(entries[0], m, env), env)
  }

  /** The entry at `i` is the last ordinary entry with its id. */
  predicate LastOrdinary(entries: seq<PublicKeyEntry>, i: int)
    requires 0 <= i < |entries|
  {
    IsOrdinary(entries[i]) && forall j :: i < j < |entries| && IsOrdinary(entries[j]) ==> entries[j].id != entries[i].id
  }

  /** The entries after the first of a valid list are valid. */
  lemma AllValidTail(entries: seq<PublicKeyEntry>, env: Env)
    requires |entries| > 0 && AllValid(entries, env)
    ensures AllValid(entries[1..], env)
  {
    forall i | 0 <= i < |entries| - 1
      ensures Valid(entries[1..][i], env)
    {
      assert entries[1..][i] == entries[i + 1];
    }
  }

  /** Fail-fast: once an entry fails, the loop stops with its reason, whatever follows. */
  lemma {:induction false} FailFast(prefix: seq<PublicKeyEntry>, bad: PublicKeyEntry, rest: seq<PublicKeyEntry>, d: Draft, env: Env)
    requires AllValid(prefix, env)
    requires !Valid(bad, env)
    ensures AddKeys(prefix + [bad] + rest, d, env) == Err(Classify(bad, env).reason)
    decreases |prefix|
  {
    var entries := prefix + [bad] + rest;
    if |prefix| > 0 {
      var a := Classify(prefix[0], env).value;
      assert entries[1..] == prefix[1..] + [bad] + rest;
      FailFast(prefix[1..], bad, rest, Apply(a, d), env);
    } else {
      assert entries[0] == bad;
    }
  }

  /** The reason of a rejected request is the first bad entry's, and the
      backend is never called. */
  lemma RegisterFailsAtFirstBadKey(req: RegisterRequest, i: nat, env: Env)
    requires i < |req.publicKeys|
    requires !Valid(req.publicKeys[i], env)
    requires forall j :: 0 <= j < i ==> Valid(req.publicKeys[j], env)
    ensures Register(req, env) == Registration(RegisterResponse(req.jobId, Failed(Classify(req.publicKeys[i], env).reason)), None)
  {
    var ks := req.publicKeys;
    assert ks == ks[..i] + [ks[i]] + ks[i + 1..];
    FailFast(ks[..i], ks[i], ks[i + 1..], EmptyDraft, env);
  }

  /** An unsupported key type rejects the request at that entry, whether or
      not the entry is a recovery or update key. */
  lemma InvalidKeyTypeRejects(req: RegisterRequest, i: nat, env: Env)
    requires i < |req.publicKeys|
    requires forall j :: 0 <= j < i ==> Valid(req.publicKeys[j], env)
    requires env.base64Decode(req.publicKeys[i].value).Ok?
    requires req.publicKeys[i].keyType != Ed25519KeyType && req.publicKeys[i].keyType != P256KeyType
    ensures Register(req, env) == Registration(RegisterResponse(req.jobId, Failed(InvalidKeyType(req.publicKeys[i].keyType))), None)
  {
    RegisterFailsAtFirstBadKey(req, i, env);
  }

  /** An unsupported purpose on an ordinary key, reached after valid
      entries, rejects the request naming the first unsupported tag. */
  lemma UnsupportedPurposeRejects(req: RegisterRequest, i: nat, j: nat, env: Env)
    requires i < |req.publicKeys|
    requires forall k :: 0 <= k < i ==> Valid(req.publicKeys[k], env)
    requires IsOrdinary(req.publicKeys[i])
    requires env.base64Decode(req.publicKeys[i].value).Ok?
    requires req.publicKeys[i].keyType == Ed25519KeyType || req.publicKeys[i].keyType == P256KeyType
    requires env.jwkFromKey(SupportedKey(req.publicKeys[i], env)).Ok?
    requires env.newVerificationMethod(req.publicKeys[i].id, req.publicKeys[i].vmType, "",
                                       env.jwkFromKey(SupportedKey(req.publicKeys[i], env)).value).Ok?
    requires j < |req.publicKeys[i].purposes|
    requires ParsePurpose(req.publicKeys[i].purposes[j]).None?
    requires forall k :: 0 <= k < j ==> ParsePurpose(req.publicKeys[i].purposes[k]).Some?
    ensures Register(req, env)
      == Registration(RegisterResponse(req.jobId, Failed(UnsupportedPurpose(req.publicKeys[i].purposes[j]))), None)
  {
    var e := req.publicKeys[i];
    ClassifyDetails(e, env);
    var ps := e.purposes;
    var pr := ParsePurposes(ps);
    assert pr.Err?;
    var w :| 0 <= w < |ps| && ParsePurpose(ps[w]).None? && pr.reason == UnsupportedPurpose(ps[w])
             && forall k :: 0 <= k < w ==> ParsePurpose(ps[k]).Some?;
    assert w == j;
    RegisterFailsAtFirstBadKey(req, i, env);
  }

  /** Purposes are never read for recovery and update keys. */
  lemma RotationIgnoresPurposes(e: PublicKeyEntry, ps: seq<string>, env: Env)
    requires !IsOrdinary(e)
    ensures Classify(e.(purposes := ps), env) == Classify(e, env)
  {
  }

  /** The options sent beside the document are exactly those of the
      rotation entries, in order. */
  lemma OptionsCollected(entries: seq<PublicKeyEntry>, d: Draft, env: Env)
    requires AllValid(entries, env)
    ensures AddKeys(entries, d, env).Ok?
    ensures AddKeys(entries, d, env).value.options == d.options + RotationOptions(entries, env)
  {
    OptionsFolded(entries, d, env);
    FoldOptions(entries, d.options, env);
  }

  /** The options after a list of valid entries, appended entry after entry. */
  function OptionsFold(entries: seq<PublicKeyEntry>, acc: seq<MethodOption>, env: Env): seq<MethodOption>
    requires AllValid(entries, env)
    decreases |entries|
  {
    if |entries| == 0 then acc
    else
      AllValidTail(entries, env);
      OptionsFold(entries[1..], acc + OwnOptions(entries[0], env), env)
  }

  /** The loop collects the same options as `OptionsFold` started from the draft's. */
  lemma {:induction false} OptionsFolded(entries: seq<PublicKeyEntry>, d: Draft, env: Env)
    requires AllValid(entries, env)
    ensures AddKeys(entries, d, env).Ok?
    ensures AddKeys(entries, d, env).value.options == OptionsFold(entries, d.options, env)
    decreases |entries|
  {
    if |entries| > 0 {
      var next := OptionsStep(entries, d, env);
      OptionsFolded(entries[1..], next, env);
    }
  }

  /** Appending entry after entry is appending the rotation options at once. */
  lemma {:induction false} FoldOptions(entries: seq<PublicKeyEntry>, acc: seq<MethodOption>, env: Env)
    requires AllValid(entries, env)
    ensures OptionsFold(entries, acc, env) == acc + RotationOptions(entries, env)
    decreases |entries|
  {
    if |entries| > 0 {
      var rest := entries[1..];
      var own := OwnOptions(entries[0], env);
      AllValidTail(entries, env);
      FoldOptions(rest, acc + own, env);
      assert (acc + own) + RotationOptions(rest, env) == acc + (own + RotationOptions(rest, env));
    }
  }

  /** The part of `Step` that concerns the options. */
  lemma OptionsStep(entries: seq<PublicKeyEntry>, d: Draft, env: Env) returns (next: Draft)
    requires |entries| > 0 && AllValid(entries, env)
    ensures AllValid(entries[1..], env)
    ensures AddKeys(entries, d, env) == AddKeys(entries[1..], next, env)
    ensures next.options == d.options + OwnOptions(entries[0], env)
  {
    next := Step(entries, d, env);
  }

  /** One valid entry's whole effect: the loop continues from `next`, which
      adds the entry's own option, references and tracked key to `d`. */
  lemma Step(entries: seq<PublicKeyEntry>, d: Draft, env: Env) returns (next: Draft)
    requires |entries| > 0 && AllValid(entries, env)
    ensures AllValid(entries[1..], env)
    ensures AddKeys(entries, d, env) == AddKeys(entries[1..], next, env)
    ensures next.options == d.options + OwnOptions(entries[0], env)
    ensures next.keysID == TrackOne(entries[0], d.keysID, env)
    ensures forall rel :: Bucket(next.doc, rel) == Bucket(d.doc, rel) + OwnRefs(entries[0], rel, env)
  {
    var e := entries[0];
    AllValidTail(entries, env);
    ClassifyDetails(e, env);
    var a := Classify(e, env).value;
    next := Apply(a, d);
    if IsOrdinary(e) {
      forall rel
        ensures Bucket(next.doc, rel) == Bucket(d.doc, rel) + OwnRefs(e, rel, env)
      {
        TagCount(a.relationships, e.purposes, rel);
      }
    }
  }

  /** Each bucket receives, entry after entry, one reference per occurrence
      of its tag in an ordinary entry's purposes; rotation entries add nothing. */
  lemma {:induction false} BucketsCollected(entries: seq<PublicKeyEntry>, d: Draft, env: Env)
    requires AllValid(entries, env)
    ensures AddKeys(entries, d, env).Ok?
    ensures forall rel :: Bucket(AddKeys(entries, d, env).value.doc, rel) == Bucket(d.doc, rel) + OrdinaryRefs(entries, rel, env)
    decreases |entries|
  {
    if |entries| > 0 {
      var next := Step(entries, d, env);
      BucketsCollected(entries[1..], next, env);
    }
  }

  /** The loop tracks the same keys as `TrackFold` started from the draft's. */
  lemma {:induction false} KeysFolded(entries: seq<PublicKeyEntry>, d: Draft, env: Env)
    requires AllValid(entries, env)
    ensures AddKeys(entries, d, env).Ok?
    ensures AddKeys(entries, d, env).value.keysID == TrackFold(entries, d.keysID, env)
    decreases |entries|
  {
    if |entries| > 0 {
      var next := Step(entries, d, env);
      KeysFolded(entries[1..], next, env);
    }
  }

  /** The tracked keys are the ordinary entries' ids, each with the bytes of
      the last ordinary entry carrying it; keys with no purposes count too. */
  lemma TrackedKeys(entries: seq<PublicKeyEntry>, d: Draft, env: Env)
    requires AllValid(entries, env)
    ensures AddKeys(entries, d, env).Ok?
    ensures forall k :: k in AddKeys(entries, d, env).value.keysID <==>
      k in d.keysID || exists i :: 0 <= i < |entries| && IsOrdinary(entries[i]) && entries[i].id == k
    ensures forall i :: 0 <= i < |entries| && LastOrdinary(entries, i) ==>
      AddKeys(entries, d, env).value.keysID[entries[i].id] == Decoded(entries[i], env)
    ensures forall k :: k in d.keysID && (forall i :: 0 <= i < |entries| && IsOrdinary(entries[i]) ==> entries[i].id != k) ==>
      AddKeys(entries, d, env).value.keysID[k] == d.keysID[k]
  {
    KeysFolded(entries, d, env);
    FoldKeys(entries, d.keysID, env);
  }

  /** What `TrackFold` leaves in the map: the ordinary entries' ids, the last
      ordinary entry's bytes for each, and the other keys untouched. */
  lemma FoldKeys(entries: seq<PublicKeyEntry>, m: map<string, Bytes>, env: Env)
    requires AllValid(entries, env)
    ensures forall k :: k in TrackFold(entries, m, env) <==>
      k in m || exists i :: 0 <= i < |entries| && IsOrdinary(entries[i]) && entries[i].id == k
    ensures forall i :: 0 <= i < |entries| && LastOrdinary(entries, i) ==>
      TrackFold(entries, m, env)[entries[i].id] == Decoded(entries[i], env)
    ensures forall k :: k in m && (forall i :: 0 <= i < |entries| && IsOrdinary(entries[i]) ==> entries[i].id != k) ==>
      TrackFold(entries, m, env)[k] == m[k]
  {
    FoldDomain(entries, m, env);
    FoldLast(entries, m, env);
    FoldUntouched(entries, m, env);
  }

  /** `TrackFold` adds exactly the ordinary entries' ids to the map. */
  lemma {:induction false} FoldDomain(entries: seq<PublicKeyEntry>, m: map<string, Bytes>, env: Env)
    requires AllValid(entries, env)
    ensures forall k :: k in TrackFold(entries, m, env) <==>
      k in m || exists i :: 0 <= i < |entries| && IsOrdinary(entries[i]) && entries[i].id == k
    decreases |entries|
  {
    if |entries| > 0 {
      var e := entries[0];
      var rest := entries[1..];
      AllValidTail(entries, env);
      var m1 := TrackOne(e, m, env);
      FoldDomain(rest, m1, env);
      var r := TrackFold(entries, m, env);
      assert r == TrackFold(rest, m1, env);
      forall k | k in r
        ensures k in m || exists i :: 0 <= i < |entries| && IsOrdinary(entries[i]) && entries[i].id == k
      {
        if k !in m && !(IsOrdinary(e) && e.id == k) {
          var j :| 0 <= j < |rest| && IsOrdinary(rest[j]) && rest[j].id == k;
          assert entries[j + 1] == rest[j];
        }
      }
      forall k | k in m || exists i :: 0 <= i < |entries| && IsOrdinary(entries[i]) && entries[i].id == k
        ensures k in r
      {
        if k !in m && !(IsOrdinary(e) && e.id == k) {
          var j :| 0 <= j < |entries| && IsOrdinary(entries[j]) && entries[j].id == k;
          assert j > 0;
          assert rest[j - 1] == entries[j];
        }
      }
    }
  }

  /** After `TrackFold`, an id maps to the bytes of the last ordinary entry carrying it. */
  lemma {:induction false} FoldLast(entries: seq<PublicKeyEntry>, m: map<string, Bytes>, env: Env)
    requires AllValid(entries, env)
    ensures forall i :: 0 <= i < |entries| && LastOrdinary(entries, i) ==>
      var r := TrackFold(entries, m, env); entries[i].id in r && r[entries[i].id] == Decoded(entries[i], env)
    decreases |entries|
  {
    if |entries| > 0 {
      var e := entries[0];
      var rest := entries[1..];
      AllValidTail(entries, env);
      var m1 := TrackOne(e, m, env);
      FoldLast(rest, m1, env);
      FoldUntouched(rest, m1, env);
      var r := TrackFold(entries, m, env);
      assert r == TrackFold(rest, m1, env);
      forall i | 0 <= i < |entries| && LastOrdinary(entries, i)
        ensures entries[i].id in r && r[entries[i].id] == Decoded(entries[i], env)
      {
        if i > 0 {
          assert entries[i] == rest[i - 1];
          assert LastOrdinary(rest, i - 1);
        } else {
          forall j | 0 <= j < |rest| && IsOrdinary(rest[j])
            ensures rest[j].id != e.id
          {
            assert rest[j] == entries[j + 1];
          }
        }
      }
    }
  }

  /** `TrackFold` keeps the value of every key no ordinary entry carries. */
  lemma {:induction false} FoldUntouched(entries: seq<PublicKeyEntry>, m: map<string, Bytes>, env: Env)
    requires AllValid(entries, env)
    ensures forall k :: k in m && (forall i :: 0 <= i < |entries| && IsOrdinary(entries[i]) ==> entries[i].id != k) ==>
      var r := TrackFold(entries, m, env); k in r && r[k] == m[k]
    decreases |entries|
  {
    if |entries| > 0 {
      var e := entries[0];
      var rest := entries[1..];
      AllValidTail(entries, env);
      var m1 := TrackOne(e, m, env);
      FoldUntouched(rest, m1, env);
      assert TrackFold(entries, m, env) == TrackFold(rest, m1, env);
      forall k | k in m && (forall i :: 0 <= i < |entries| && IsOrdinary(entries[i]) ==> entries[i].id != k)
        ensures forall i :: 0 <= i < |rest| && IsOrdinary(rest[i]) ==> rest[i].id != k
      {
        forall i | 0 <= i < |rest| && IsOrdinary(rest[i])
          ensures rest[i].id != k
        {
          assert rest[i] == entries[i + 1];
        }
      }
    }
  }

  /** A request of valid entries reaches the backend with the rotation
      entries' options, buckets filled from the ordinary entries alone, and
      the submitted services; a successful create finishes it with the
      created identifier. */
  lemma SubmissionFromEntries(req: RegisterRequest, env: Env)
    requires |req.publicKeys| > 0 && AllValid(req.publicKeys, env)
    ensures Register(req, env).submitted.Some?
    ensures var sub := Register(req, env).submitted.value;
      && sub.options == RotationOptions(req.publicKeys, env)
      && sub.doc.services == CopyServices(req.services)
      && (forall rel :: Bucket(sub.doc, rel) == OrdinaryRefs(req.publicKeys, rel, env))
      && (env.create(sub.doc, sub.options).Ok? ==>
            Register(req, env).response.didState == Finished(env.create(sub.doc, sub.options).value, Register(req, env).response.didState.secret))
  {
    SubmittedOptions(req, env);
    SubmittedBuckets(req, env);
  }

  /** The options of a submission are the rotation entries' options. */
  lemma SubmittedOptions(req: RegisterRequest, env: Env)
    requires |req.publicKeys| > 0 && AllValid(req.publicKeys, env)
    ensures Register(req, env).submitted.Some?
    ensures Register(req, env).submitted.value.options == RotationOptions(req.publicKeys, env)
  {
    OptionsCollected(req.publicKeys, EmptyDraft, env);
  }

  /** Each bucket of a submitted document holds the ordinary entries' references. */
  lemma SubmittedBuckets(req: RegisterRequest, env: Env)
    requires |req.publicKeys| > 0 && AllValid(req.publicKeys, env)
    ensures Register(req, env).submitted.Some?
    ensures forall rel :: Bucket(Register(req, env).submitted.value.doc, rel) == OrdinaryRefs(req.publicKeys, rel, env)
  {
    BucketsCollected(req.publicKeys, EmptyDraft, env);
    var d := AddKeys(req.publicKeys, EmptyDraft, env).value;
    var doc := Register(req, env).submitted.value.doc;
    assert doc == d.doc.(services := CopyServices(req.services));
    forall rel
      ensures Bucket(doc, rel) == OrdinaryRefs(req.publicKeys, rel, env)
    {
      assert Bucket(doc, rel) == Bucket(d.doc, rel);
      assert Bucket(EmptyDraft.doc, rel) == [];
    }
  }

  /** The ids of the ordinary entries of a request. */
  function OrdinaryIds(entries: seq<PublicKeyEntry>): set<string>
  {
    set i | 0 <= i < |entries| && IsOrdinary(entries[i]) :: entries[i].id
  }

  /** A finished registration returns one secret entry per distinct
      ordinary key id, named inside the new document and carrying the bytes
      last submitted under that id; rotation keys have none. */
  lemma FinishedSecrets(req: RegisterRequest, env: Env)
    requires |req.publicKeys| > 0 && AllValid(req.publicKeys, env)
    requires var d := AddKeys(req.publicKeys, EmptyDraft, env).value;
      env.create(d.doc.(services := CopyServices(req.services)), d.options).Ok?
    ensures Register(req, env).response.didState.Finished?
    ensures var st := Register(req, env).response.didState;
      && |st.secret| == |OrdinaryIds(req.publicKeys)|
      && (forall i :: 0 <= i < |req.publicKeys| && LastOrdinary(req.publicKeys, i) ==>
            SecretKey(KeyRef(st.identifier, req.publicKeys[i].id), env.base58Encode(Decoded(req.publicKeys[i], env))) in st.secret)
      && (forall s :: s in st.secret ==>
            exists i :: 0 <= i < |req.publicKeys| && IsOrdinary(req.publicKeys[i]) && s.id == KeyRef(st.identifier, req.publicKeys[i].id))
  {
    var d := AddKeys(req.publicKeys, EmptyDraft, env).value;
    var id := env.create(d.doc.(services := CopyServices(req.services)), d.options).value;
    FinishedState(req, env);
    BundleOfEntries(req.publicKeys, id, env);
  }

  /** The response of a request whose create succeeds. */
  lemma FinishedState(req: RegisterRequest, env: Env)
    requires |req.publicKeys| > 0 && AllValid(req.publicKeys, env)
    requires var d := AddKeys(req.publicKeys, EmptyDraft, env).value;
      env.create(d.doc.(services := CopyServices(req.services)), d.options).Ok?
    ensures var d := AddKeys(req.publicKeys, EmptyDraft, env).value;
      var id := env.create(d.doc.(services := CopyServices(req.services)), d.options).value;
      Register(req, env).response.didState == Finished(id, SecretBundle(d.keysID, id, env.base58Encode))
  {
    var r := Register(req, env);
    assert r.submitted.Some?;
  }

  /** The secret bundle of the keys a request tracks, described by its entries. */
  lemma BundleOfEntries(ks: seq<PublicKeyEntry>, id: string, env: Env)
    requires AllValid(ks, env)
    ensures var b := SecretBundle(AddKeys(ks, EmptyDraft, env).value.keysID, id, env.base58Encode);
      && |b| == |OrdinaryIds(ks)|
      && (forall i :: 0 <= i < |ks| && LastOrdinary(ks, i) ==>
            SecretKey(KeyRef(id, ks[i].id), env.base58Encode(Decoded(ks[i], env))) in b)
      && (forall s :: s in b ==> exists i :: 0 <= i < |ks| && IsOrdinary(ks[i]) && s.id == KeyRef(id, ks[i].id))
  {
    TrackedKeys(ks, EmptyDraft, env);
    var m := AddKeys(ks, EmptyDraft, env).value.keysID;
    TrackedIds(ks, m);
    BundleIds(ks, m, id, env.base58Encode);
  }

  /** The tracked ids, as a set, are the ordinary entries' ids. */
  lemma TrackedIds(ks: seq<PublicKeyEntry>, m: map<string, Bytes>)
    requires forall k :: k in m <==> exists i :: 0 <= i < |ks| && IsOrdinary(ks[i]) && ks[i].id == k
    ensures m.Keys == OrdinaryIds(ks)
    ensures |m| == |OrdinaryIds(ks)|
  {
    forall k | k in OrdinaryIds(ks)
      ensures k in m
    {
      var i :| 0 <= i < |ks| && IsOrdinary(ks[i]) && ks[i].id == k;
    }
    assert |m| == |m.Keys|;
  }

  /** Every bundle entry is named after an ordinary entry's id. */
  lemma BundleIds(ks: seq<PublicKeyEntry>, m: map<string, Bytes>, id: string, base58: Bytes -> string)
    requires m.Keys == OrdinaryIds(ks)
    ensures forall s :: s in SecretBundle(m, id, base58) ==>
      exists i :: 0 <= i < |ks| && IsOrdinary(ks[i]) && s.id == KeyRef(id, ks[i].id)
  {
    forall s | s in SecretBundle(m, id, base58)
      ensures exists i :: 0 <= i < |ks| && IsOrdinary(ks[i]) && s.id == KeyRef(id, ks[i].id)
    {
      var k := s.id[|id| + 1..];
      assert s.id == KeyRef(id, k);
      assert k in OrdinaryIds(ks);
      var i :| 0 <= i < |ks| && IsOrdinary(ks[i]) && ks[i].id == k;
    }
  }

  /** The single-key example: one Ed25519 authentication key and a backend
      that answers with a fresh identifier. */
  lemma SingleKeyExample(env: Env, raw: Bytes, jwk: Jwk, vm: VerificationMethod)
    requires env.base64Decode("a2V5") == Ok(raw)
    requires env.jwkFromKey(Ed25519Key(raw)) == Ok(jwk)
    requires env.newVerificationMethod("k1", "JsonWebKey2020", "", jwk) == Ok(vm)
    requires env.create(DidDoc([Referenced(vm, Authentication)], [], [], [], [], []), []) == Ok("did:example:abc")
    ensures Register(RegisterRequest("j1", [PublicKeyEntry("k1", "JsonWebKey2020", Ed25519KeyType, "a2V5", [PurposeTag(Authentication)], false, false)], []), env)
      == Registration(
           RegisterResponse("j1", Finished("did:example:abc", {SecretKey("did:example:abc#k1", env.base58Encode(raw))})),
           Some(Submission(DidDoc([Referenced(vm, Authentication)], [], [], [], [], []), [])))
  {
    var e := PublicKeyEntry("k1", "JsonWebKey2020", Ed25519KeyType, "a2V5", [PurposeTag(Authentication)], false, false);
    var req := RegisterRequest("j1", [e], []);
    var doc := DidDoc([Referenced(vm, Authentication)], [], [], [], [], []);
    var d := Draft(doc, [], map["k1" := raw]);
    ExampleKeys(env, raw, jwk, vm);
    assert doc.(services := doc.services + CopyServices([])) == doc;
    var bundle := SecretBundle(d.keysID, "did:example:abc", env.base58Encode);
    ExampleBundle(d.keysID, raw, env.base58Encode);
    assert Register(req, env) == Respond(req, Finished("did:example:abc", bundle), Some(Submission(doc, [])));
  }

  lemma ExampleKeys(env: Env, raw: Bytes, jwk: Jwk, vm: VerificationMethod)
    requires env.base64Decode("a2V5") == Ok(raw)
    requires env.jwkFromKey(Ed25519Key(raw)) == Ok(jwk)
    requires env.newVerificationMethod("k1", "JsonWebKey2020", "", jwk) == Ok(vm)
    ensures AddKeys([PublicKeyEntry("k1", "JsonWebKey2020", Ed25519KeyType, "a2V5", [PurposeTag(Authentication)], false, false)], EmptyDraft, env)
      == Ok(Draft(DidDoc([Referenced(vm, Authentication)], [], [], [], [], []), [], map["k1" := raw]))
  {
    var e := PublicKeyEntry("k1", "JsonWebKey2020", Ed25519KeyType, "a2V5", [PurposeTag(Authentication)], false, false);
    assert ParsePurposes([PurposeTag(Authentication)]) == Ok([Authentication]) by {
      var ps: seq<string> := [PurposeTag(Authentication)];
      assert ps[0] == PurposeTag(Authentication);
      ParsePurposeTag(Authentication);
      assert ps[1..] == [];
      assert ParsePurposes(ps[1..]) == Ok([]);
      assert ParsePurposes(ps) == Ok([Authentication] + []);
      assert [Authentication] + [] == [Authentication];
    }
    assert GetKey(Ed25519KeyType, raw, env.unmarshalP256) == Ok(Ed25519Key(raw));
    assert Classify(e, env) == Ok(Track("k1", raw, vm, [Authentication]));
    var doc := DidDoc([Referenced(vm, Authentication)], [], [], [], [], []);
    assert AddReferences(EmptyDoc, vm, [Authentication]) == doc by {
      assert [Authentication][1..] == [];
    }
    assert [e][1..] == [];
  }

  lemma ExampleBundle(keys: map<string, Bytes>, raw: Bytes, base58: Bytes -> string)
    requires keys == map["k1" := raw]
    ensures SecretBundle(keys, "did:example:abc", base58) == {SecretKey("did:example:abc#k1", base58(raw))}
  {
    var bundle := SecretBundle(keys, "did:example:abc", base58);
    assert KeyRef("did:example:abc", "k1") == "did:example:abc#k1";
    assert SecretKey("did:example:abc#k1", base58(raw)) in bundle;
    assert |keys| == 1 by {
      assert keys.Keys == {"k1"};
    }
  }
}

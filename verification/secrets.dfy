/** The secret bundle of a finished registration, built by `createKeys`
    (pkg/restapi/didmethod/operation/operations.go, lines 239-247). */
module Secrets {
  import opened Keys

  datatype SecretKey = SecretKey(id: string, publicKeyBase58: string)

  /** The id of a secret entry: the key's id inside the new document. */
  function KeyRef(didID: string, keyID: string): string
  {
    didID + "#" + keyID
  }

  /** The document identifier and the key id can be read back from a
      reference, so references of different keys differ. */
  lemma KeyRefInjective(didID: string, a: string, b: string)
    requires KeyRef(didID, a) == KeyRef(didID, b)
    ensures a == b
  {
    var n := |didID| + 1;
    assert a == KeyRef(didID, a)[n..];
    assert b == KeyRef(didID, b)[n..];
  }

  function Entry(keysID: map<string, Bytes>, didID: string, base58: Bytes -> string, k: string): SecretKey
    requires k in keysID
  {
    SecretKey(KeyRef(didID, k), base58(keysID[k]))
  }

  /** One entry per tracked key, in no particular order: the handler walks
      a Go map. */
  function SecretBundle(keysID: map<string, Bytes>, didID: string, base58: Bytes -> string): (r: set<SecretKey>)
    ensures |r| == |keysID|
    ensures forall k :: k in keysID ==> SecretKey(KeyRef(didID, k), base58(keysID[k])) in r
    ensures forall s :: s in r ==>
      && |s.id| > |didID|
      && s.id[..|didID| + 1] == didID + "#"
      && s.id[|didID| + 1..] in keysID
      && s.publicKeyBase58 == base58(keysID[s.id[|didID| + 1..]])
  {
    var r := set k | k in keysID :: Entry(keysID, didID, base58, k);
    BundleSize(keysID, didID, base58);
    assert forall k :: k in keysID ==> KeyRef(didID, k)[|didID| + 1..] == k;
    r
  }

  lemma BundleSize(keysID: map<string, Bytes>, didID: string, base58: Bytes -> string)
    ensures |set k | k in keysID :: Entry(keysID, didID, base58, k)| == |keysID|
  {
    var f := k => if k in keysID then Entry(keysID, didID, base58, k) else SecretKey(KeyRef(didID, k), "");
    forall a, b | a in keysID.Keys && b in keysID.Keys && f(a) == f(b)
      ensures a == b
    {
      KeyRefInjective(didID, a, b);
    }
    ImageSize(keysID.Keys, f);
    assert (set k | k in keysID :: Entry(keysID, didID, base58, k)) == (set k | k in keysID.Keys :: f(k));
  }

  /** An injective function maps a set onto a set of the same size. */
  lemma {:induction false} ImageSize(s: set<string>, f: string -> SecretKey)
    requires forall a, b :: a in s && b in s && f(a) == f(b) ==> a == b
    ensures |set k | k in s :: f(k)| == |s|
    decreases |s|
  {
    if s != {} {
      var k :| k in s;
      var rest := s - {k};
      ImageSize(rest, f);
      assert (set j | j in s :: f(j)) == (set j | j in rest :: f(j)) + {f(k)};
      assert f(k) !in (set j | j in rest :: f(j));
    }
  }

  /** The handler's loop: walks the tracked keys in an arbitrary order and
      lists one entry per key. */
  method CreateKeys(keysID: map<string, Bytes>, didID: string, base58: Bytes -> string) returns (keys: seq<SecretKey>)
    ensures |keys| == |keysID|
    ensures forall i, j :: 0 <= i < j < |keys| ==> keys[i] != keys[j]
    ensures forall s :: s in keys <==> s in SecretBundle(keysID, didID, base58)
  {
    keys := [];
    ghost var visited: seq<string> := [];
    var remaining := keysID.Keys;
    while remaining != {}
      invariant remaining <= keysID.Keys
      invariant |keys| == |visited|
      invariant |keys| + |remaining| == |keysID|
      invariant forall i :: 0 <= i < |visited| ==> visited[i] in keysID.Keys - remaining
      invariant forall i :: 0 <= i < |keys| ==> keys[i] == Entry(keysID, didID, base58, visited[i])
      invariant forall k :: k in keysID.Keys - remaining ==> Entry(keysID, didID, base58, k) in keys
      invariant forall i, j :: 0 <= i < j < |keys| ==> keys[i] != keys[j]
      decreases remaining
    {
      var k :| k in remaining;
      var e := Entry(keysID, didID, base58, k);
      forall i | 0 <= i < |keys|
        ensures keys[i] != e
      {
        if keys[i] == e {
          KeyRefInjective(didID, visited[i], k);
        }
      }
      keys := keys + [e];
      visited := visited + [k];
      remaining := remaining - {k};
    }
    assert keysID.Keys - remaining == keysID.Keys;
    forall s | s in keys
      ensures s in SecretBundle(keysID, didID, base58)
    {
      var i :| 0 <= i < |keys| && keys[i] == s;
      assert s == Entry(keysID, didID, base58, visited[i]);
    }
  }
}

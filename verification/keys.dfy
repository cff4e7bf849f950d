/** Key material and the key-type dispatch of `getKey`
    (pkg/restapi/didmethod/operation/operations.go, lines 226-237). */
module Keys {
  import opened Results

  newtype byte = b: int | 0 <= b < 256

  type Bytes = seq<byte>

  /** The two key types the registrar accepts. */
  const Ed25519KeyType: string := "Ed25519"
  const P256KeyType: string := "P256"

  const InvalidKeyTypePrefix: string := "invalid key type: "

  /** An affine point on the P-256 curve. */
  datatype Point = Point(x: nat, y: nat)

  /** A typed public key. A P-256 key whose bytes are not a point on the curve
      still exists, with no coordinates: the curve library's unmarshal
      result is not checked. */
  datatype PublicKey =
    | Ed25519Key(raw: Bytes)
    | P256Key(point: Option<Point>)

  function InvalidKeyType(keyType: string): (r: string)
    ensures |r| == |InvalidKeyTypePrefix| + |keyType|
    ensures r[..|InvalidKeyTypePrefix|] == InvalidKeyTypePrefix
    ensures r[|InvalidKeyTypePrefix|..] == keyType
  {
    InvalidKeyTypePrefix + keyType
  }

  /** Turns declared key type and decoded bytes into a public key.
      `unmarshal` stands for the curve library's point decoding. */
  function GetKey(keyType: string, value: Bytes, unmarshal: Bytes -> Option<Point>): (r: Result<PublicKey>)
    ensures r.Err? <==> keyType != Ed25519KeyType && keyType != P256KeyType
    ensures r.Err? ==> r.reason == InvalidKeyType(keyType)
    ensures keyType == Ed25519KeyType ==> r == Ok(Ed25519Key(value))
    ensures keyType == P256KeyType ==> r.Ok? && r.value.P256Key? && r.value.point == unmarshal(value)
  {
    if keyType == Ed25519KeyType then
      Ok(Ed25519Key(value))
    else if keyType == P256KeyType then
      Ok(P256Key(unmarshal(value)))
    else
      Err(InvalidKeyType(keyType))
  }

  /** The failure text names the rejected key type: two distinct rejected
      types never share a message. */
  lemma InvalidKeyTypeInjective(a: string, b: string)
    requires InvalidKeyType(a) == InvalidKeyType(b)
    ensures a == b
  {
    assert a == InvalidKeyType(a)[|InvalidKeyTypePrefix|..];
  }
}

/** Optional values. */
module Wrappers {
  datatype Option<+T> = None | Some(value: T)
}

/** Symbolic authenticated encryption, and the onion of layers that the client adds and the relays take off. */
module Onion {
  import opened MachineInts
  import opened Nonces
  import opened Wrappers

  type Key = s: seq<byte> | |s| == 32 witness seq(32, _ => 0)

  /** What may lie under the last layer: bytes of a stream, or one of the two encoded requests. */
  datatype Msg =
    | Raw(bytes: seq<byte>)
    | BeginDto(sid: uint16, target: string)
    | ConnectDto(target: string)

  /** A byte string, known by how it was made. */
  datatype Blob =
    | Plain(msg: Msg)
    | Sealed(key: Key, nonce: Nonce, inner: Blob)

  const TAG_SIZE: nat := 16
  const MAX_PAYLOAD_SIZE: nat := 508

  /** The lengths the payload encoder gives; its byte format is left abstract. */
  datatype Sizes = Sizes(data: (uint16, nat) -> nat, begin: (uint16, string) -> nat, connect: string -> nat)
  {
    /** A longer data field never has a shorter encoding, an encoding is no shorter than the data, and a data payload without
        data fits in a cell. */
    ghost predicate Valid() {
      && (forall sid, m, n :: m <= n ==> data(sid, m) <= data(sid, n))
      && (forall sid, n: nat :: n <= data(sid, n))
      && (forall sid :: data(sid, 0) <= MAX_PAYLOAD_SIZE)
    }
  }

  function MsgLen(z: Sizes, m: Msg): nat {
    match m
    case Raw(bytes) => |bytes|
    case BeginDto(sid, target) => z.begin(sid, target)
    case ConnectDto(target) => z.connect(target)
  }

  function BlobLen(z: Sizes, b: Blob): nat {
    match b
    case Plain(m) => MsgLen(z, m)
    case Sealed(_, _, inner) => BlobLen(z, inner) + TAG_SIZE
  }

  function AESSeal(key: Key, nonce: Nonce, plain: Blob): Blob {
    Sealed(key, nonce, plain)
  }

  /** Opening checks the tag: it succeeds only under the key and the nonce of the seal. */
  function AESOpen(key: Key, nonce: Nonce, enc: Blob): Option<Blob> {
    if enc.Sealed? && enc.key == key && enc.nonce == nonce then Some(enc.inner) else None
  }

  function SealLayers(keys: seq<Key>, nonces: seq<Nonce>, plain: Blob): Blob
    requires |keys| == |nonces|
  {
    if keys == [] then plain else AESSeal(keys[0], nonces[0], SealLayers(keys[1..], nonces[1..], plain))
  }

  function OpenLayers(keys: seq<Key>, nonces: seq<Nonce>, enc: Blob): Option<Blob>
    requires |keys| == |nonces|
  {
    if keys == [] then Some(enc) else
    match AESOpen(keys[0], nonces[0], enc)
    case None => None
    case Some(dec) => OpenLayers(keys[1..], nonces[1..], dec)
  }

  method AESMultiSeal(keys: seq<Key>, nonces: seq<Nonce>, plain: Blob) returns (result: Option<Blob>)
    ensures |keys| != |nonces| ==> result == None
    ensures |keys| == |nonces| ==> result == Some(SealLayers(keys, nonces, plain))
  {
    if |keys| != |nonces| {
      return None;
    }
    var out := plain;
    var i := |keys|;
    while i > 0
      invariant 0 <= i <= |keys|
      invariant out == SealLayers(keys[i..], nonces[i..], plain)
    {
      i := i - 1;
      assert keys[i..][1..] == keys[i + 1..] && nonces[i..][1..] == nonces[i + 1..];
      out := AESSeal(keys[i], nonces[i], out);
    }
    assert keys[0..] == keys && nonces[0..] == nonces;
    return Some(out);
  }

  method AESMultiOpen(keys: seq<Key>, nonces: seq<Nonce>, enc: Blob) returns (result: Option<Blob>)
    ensures |keys| != |nonces| ==> result == None
    ensures |keys| == |nonces| ==> result == OpenLayers(keys, nonces, enc)
  {
    if |keys| != |nonces| {
      return None;
    }
    var out := enc;
    assert keys[0..] == keys && nonces[0..] == nonces;
    for i := 0 to |keys|
      invariant OpenLayers(keys[i..], nonces[i..], out) == OpenLayers(keys, nonces, enc)
    {
      assert keys[i..][1..] == keys[i + 1..] && nonces[i..][1..] == nonces[i + 1..];
      var step := AESOpen(keys[i], nonces[i], out);
      if step == None {
        return None;
      }
      out := step.value;
    }
    return Some(out);
  }

  /** Opening all layers yields `plain` exactly when the blob is the onion over `plain`: inverse and authentic. */
  lemma {:induction false} OpenExactlySealed(keys: seq<Key>, nonces: seq<Nonce>, enc: Blob, plain: Blob)
    requires |keys| == |nonces|
    ensures OpenLayers(keys, nonces, enc) == Some(plain) <==> enc == SealLayers(keys, nonces, plain)
  {
    if keys != [] && AESOpen(keys[0], nonces[0], enc).Some? {
      OpenExactlySealed(keys[1..], nonces[1..], enc.inner, plain);
    }
  }

  /** Taking off the first `k` layers one relay at a time leaves the onion of the remaining hops. */
  lemma {:induction false} PeelPrefix(keys: seq<Key>, nonces: seq<Nonce>, plain: Blob, k: nat)
    requires |keys| == |nonces| && k <= |keys|
    ensures OpenLayers(keys[..k], nonces[..k], SealLayers(keys, nonces, plain))
         == Some(SealLayers(keys[k..], nonces[k..], plain))
  {
    if k > 0 {
      PeelPrefix(keys[1..], nonces[1..], plain, k - 1);
      assert keys[..k][1..] == keys[1..][..k - 1] && nonces[..k][1..] == nonces[1..][..k - 1];
      assert keys[1..][k - 1..] == keys[k..] && nonces[1..][k - 1..] == nonces[k..];
    }
  }

  lemma {:induction false} SealedLength(z: Sizes, keys: seq<Key>, nonces: seq<Nonce>, plain: Blob)
    requires |keys| == |nonces|
    ensures BlobLen(z, SealLayers(keys, nonces, plain)) == BlobLen(z, plain) + TAG_SIZE * |keys|
  {
    if keys != [] {
      SealedLength(z, keys[1..], nonces[1..], plain);
    }
  }

  // ---- the onion of one circuit ----

  /** What the key exchange with one relay leaves at both ends. */
  datatype Ident = Ident(key: Key, base: Nonce)

  type Path = seq<Ident>

  ghost predicate DistinctKeys(path: Path) {
    forall i, j :: 0 <= i < j < |path| ==> path[i].key != path[j].key
  }

  /** The layers of hops i, i+1, ... over `m`, each sealed under the `j`-th nonce of its hop. */
  function Layers(path: Path, i: nat, j: nat, m: Msg): Blob
    requires i <= |path|
    decreases |path| - i
  {
    if i == |path| then Plain(m)
    else AESSeal(path[i].key, CounterNonce(path[i].base, Wrap(j)), Layers(path, i + 1, j, m))
  }

  lemma {:induction false} LayersLength(z: Sizes, path: Path, i: nat, j: nat, m: Msg)
    requires i <= |path|
    ensures BlobLen(z, Layers(path, i, j, m)) == MsgLen(z, m) + TAG_SIZE * (|path| - i)
    decreases |path| - i
  {
    if i < |path| {
      LayersLength(z, path, i + 1, j, m);
    }
  }

  function Keys(path: Path): seq<Key> {
    seq(|path|, i requires 0 <= i < |path| => path[i].key)
  }

  function Bases(path: Path): seq<Nonce> {
    seq(|path|, i requires 0 <= i < |path| => path[i].base)
  }

  /** The nonces the counters `ctrs` stand for, hop by hop. */
  function NoncesAt(bases: seq<Nonce>, ctrs: seq<uint64>): seq<Nonce>
    requires |bases| == |ctrs|
  {
    seq(|bases|, i requires 0 <= i < |bases| => CounterNonce(bases[i], ctrs[i]))
  }

  /** With every counter at `j`, what the client seals is the onion that hop 0 expects as its `j`-th. */
  lemma {:induction false} SealIsLayers(path: Path, i: nat, j: nat, m: Msg)
    requires i <= |path|
    ensures SealLayers(Keys(path)[i..], NoncesAt(Bases(path), seq(|path|, _ => Wrap(j)))[i..], Plain(m)) == Layers(path, i, j, m)
    decreases |path| - i
  {
    if i < |path| {
      SealIsLayers(path, i + 1, j, m);
      var keys, nonces := Keys(path), NoncesAt(Bases(path), seq(|path|, _ => Wrap(j)));
      assert keys[i..][1..] == keys[i + 1..] && nonces[i..][1..] == nonces[i + 1..];
    }
  }
}

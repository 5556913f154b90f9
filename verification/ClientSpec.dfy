/** What the client does with one circuit, as functions of its keys, base nonces and per-hop counters. */
module ClientSpec {
  import opened MachineInts
  import opened Nonces
  import opened Wrappers
  import opened Onion
  import opened RelaySpec

  datatype Client = Client(
    keys: seq<Key>, bases: seq<Nonce>,
    begin: seq<uint64>, data: seq<uint64>, up: seq<uint64>)
  {
    predicate Valid() {
      |keys| == |bases| == |begin| == |data| == |up|
    }
  }

  function FreshClient(path: Path): Client {
    var zeros := seq(|path|, _ => 0);
    Client(Keys(path), Bases(path), zeros, zeros, zeros)
  }

  function Bump(ctrs: seq<uint64>): seq<uint64> {
    seq(|ctrs|, i requires 0 <= i < |ctrs| => Inc(ctrs[i]))
  }

  /** The counters after a send, and the cell that went out, if one did. */
  datatype Outcome = Outcome(client: Client, cell: Option<Cell>)

  function Accepted(z: Sizes, c: Cell): Option<Cell> {
    if Fits(z, c) then Some(c) else None
  }

  /** Sending DATA. The counters move before the size of the cell is known. */
  function SendData(z: Sizes, cl: Client, sid: uint16, m: Msg): Outcome
    requires cl.Valid()
  {
    var enc := SealLayers(cl.keys, NoncesAt(cl.bases, cl.data), Plain(m));
    Outcome(cl.(data := Bump(cl.data)), Accepted(z, Data(sid, enc)))
  }

  /** Sending BEGIN or CONNECT; both draw on the one counter. */
  function SendRequest(z: Sizes, cl: Client, m: Msg): Outcome
    requires cl.Valid()
  {
    SendSealed(z, cl, m.BeginDto?, m)
  }

  function SendSealed(z: Sizes, cl: Client, begin: bool, m: Msg): Outcome
    requires cl.Valid()
  {
    var enc := SealLayers(cl.keys, NoncesAt(cl.bases, cl.begin), Plain(m));
    Outcome(cl.(begin := Bump(cl.begin)), Accepted(z, if begin then Begin(enc) else Connect(enc)))
  }

  /** What is left of a blob without its `i` outer layers. */
  function Under(b: Blob, i: nat): Blob {
    if i == 0 || !b.Sealed? then b else Under(b.inner, i - 1)
  }

  /** The blob has one layer for each hop, hop 0 outermost, each sealed with the hop's key under its base nonce masked with its
      counter, and `m` under them all. */
  ghost predicate IsOnion(keys: seq<Key>, bases: seq<Nonce>, ctrs: seq<uint64>, m: Msg, b: Blob)
    requires |keys| == |bases| == |ctrs|
  {
    && (forall i :: 0 <= i < |keys| ==>
          var layer := Under(b, i); layer.Sealed? && layer.key == keys[i] && layer.nonce == CounterNonce(bases[i], ctrs[i]))
    && Under(b, |keys|) == Plain(m)
  }

  lemma {:induction false} UnderSeal(keys: seq<Key>, nonces: seq<Nonce>, plain: Blob, i: nat)
    requires |keys| == |nonces| && i <= |keys|
    ensures var layer := Under(SealLayers(keys, nonces, plain), i);
      layer == (if i == |keys| then plain else AESSeal(keys[i], nonces[i], SealLayers(keys[i + 1..], nonces[i + 1..], plain)))
    decreases i
  {
    if i > 0 {
      UnderSeal(keys[1..], nonces[1..], plain, i - 1);
      if i < |keys| {
        assert keys[1..][i..] == keys[i + 1..] && nonces[1..][i..] == nonces[i + 1..];
      }
    }
  }

  lemma SealIsOnion(keys: seq<Key>, bases: seq<Nonce>, ctrs: seq<uint64>, m: Msg)
    requires |keys| == |bases| == |ctrs|
    ensures IsOnion(keys, bases, ctrs, m, SealLayers(keys, NoncesAt(bases, ctrs), Plain(m)))
  {
    forall i | 0 <= i <= |keys|
      ensures var layer := Under(SealLayers(keys, NoncesAt(bases, ctrs), Plain(m)), i);
        if i == |keys| then layer == Plain(m)
        else layer.Sealed? && layer.key == keys[i] && layer.nonce == CounterNonce(bases[i], ctrs[i])
    {
      UnderSeal(keys, NoncesAt(bases, ctrs), Plain(m), i);
    }
    hide SealLayers, CounterNonce;
  }

  /** Every counter of one kind has moved by one, around at 2^64. */
  ghost predicate EachMoved(ctrs: seq<uint64>, moved: seq<uint64>) {
    |moved| == |ctrs| && forall i :: 0 <= i < |ctrs| ==> moved[i] == if ctrs[i] == 0xFFFF_FFFF_FFFF_FFFF then 0 else ctrs[i] + 1
  }

  /** A CONNECT without a target has an empty payload. */
  function ConnectMsg(target: string): Msg {
    if target == "" then Raw([]) else ConnectDto(target)
  }

  /** Taking off the layers of hops h, h+1, ...; the counter of a hop moves even if its layer does not open. */
  function OpenFrom(keys: seq<Key>, bases: seq<Nonce>, ctrs: seq<uint64>, h: nat, b: Blob): (r: (seq<uint64>, Option<Blob>))
    requires |keys| == |bases| == |ctrs| && h <= |keys|
    ensures |r.0| == |ctrs|
    decreases |keys| - h
  {
    if h == |keys| then (ctrs, Some(b)) else
    var moved := ctrs[h := Inc(ctrs[h])];
    match AESOpen(keys[h], CounterNonce(bases[h], ctrs[h]), b)
    case None => (moved, None)
    case Some(dec) => OpenFrom(keys, bases, moved, h + 1, dec)
  }

  /** Hop `i` finds its layer on the blob, under its next nonce, once the hops before it have taken off theirs. */
  predicate LayerAt(keys: seq<Key>, bases: seq<Nonce>, ctrs: seq<uint64>, b: Blob, i: nat)
    requires |keys| == |bases| == |ctrs| && i < |keys|
  {
    var layer := Under(b, i); layer.Sealed? && layer.key == keys[i] && layer.nonce == CounterNonce(bases[i], ctrs[i])
  }

  /** Opening succeeds exactly if every hop finds its layer, and gives what is under them all. A hop's counter moves exactly if all
      hops before it found theirs: the counter of the first that does not has moved too, those after it have not. */
  lemma OpensHopByHop(keys: seq<Key>, bases: seq<Nonce>, ctrs: seq<uint64>, b: Blob)
    requires |keys| == |bases| == |ctrs|
    ensures var r := OpenFrom(keys, bases, ctrs, 0, b);
      && (r.1.Some? <==> forall i :: 0 <= i < |keys| ==> LayerAt(keys, bases, ctrs, b, i))
      && (r.1.Some? ==> r.1.value == Under(b, |keys|))
      && forall i :: 0 <= i < |keys| ==>
           r.0[i] == if forall j :: 0 <= j < i ==> LayerAt(keys, bases, ctrs, b, j) then Inc(ctrs[i]) else ctrs[i]
  {
    OpensFromHop(keys, bases, ctrs, ctrs, 0, b, b);
  }

  lemma {:induction false} OpensFromHop(keys: seq<Key>, bases: seq<Nonce>, was: seq<uint64>, ctrs: seq<uint64>, h: nat,
      all: Blob, b: Blob)
    requires |keys| == |bases| == |was| == |ctrs| && h <= |keys| && b == Under(all, h)
    requires forall i :: 0 <= i < |keys| ==> ctrs[i] == if i < h then Inc(was[i]) else was[i]
    requires forall i :: 0 <= i < h ==> LayerAt(keys, bases, was, all, i)
    ensures var r := OpenFrom(keys, bases, ctrs, h, b);
      && (r.1.Some? <==> forall i :: 0 <= i < |keys| ==> LayerAt(keys, bases, was, all, i))
      && (r.1.Some? ==> r.1.value == Under(all, |keys|))
      && forall i :: 0 <= i < |keys| ==>
           r.0[i] == if forall j :: 0 <= j < i ==> LayerAt(keys, bases, was, all, j) then Inc(was[i]) else was[i]
    decreases |keys| - h
  {
    hide CounterNonce, Inc;
    if h < |keys| {
      if LayerAt(keys, bases, was, all, h) {
        UnderNext(all, h);
        OpensFromHop(keys, bases, was, ctrs[h := Inc(ctrs[h])], h + 1, all, b.inner);
      }
    }
  }

  lemma {:induction false} UnderNext(b: Blob, i: nat)
    requires Under(b, i).Sealed?
    ensures Under(b, i + 1) == Under(b, i).inner
  {
    if i > 0 {
      UnderNext(b.inner, i - 1);
    }
  }

  function Decrypt(cl: Client, b: Blob): (r: (Client, Option<Blob>))
    requires cl.Valid()
    ensures r.0.Valid() && r.0 == cl.(up := r.0.up)
  {
    var r := OpenFrom(cl.keys, cl.bases, cl.up, 0, b);
    (cl.(up := r.0), r.1)
  }
}

/** What every run of a circuit keeps. */
module ChainInvariant {
  import opened MachineInts
  import opened Nonces
  import opened Wrappers
  import opened Onion
  import opened RelaySpec
  import opened ClientSpec
  import opened Chain
  import opened ChainLinks

  function Last(s: State): nat
    requires Shape(s)
  {
    |s.path| - 1
  }

  function AllAt(n: nat, k: nat): seq<uint64> {
    seq(n, _ => Wrap(k))
  }

  /** How many DATA cells (of those the client sent) were put on the link to relay `i`. */
  function OfferedData(s: State, i: nat): nat
    requires Shape(s) && i < |s.path|
  {
    if i == 0 then |s.sent| else s.hist[i - 1].peeled
  }

  function OfferedRequests(s: State, i: nat): nat
    requires Shape(s) && i < |s.path|
  {
    if i == 0 then |s.requested| else s.hist[i - 1].requests
  }

  /** How many upward DATA cells relay `i` sent, and how many of them its upper neighbour handled. */
  function OfferedUp(s: State, i: nat): nat
    requires Shape(s) && i < |s.path|
  {
    if i == Last(s) then |s.read| else s.hist[i].fromBelow
  }

  function TakenUp(s: State, i: nat): nat
    requires Shape(s) && i < |s.path|
  {
    if i == 0 then |s.received| else s.hist[i - 1].fromBelow
  }

  /** DATA keeps its numbers on the way down: no relay has handled 2^64 cells from below, or each has peeled all it was given. */
  ghost predicate DownExact(hist: seq<Hist>) {
    || (forall i :: 0 <= i < |hist| ==> hist[i].fromBelow < TWO_TO_64)
    || (forall i :: 0 <= i < |hist| ==> hist[i].peeled == hist[i].fromAbove)
  }

  /** DATA keeps its numbers on the way up: the exit has read fewer than 2^64 chunks, or nothing has been lost. */
  ghost predicate UpExact(read: seq<Msg>, lost: bool) {
    |read| < TWO_TO_64 || !lost
  }

  /** Counters of one relay against what it has handled; what it passed on; where its downward link leads. */
  ghost predicate HopOk(s: State, i: nat)
    requires Shape(s) && i < |s.path|
  {
    var h := s.hops[i];
    var t := s.hist[i];
    && h.key == s.path[i].key && h.base == s.path[i].base
    && h.begin == Wrap(t.requests)
    && h.data == Wrap(t.fromAbove + t.fromBelow)
    && h.hasDown == (i < Last(s) || h.hidden)
    && (h.hidden ==> i == Last(s))
    && t.peeled <= t.fromAbove
    && (DownExact(s.hist) && t.peeled < t.fromAbove ==> t.fromBelow > 0)
    && (i == Last(s) ==> t.fromBelow == 0)
    && (t.fromAbove > 0 ==> t.requests == |s.requested|)
    && h.alive == !(t.torn || t.expired)
    && (t.torn ==> h.streams == {})
  }

  /** The link to relay `i` holds exactly as many cells as were put on it and not yet handled, each with exactly the layers
      that are left; the requests, and as long as DATA is exact the DATA too, are consecutively numbered. */
  ghost predicate LinkOk(s: State, i: nat)
    requires Shape(s) && i < |s.path|
  {
    && s.hist[i].fromAbove <= OfferedData(s, i) <= |s.sent|
    && |Select(DataKind, s.down[i])| == OfferedData(s, i) - s.hist[i].fromAbove
    && (forall c :: c in s.down[i] && c.Data? ==> SomeItem(s.path, s.sid, s.sent, i, c))
    && (DownExact(s.hist) ==> Carries(s.path, s.sid, DataKind, s.sent, i, s.down[i], s.hist[i].fromAbove, OfferedData(s, i)))
    && Carries(s.path, s.sid, RequestKind, s.requested, i, s.down[i], s.hist[i].requests, OfferedRequests(s, i))
    && RequestsFirst(s.down[i])
  }

  /** The client: its counters, its order of requests, and the sizes of what it was allowed to send. */
  ghost predicate ClientOk(z: Sizes, s: State)
    requires Shape(s)
  {
    && s.sid != 0
    && s.client.keys == Keys(s.path) && s.client.bases == Bases(s.path)
    && (s.phase != Refused && s.phase != Closed ==>
          s.client.begin == AllAt(|s.path|, |s.requested|) && s.client.data == AllAt(|s.path|, |s.sent|))
    && (s.phase == Idle || s.phase == Connected ==> s.sent == [] && forall k :: 0 <= k < |s.requested| ==> !s.requested[k].BeginDto?)
    && (forall k :: 0 <= k < |s.requested| ==> BlobLen(z, Plain(s.requested[k])) + TAG_SIZE * |s.path| <= MAX_PAYLOAD_SIZE)
    && (forall k :: 0 <= k < |s.requested| && s.requested[k].BeginDto? ==> s.requested[k].sid == s.sid && k == |s.requested| - 1)
    && (forall k :: 0 <= k < |s.sent| ==> z.data(s.sid, MsgLen(z, s.sent[k]) + TAG_SIZE * |s.path|) <= MAX_PAYLOAD_SIZE)
  }

  ghost predicate DownOk(z: Sizes, s: State)
    requires Shape(s)
  {
    && ClientOk(z, s)
    && (forall i :: 0 <= i < |s.path| ==> HopOk(s, i))
    && (forall i :: 0 <= i < |s.path| ==> LinkOk(s, i))
  }

  ghost predicate BeginAsked(s: State) {
    s.requested != [] && s.requested[|s.requested| - 1].BeginDto?
  }

  /** The last relay: its stream table, its upward counter, and what it wrote to the local connection. */
  ghost predicate ExitOk(s: State)
    requires Shape(s)
  {
    var h := s.hops[Last(s)];
    var t := s.hist[Last(s)];
    && (s.looping || s.read != [] || h.streams != {} ==> t.requests == |s.requested| && BeginAsked(s))
    && h.streams <= {s.sid}
    && |s.written| <= t.peeled
    && (!s.discarded ==> |s.written| == t.fromAbove)
    && (DownExact(s.hist) ==>
          && h.up == Wrap(|s.read|)
          && (s.sinkOk && (h.hidden || s.sid in h.streams) ==> |s.written| == t.peeled)
          && (|s.written| <= |s.sent| && forall k :: 0 <= k < |s.written| ==> s.written[k] == Plain(s.sent[k])))
  }

  /** Every upward DATA cell of relay `i` has the layer of relay `i` outermost; the layers below end either in a chunk
      the exit read, under the exit's number for it, or in a cell some relay turned back. */
  ghost predicate Upward(path: Path, read: seq<Msg>, i: nat, b: Blob)
    requires i < |path|
    decreases |path| - i
  {
    && b.Sealed? && b.key == path[i].key
    && if i == |path| - 1 then
         exists j :: 0 <= j < |read| && b == AESSeal(path[i].key, CounterNonce(path[i].base, Wrap(j)), Plain(read[j]))
       else
         Upward(path, read, i + 1, b.inner) || (b.inner.Sealed? && b.inner.key == path[i].key)
  }

  /** What may be on the upward link of relay `i`: END and DESTROY only on the last relay's, and DATA only with this relay's
      layer outermost. */
  ghost predicate UpCell(s: State, i: nat, c: Cell)
    requires Shape(s) && i < |s.path|
  {
    && !IsRequest(c)
    && (i < Last(s) ==> c.Data? || c.BeginAck?)
    && (c.Data? ==> c.sid == s.sid && c.blob.Sealed? && c.blob.key == s.path[i].key)
  }

  /** The layers of everything that is coming up. */
  ghost predicate Rising(s: State)
    requires Shape(s)
  {
    forall i, c :: 0 <= i < |s.path| && c in s.up[i] && c.Data? ==> Upward(s.path, s.read, i, c.blob)
  }

  ghost predicate UpOk(s: State)
    requires Shape(s)
  {
    && (forall i, c :: 0 <= i < |s.path| && c in s.up[i] ==> UpCell(s, i, c))
    && (DownExact(s.hist) ==> Rising(s))
    && (DownExact(s.hist) && UpExact(s.read, s.lost) ==> ClientUpOk(s))
  }

  /** What the client has opened, and where its counters are. */
  ghost predicate ClientUpOk(s: State) {
    && |s.received| <= |s.read|
    && (forall k :: 0 <= k < |s.received| ==> s.received[k] == Plain(s.read[k]))
    && (s.listening ==> s.client.up == AllAt(|s.path|, |s.received|))
  }

  /** Relay `i` has passed on every DATA cell it was given, and its upward link holds exactly the chunks in between. */
  ghost predicate InStepAt(s: State, i: nat)
    requires Shape(s) && i < |s.path|
  {
    && s.hist[i].peeled == s.hist[i].fromAbove
    && s.hops[i].up == Wrap(OfferedUp(s, i))
    && Carries(s.path, s.sid, DataKind, s.read, i, s.up[i], TakenUp(s, i), OfferedUp(s, i))
  }

  /** As long as nothing was lost, both directions are in step at every relay. */
  ghost predicate InStep(s: State)
    requires Shape(s)
  {
    !s.lost ==> forall i :: 0 <= i < |s.path| ==> InStepAt(s, i)
  }

  ghost predicate HasKill(q: seq<Cell>) {
    exists p :: 0 <= p < |q| && IsKill(q[p])
  }

  /** A relay that tore its circuit down has passed the word on. */
  ghost predicate TornOk(s: State)
    requires Shape(s)
  {
    forall i :: 0 < i < |s.path| && s.hist[i - 1].torn ==>
      s.hist[i].torn || s.hist[i].expired || HasKill(s.down[i])
  }

  ghost predicate Inv(z: Sizes, s: State) {
    && Shape(s) && DistinctKeys(s.path)
    && DownOk(z, s) && ExitOk(s) && UpOk(s) && InStep(s) && TornOk(s)
  }

  lemma FreshInv(z: Sizes, path: Path, sid: uint16)
    requires |path| >= 1 && sid != 0 && DistinctKeys(path)
    ensures Inv(z, Fresh(path, sid))
  {
    var s := Fresh(path, sid);
    assert s.client.begin == AllAt(|path|, 0) == s.client.data == s.client.up;
    forall i | 0 <= i < |path| ensures HopOk(s, i) && LinkOk(s, i) {
    }
  }
}

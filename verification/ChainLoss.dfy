/** When a run loses DATA, and what holds as long as it does not. */
module ChainLoss {
  import opened MachineInts
  import opened Nonces
  import opened Wrappers
  import opened Onion
  import opened RelaySpec
  import opened ClientSpec
  import opened Chain
  import opened ChainLinks
  import opened ChainInvariant
  import opened ChainAbove
  import opened ChainAboveKeeps
  import opened ChainBelow
  import opened ChainEnds
  import opened ChainFrames
  import opened ChainRuns
  import opened ChainStranded
  import opened ChainTheorems

  // ---- the three ways to lose DATA ----

  /** A DATA cell from above meets a middle relay whose counter upward traffic has moved. */
  ghost predicate Overtaken(s: State, step: Step)
    requires Shape(s)
  {
    && step.FromAbove? && step.i < Last(s) && s.down[step.i] != [] && s.down[step.i][0].Data?
    && s.hist[step.i].fromBelow % TWO_TO_64 != 0
  }

  /** A DATA cell meets an exit that has no stream for it, or whose local connection is broken. */
  ghost predicate Unwelcome(s: State, step: Step)
    requires Shape(s)
  {
    && step.FromAbove? && step.i == Last(s) && s.down[step.i] != [] && s.down[step.i][0].Data?
    && !(s.sinkOk && (s.hops[step.i].hidden || s.sid in s.hops[step.i].streams))
  }

  /** A DATA cell on its way up is too big with the tag of the next hop: as the exit makes it of a chunk, or as a relay above
      seals it again. */
  ghost predicate Oversize(z: Sizes, s: State, step: Step)
    requires Shape(s)
  {
    || (step.ReadChunk? && z.data(s.sid, |step.bytes| + TAG_SIZE) > MAX_PAYLOAD_SIZE)
    || (step.FromBelow? && step.i < Last(s) && s.up[step.i + 1] != [] && s.up[step.i + 1][0].Data?
        && z.data(s.sid, BlobLen(z, s.up[step.i + 1][0].blob) + TAG_SIZE) > MAX_PAYLOAD_SIZE)
  }

  /** No DATA from above comes after DATA from below at a middle relay (but for whole rounds of its counter). */
  ghost predicate HalfDuplex(z: Sizes, s: State, steps: seq<Step>)
    requires Shape(s)
    decreases |steps|
  {
    steps != [] && Enabled(s, steps[0]) ==> !Overtaken(s, steps[0]) && HalfDuplex(z, Apply(z, s, steps[0]), steps[1..])
  }

  /** Every DATA cell the exit handles finds its stream, or the hidden service, and a connection that takes bytes. */
  ghost predicate ExitWelcomes(z: Sizes, s: State, steps: seq<Step>)
    requires Shape(s)
    decreases |steps|
  {
    steps != [] && Enabled(s, steps[0]) ==> !Unwelcome(s, steps[0]) && ExitWelcomes(z, Apply(z, s, steps[0]), steps[1..])
  }

  /** Every upward DATA cell fits at every hop it comes to. */
  ghost predicate AllFit(z: Sizes, s: State, steps: seq<Step>)
    requires Shape(s)
    decreases |steps|
  {
    steps != [] && Enabled(s, steps[0]) ==> !Oversize(z, s, steps[0]) && AllFit(z, Apply(z, s, steps[0]), steps[1..])
  }

  // ---- sizes ----

  /** What the exit may read in one piece without the cell outgrowing its bound on the way up: all hops add their tag. */
  ghost predicate InBudget(z: Sizes, s: State, m: Msg) {
    z.data(s.sid, MsgLen(z, m) + TAG_SIZE * |s.path|) <= MAX_PAYLOAD_SIZE
  }

  ghost predicate ReadsInBudget(z: Sizes, s: State) {
    forall k :: 0 <= k < |s.read| ==> InBudget(z, s, s.read[k])
  }

  /** The upward cell for `m` fits at hop `i` and all hops above it exactly if it fits as it leaves hop 0. */
  lemma UpwardBudget(z: Sizes, path: Path, sid: uint16, j: nat, m: Msg)
    requires z.Valid() && |path| > 0
    ensures (forall i :: 0 <= i < |path| ==> Fits(z, Item(path, sid, DataKind, i, j, m)))
       <==> z.data(sid, MsgLen(z, m) + TAG_SIZE * |path|) <= MAX_PAYLOAD_SIZE
  {
    LayersLength(z, path, 0, j, m);
    forall i | 0 <= i < |path|
      ensures PayloadLen(z, Item(path, sid, DataKind, i, j, m)) <= z.data(sid, MsgLen(z, m) + TAG_SIZE * |path|)
    {
      LayersLength(z, path, i, j, m);
      assert MsgLen(z, m) + TAG_SIZE * (|path| - i) <= MsgLen(z, m) + TAG_SIZE * |path|;
    }
    assert PayloadLen(z, Item(path, sid, DataKind, 0, j, m)) == z.data(sid, MsgLen(z, m) + TAG_SIZE * |path|);
  }

  /** The client's cell goes out exactly if the chunk with a tag for every hop fits; the counters move either way. */
  lemma ClientBudget(z: Sizes, s: State, m: Msg)
    requires Inv(z, s) && s.phase == Streaming
    ensures SendData(z, s.client, s.sid, m).cell.Some? <==> z.data(s.sid, MsgLen(z, m) + TAG_SIZE * |s.path|) <= MAX_PAYLOAD_SIZE
    ensures SendData(z, s.client, s.sid, m).client == s.client.(data := AllAt(|s.path|, |s.sent| + 1))
  {
    ClientSeals(s.path, |s.sent|, m);
    BumpAll(|s.path|, |s.sent|);
    LayersLength(z, s.path, 0, |s.sent|, m);
  }

  // ---- one step ----

  /** A step loses DATA on the chain exactly if a cell is overtaken or outgrows its bound, and at the exit exactly if it is
      unwelcome. */
  lemma LostAt(z: Sizes, s: State, step: Step)
    requires Inv(z, s) && z.Valid() && Enabled(s, step) && !s.lost
    ensures var t := Apply(z, s, step);
      && (t.lost <==> Overtaken(s, step) || Oversize(z, s, step)) && (t.discarded <==> s.discarded || Unwelcome(s, step))
  {
    assert Shape(s);
    hide Inv, HandleAbove, HandleBelow, Read, Ask, Chunk, Take, EndRead, SendIf;
    if step.FromAbove? {
      LostAbove(z, s, step.i, step.dialOk);
    } else if step.FromBelow? {
      LostBelow(z, s, step.i, step.dialOk);
    } else if step.ReadChunk? {
      ReadLoses(z, s, Raw(step.bytes));
    } else {
      QuietStep(z, s, step);
      hide Apply;
    }
  }

  /** The other steps lose nothing and read nothing. */
  lemma QuietStep(z: Sizes, s: State, step: Step)
    requires Shape(s) && Enabled(s, step) && !step.FromAbove? && !step.FromBelow? && !step.ReadChunk?
    ensures var t := Apply(z, s, step);
      t.lost == s.lost && t.discarded == s.discarded && t.read == s.read && t.sid == s.sid && t.path == s.path
  {
    StepFrame(z, s, step);
    hide Apply;
  }

  lemma LostAbove(z: Sizes, s: State, i: nat, dialOk: bool)
    requires Inv(z, s) && z.Valid() && Handles(s, i) && !s.lost
    ensures var t := HandleAbove(z, s, i, dialOk); var step := FromAbove(i, dialOk);
      && (t.lost <==> Overtaken(s, step)) && (t.discarded <==> s.discarded || Unwelcome(s, step))
      && t.read == s.read && t.sid == s.sid && t.path == s.path
  {
    hide Handle, Carries, UpOk, TornOk, ExitOk, ClientOk, DownExact, InStep, Opens;
    InStepExact(s);
    if s.down[i][0].Data? {
      var _ := NextData(z, s, i);
      if i < Last(s) {
        var _ := MiddleData(z, s, i, dialOk);
      } else {
        var _ := ExitData(z, s, dialOk);
      }
    }
  }

  lemma LostBelow(z: Sizes, s: State, i: nat, dialOk: bool)
    requires Inv(z, s) && !s.lost && Relays(s, i)
    ensures var t := HandleBelow(z, s, i, dialOk); (t.lost <==> Oversize(z, s, FromBelow(i, dialOk))) && t.discarded == s.discarded
  {
    BelowFrame(z, s, i, dialOk);
    hide Handle, HopOk, LinkOk, ClientOk, ExitOk, InStep, TornOk, CounterNonce, DownExact;
    if s.up[i + 1][0].Data? {
      NeverOpensFromBelow(z, s, i, dialOk);
    }
  }

  /** A chunk is refused as it leaves the exit exactly if it is too big with the exit's tag alone. */
  lemma ReadLoses(z: Sizes, s: State, m: Msg)
    requires Shape(s)
    ensures Read(z, s, m).lost <==> s.lost || z.data(s.sid, MsgLen(z, m) + TAG_SIZE) > MAX_PAYLOAD_SIZE
    ensures Read(z, s, m).discarded == s.discarded
  {
    hide CounterNonce;
    var b := AESSeal(s.hops[|s.path| - 1].key, CounterNonce(s.hops[|s.path| - 1].base, s.hops[|s.path| - 1].up), Plain(m));
    assert BlobLen(z, b) == BlobLen(z, Plain(m)) + TAG_SIZE;
  }

  /** The exit reads up to 508 bytes at a time, and loses whatever leaves no room for its tag: a full buffer always. */
  lemma FullReadIsLost(z: Sizes, s: State, bytes: seq<byte>)
    requires z.Valid() && Shape(s) && Enabled(s, ReadChunk(bytes)) && MAX_PAYLOAD_SIZE - TAG_SIZE < |bytes|
    ensures Apply(z, s, ReadChunk(bytes)).lost && Oversize(z, s, ReadChunk(bytes))
  {
    ReadLoses(z, s, Raw(bytes));
    hide Read;
    assert |bytes| + TAG_SIZE <= z.data(s.sid, |bytes| + TAG_SIZE);
  }

  // ---- runs ----

  lemma {:induction false} LostExactly(z: Sizes, s: State, steps: seq<Step>, t: State)
    requires Inv(z, s) && z.Valid() && Reaches(z, s, steps, t) && !s.lost
    ensures !t.lost <==> HalfDuplex(z, s, steps) && AllFit(z, s, steps)
    ensures !t.lost ==> (t.discarded <==> s.discarded || !ExitWelcomes(z, s, steps))
    decreases |steps|
  {
    if steps != [] {
      var s1 := Apply(z, s, steps[0]);
      RunLater(z, s1, steps[1..], t);
      LostAt(z, s, steps[0]);
      StepKeeps(z, s, steps[0]);
      hide Apply, Enabled, Inv, Overtaken, Unwelcome, Oversize;
      if !s1.lost {
        LostExactly(z, s1, steps[1..], t);
      }
    }
  }

  /** What a run loses, whatever is sent and read, whichever relays drop the circuit, and when the client stops listening. No
      DATA that is handled is lost on the chain exactly if the run is half-duplex at every middle relay and every upward cell
      fits at every hop, and none at the exit exactly if besides the exit welcomes all of it. None is lost at all, in either
      direction, exactly if moreover no step leaves DATA to a reader that is gone. */
  lemma NoLossExactly(z: Sizes, path: Path, sid: uint16, steps: seq<Step>, t: State)
    requires Run(z, path, sid, steps, t)
    ensures var s := Fresh(path, sid);
      && (!t.lost <==> HalfDuplex(z, s, steps) && AllFit(z, s, steps))
      && (!t.lost && !t.discarded <==> HalfDuplex(z, s, steps) && AllFit(z, s, steps) && ExitWelcomes(z, s, steps))
      && (Stranded(t) <==> !NeverStrands(z, s, steps))
      && (!t.lost && !t.discarded && !Stranded(t)
          <==> HalfDuplex(z, s, steps) && AllFit(z, s, steps) && ExitWelcomes(z, s, steps) && NeverStrands(z, s, steps))
  {
    FreshInv(z, path, sid);
    NothingStrandedYet(path, sid);
    hide Inv, Reaches, HalfDuplex, AllFit, ExitWelcomes, Stranded, NeverStrands;
    LostExactly(z, Fresh(path, sid), steps, t);
    StrandedExactly(z, Fresh(path, sid), steps, t);
  }

  lemma NothingStrandedYet(path: Path, sid: uint16)
    requires |path| >= 1
    ensures !Stranded(Fresh(path, sid))
  {
  }

  // ---- runs in budget ----

  /** What is read in budget fits as it leaves the exit, and at every relay above. */
  lemma BudgetFits(z: Sizes, s: State, step: Step)
    requires Inv(z, s) && z.Valid() && Enabled(s, step) && !s.lost && ReadsInBudget(z, s)
    requires step.ReadChunk? ==> InBudget(z, s, Raw(step.bytes))
    ensures !Oversize(z, s, step)
  {
    hide DownOk, ExitOk, UpOk, InStep, TornOk, ReadsInBudget, InBudget;
    if step.ReadChunk? {
      ExitFits(z, s, step.bytes);
    } else if step.FromBelow? && s.up[step.i + 1][0].Data? {
      RelayedFits(z, s, step.i);
    }
  }

  lemma ReadsKept(z: Sizes, s: State, step: Step, t: State)
    requires ReadsInBudget(z, s) && Framed(s, step, t) && (step.ReadChunk? ==> InBudget(z, s, Raw(step.bytes)))
    ensures ReadsInBudget(z, t)
  {
  }

  lemma ExitFits(z: Sizes, s: State, bytes: seq<byte>)
    requires z.Valid() && |s.path| >= 1 && InBudget(z, s, Raw(bytes))
    ensures z.data(s.sid, |bytes| + TAG_SIZE) <= MAX_PAYLOAD_SIZE
  {
    var small, big := |bytes| + TAG_SIZE, |bytes| + TAG_SIZE * |s.path|;
    assert small <= big;
    assert z.data(s.sid, small) <= z.data(s.sid, big);
  }

  lemma RelayedFits(z: Sizes, s: State, i: nat)
    requires Inv(z, s) && z.Valid() && !s.lost && ReadsInBudget(z, s) && Relays(s, i) && s.up[i + 1][0].Data?
    ensures z.data(s.sid, BlobLen(z, s.up[i + 1][0].blob) + TAG_SIZE) <= MAX_PAYLOAD_SIZE
  {
    hide Carries, ExitOk, TornOk, Upward, Wrap, Rising, DownExact;
    assert InStepAt(s, i + 1);
    var k := s.hist[i].fromBelow;
    CarriesPop(s.path, s.sid, DataKind, s.read, i + 1, s.up[i + 1], k, OfferedUp(s, i + 1));
    assert InBudget(z, s, s.read[k]);
    LayersLength(z, s.path, i + 1, k, s.read[k]);
    var here, top := MsgLen(z, s.read[k]) + TAG_SIZE * (|s.path| - i), MsgLen(z, s.read[k]) + TAG_SIZE * |s.path|;
    assert z.data(s.sid, here) <= z.data(s.sid, top);
  }

  lemma {:induction false} BudgetFitsAll(z: Sizes, s: State, steps: seq<Step>, t: State)
    requires Inv(z, s) && z.Valid() && Reaches(z, s, steps, t) && !s.lost && ReadsInBudget(z, s)
    requires forall k :: 0 <= k < |steps| && steps[k].ReadChunk? ==> InBudget(z, s, Raw(steps[k].bytes))
    ensures HalfDuplex(z, s, steps) ==> AllFit(z, s, steps)
    decreases |steps|
  {
    if steps != [] {
      var s1, rest := Apply(z, s, steps[0]), steps[1..];
      BudgetFits(z, s, steps[0]);
      LostAt(z, s, steps[0]);
      StepKeeps(z, s, steps[0]);
      StepFrame(z, s, steps[0]);
      ReadsKept(z, s, steps[0], s1);
      hide Apply, Enabled, Inv, Overtaken, Unwelcome, Oversize, ReadsInBudget;
      if !s1.lost {
        forall k | 0 <= k < |rest| && rest[k].ReadChunk?
          ensures InBudget(z, s1, Raw(rest[k].bytes))
        {
          assert rest[k] == steps[k + 1];
        }
        BudgetFitsAll(z, s1, rest, t);
      }
    }
  }

  /** So with every chunk the exit reads within budget, no DATA that is handled is lost on the chain exactly if the run is
      half-duplex, and the sizes drop out of the rest too. */
  lemma NoLossExactlyIfHalfDuplex(z: Sizes, path: Path, sid: uint16, steps: seq<Step>, t: State)
    requires Run(z, path, sid, steps, t)
    requires forall k :: 0 <= k < |steps| && steps[k].ReadChunk? ==> z.data(sid, |steps[k].bytes| + TAG_SIZE * |path|) <= MAX_PAYLOAD_SIZE
    ensures !t.lost <==> HalfDuplex(z, Fresh(path, sid), steps)
    ensures !t.lost && !t.discarded <==> HalfDuplex(z, Fresh(path, sid), steps) && ExitWelcomes(z, Fresh(path, sid), steps)
    ensures !t.lost && !t.discarded && !Stranded(t) <==>
      HalfDuplex(z, Fresh(path, sid), steps) && ExitWelcomes(z, Fresh(path, sid), steps) && NeverStrands(z, Fresh(path, sid), steps)
  {
    var s := Fresh(path, sid);
    FreshInv(z, path, sid);
    forall k | 0 <= k < |steps| && steps[k].ReadChunk?
      ensures InBudget(z, s, Raw(steps[k].bytes))
    {
    }
    NoLossExactly(z, path, sid, steps, t);
    hide Inv, Reaches, HalfDuplex, AllFit, ExitWelcomes, Stranded, NeverStrands;
    BudgetFitsAll(z, s, steps, t);
  }

  // ---- one hop ----

  lemma OneHopLoses(z: Sizes, s: State, step: Step)
    requires Shape(s) && Enabled(s, step) && |s.path| == 1
    ensures var t := Apply(z, s, step);
      && (t.lost <==> s.lost || (step.ReadChunk? && !InBudget(z, s, Raw(step.bytes)))) && t.sid == s.sid && |t.path| == 1
  {
    hide HandleAbove, Read;
    match step
    case FromAbove(i, dialOk) => OneHopAbove(z, s, dialOk);
    case FromBelow(i, dialOk) =>
    case ReadChunk(bytes) => OneHopReads(z, s, Raw(bytes));
    case _ => QuietStep(z, s, step);
  }

  lemma OneHopAbove(z: Sizes, s: State, dialOk: bool)
    requires Shape(s) && |s.path| == 1 && s.down[0] != []
    ensures HandleAbove(z, s, 0, dialOk).lost == s.lost
  {
    hide Handle;
  }

  lemma OneHopReads(z: Sizes, s: State, m: Msg)
    requires Shape(s) && |s.path| == 1
    ensures Read(z, s, m).lost <==> s.lost || !InBudget(z, s, m)
  {
    ReadLoses(z, s, m);
  }

  /** On one hop the chain loses DATA exactly if the exit reads a chunk over budget. */
  lemma {:induction false} OneHopLost(z: Sizes, s: State, steps: seq<Step>, t: State)
    requires Shape(s) && |s.path| == 1 && Reaches(z, s, steps, t)
    ensures t.lost <==> s.lost || exists k :: 0 <= k < |steps| && steps[k].ReadChunk? && !InBudget(z, s, Raw(steps[k].bytes))
    decreases |steps|
  {
    if steps != [] {
      var s1, rest := Apply(z, s, steps[0]), steps[1..];
      OneHopLoses(z, s, steps[0]);
      hide Apply, Enabled;
      OneHopLost(z, s1, rest, t);
      assert forall k :: 0 <= k < |rest| ==> rest[k] == steps[k + 1];
      assert forall m :: InBudget(z, s1, m) == InBudget(z, s, m);
      if k :| 0 <= k < |steps| && steps[k].ReadChunk? && !InBudget(z, s, Raw(steps[k].bytes)) {
        if k > 0 {
          assert rest[k - 1] == steps[k];
        }
      }
    }
  }

  /** On a one-hop circuit, plain or hidden, client and exit stay in step under any interleaving of both directions. Downwards
      unconditionally: the exit's counter is what the client has sent and is not under way, the next DATA opens, and what is
      written is what was sent. Upwards as long as no chunk is read over budget: the counters agree, and the next
      cell opens to the next chunk. */
  lemma OneHopStaysInStep(z: Sizes, path: Path, sid: uint16, steps: seq<Step>, t: State)
    requires Run(z, path, sid, steps, t) && |path| == 1
    ensures t.hist[0].fromAbove + |Select(DataKind, t.down[0])| == |t.sent|
    ensures t.hops[0].data == Wrap(|t.sent| - |Select(DataKind, t.down[0])|)
    ensures Handles(t, 0) && t.down[0][0].Data? ==> Opens(t.hops[0], t.down[0][0])
    ensures |t.written| <= |t.sent| && forall k :: 0 <= k < |t.written| ==> t.written[k] == Plain(t.sent[k])
    ensures t.hops[0].up == Wrap(|t.read|)
    ensures !t.lost <==>
      forall k :: 0 <= k < |steps| && steps[k].ReadChunk? ==> z.data(sid, |steps[k].bytes| + TAG_SIZE) <= MAX_PAYLOAD_SIZE
    ensures !t.lost ==>
      && |Select(DataKind, t.up[0])| + |t.received| == |t.read|
      && (t.listening ==> t.client.up == AllAt(1, |t.received|))
      && (t.listening && t.up[0] != [] && t.up[0][0].Data? ==>
            && |t.received| < |t.read| && Take(t).listening
            && Take(t).received == t.received + [Plain(t.read[|t.received|])])
  {
    hide Reaches, Carries, TornOk, Opens, Wrap;
    RunInv(z, path, sid, steps, t);
    SamePath(z, Fresh(path, sid), steps, t);
    OneHopLost(z, Fresh(path, sid), steps, t);
    assert forall k :: 0 <= k < |steps| && steps[k].ReadChunk? ==>
      (InBudget(z, Fresh(path, sid), Raw(steps[k].bytes)) <==> z.data(sid, |steps[k].bytes| + TAG_SIZE) <= MAX_PAYLOAD_SIZE);
    OneHopExact(z, t);
    if !t.lost {
      OneHopUp(z, t);
    }
  }

  lemma OneHopExact(z: Sizes, t: State)
    requires Inv(z, t) && |t.path| == 1
    ensures DownExact(t.hist) && t.hist[0].fromBelow == 0
    ensures t.hist[0].fromAbove + |Select(DataKind, t.down[0])| == |t.sent|
    ensures t.hops[0].data == Wrap(t.hist[0].fromAbove)
    ensures Handles(t, 0) && t.down[0][0].Data? ==> Opens(t.hops[0], t.down[0][0])
  {
    hide Carries, Opens, UpOk, InStep, TornOk, ExitOk, ClientOk;
    assert HopOk(t, 0) && LinkOk(t, 0);
    if Handles(t, 0) && t.down[0][0].Data? {
      var _ := NextData(z, t, 0);
    }
  }

  lemma OneHopUp(z: Sizes, t: State)
    requires Inv(z, t) && |t.path| == 1 && !t.lost
    ensures |Select(DataKind, t.up[0])| + |t.received| == |t.read|
    ensures t.listening ==> t.client.up == AllAt(1, |t.received|)
    ensures t.listening && t.up[0] != [] && t.up[0][0].Data? ==>
      && |t.received| < |t.read| && Take(t).listening
      && Take(t).received == t.received + [Plain(t.read[|t.received|])]
  {
    hide DownExact, Take;
    InStepExact(t);
    assert InStepAt(t, 0);
    if t.listening && t.up[0] != [] && t.up[0][0].Data? {
      TakeNext(z, t);
    }
  }

  // ---- nothing lost: nothing missing ----

  function InFlight(qs: seq<seq<Cell>>): nat {
    if qs == [] then 0 else InFlight(qs[..|qs| - 1]) + |Select(DataKind, qs[|qs| - 1])|
  }

  lemma {:induction false} DownInFlight(z: Sizes, t: State, n: nat)
    requires Inv(z, t) && !t.lost && 0 < n <= |t.path|
    ensures InFlight(t.down[..n]) + t.hist[n - 1].peeled == |t.sent| && t.hist[n - 1].peeled == t.hist[n - 1].fromAbove
  {
    assert t.down[..n][..n - 1] == t.down[..n - 1];
    assert LinkOk(t, n - 1) && InStepAt(t, n - 1);
    if n > 1 {
      DownInFlight(z, t, n - 1);
    }
  }

  lemma {:induction false} UpInFlight(z: Sizes, t: State, n: nat)
    requires Inv(z, t) && !t.lost && 0 < n <= |t.path|
    ensures InFlight(t.up[..n]) + |t.received| == OfferedUp(t, n - 1)
  {
    assert t.up[..n][..n - 1] == t.up[..n - 1];
    assert InStepAt(t, n - 1);
    if n > 1 {
      UpInFlight(z, t, n - 1);
    }
  }

  /** Conservation. While nothing has been lost on the chain, every chunk sent is on a link or has been handled by the exit
      (and, unless the exit discarded some, written by it), every chunk read is on a link or has been opened by the client,
      and the next upward DATA cell opens at the client. */
  lemma NothingMissing(z: Sizes, path: Path, sid: uint16, steps: seq<Step>, t: State)
    requires Run(z, path, sid, steps, t) && !t.lost
    ensures InFlight(t.down) + t.hist[|path| - 1].fromAbove == |t.sent|
    ensures !t.discarded ==> InFlight(t.down) + |t.written| == |t.sent|
    ensures InFlight(t.up) + |t.received| == |t.read|
    ensures t.listening && t.up[0] != [] && t.up[0][0].Data? ==>
      |t.received| < |t.read| && Take(t).received == t.received + [Plain(t.read[|t.received|])]
  {
    hide Reaches, Carries, DownExact, TornOk, ClientOk;
    RunInv(z, path, sid, steps, t);
    DownInFlight(z, t, |path|);
    UpInFlight(z, t, |path|);
    assert t.down[..|path|] == t.down && t.up[..|path|] == t.up;
    if t.listening && t.up[0] != [] && t.up[0][0].Data? {
      TakeNext(z, t);
    }
  }

  /** A run that has lost nothing, seen when the downward links are empty of DATA: the exit has written everything sent. */
  lemma DrainedMeansDelivered(z: Sizes, path: Path, sid: uint16, steps: seq<Step>, t: State)
    requires Run(z, path, sid, steps, t) && !t.lost && !t.discarded && InFlight(t.down) == 0
    ensures t.written == seq(|t.sent|, k requires 0 <= k < |t.sent| => Plain(t.sent[k]))
  {
    hide Reaches, DownOk, UpOk, TornOk, DownExact, Take, InFlight;
    RunInv(z, path, sid, steps, t);
    InStepExact(t);
    NothingMissing(z, path, sid, steps, t);
  }

  lemma NoDataSelected(q: seq<Cell>)
    ensures Select(DataKind, q) == [] <==> !HasData(q)
  {
    SelectNone(DataKind, q);
  }

  lemma {:induction false} NoneInFlight(qs: seq<seq<Cell>>)
    ensures InFlight(qs) == 0 <==> forall i :: 0 <= i < |qs| ==> !HasData(qs[i])
  {
    if qs != [] {
      var front, n := qs[..|qs| - 1], |qs| - 1;
      NoneInFlight(front);
      NoDataSelected(qs[n]);
      hide HasData, Select;
      assert forall i :: 0 <= i < n ==> front[i] == qs[i];
    }
  }

  /** What the flags do not show. Seen when every relay that still holds the circuit has handled its DATA, a run in which none
      was lost in handling has written all that was sent exactly if none is stranded on its way down. */
  lemma WrittenUnlessStranded(z: Sizes, path: Path, sid: uint16, steps: seq<Step>, t: State)
    requires Run(z, path, sid, steps, t) && !t.lost && !t.discarded
    requires forall i :: 0 <= i < |t.path| && t.hops[i].alive ==> !HasData(t.down[i])
    ensures |t.written| == |t.sent| <==> !exists i :: 0 <= i < |t.path| && StrandedAt(t, i)
  {
    hide Reaches, HasData, InFlight;
    NothingMissing(z, path, sid, steps, t);
    NoneInFlight(t.down);
    forall i | 0 <= i < |t.path|
      ensures StrandedAt(t, i) <==> HasData(t.down[i])
    {
    }
  }

  /** And seen when every relay that still holds the circuit, and the client if it listens, has handled what came up, the client
      has opened all that was read exactly if none is stranded on its way up. */
  lemma ReceivedUnlessStranded(z: Sizes, path: Path, sid: uint16, steps: seq<Step>, t: State)
    requires Run(z, path, sid, steps, t) && !t.lost
    requires forall i :: 0 <= i < |t.path| && !NoReader(t, i) ==> !HasData(t.up[i])
    ensures |t.received| == |t.read| <==> !exists i :: 0 <= i < |t.path| && UpStrandedAt(t, i)
  {
    hide Reaches, HasData, InFlight, NoReader;
    NothingMissing(z, path, sid, steps, t);
    NoneInFlight(t.up);
    forall i | 0 <= i < |t.path|
      ensures UpStrandedAt(t, i) <==> HasData(t.up[i])
    {
    }
  }
}

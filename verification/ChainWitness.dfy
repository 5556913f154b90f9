/** Runs that exist: what the theorems about runs allow does happen. */
module ChainWitness {
  import opened MachineInts
  import opened Nonces
  import opened Wrappers
  import opened Onion
  import opened RelaySpec
  import opened ClientSpec
  import opened Chain
  import opened ChainLinks
  import opened ChainInvariant
  import opened ChainAbove
  import opened ChainAboveKeeps
  import opened ChainBelow
  import opened ChainEnds
  import opened ChainFrames
  import opened ChainRuns
  import opened ChainStranded
  import opened ChainTheorems
  import opened ChainLoss

  /** An encoder that adds nothing to the data and needs one byte for a request. */
  function PlainSizes(): (z: Sizes)
    ensures z.Valid()
  {
    Sizes((_, n) => n, (_, _) => 1, _ => 1)
  }

  function KeyOf(b: byte): Key {
    seq(32, _ => b)
  }

  function PathOf(n: nat): Path
    requires n <= 256
  {
    seq(n, i requires 0 <= i < n => Ident(KeyOf(i), seq(12, _ => 0)))
  }

  lemma PathIsBuildable(n: nat)
    requires 1 <= n <= 256
    ensures Buildable(PathOf(n), 1)
  {
    forall i, j | 0 <= i < j < n
      ensures PathOf(n)[i].key != PathOf(n)[j].key
    {
      assert KeyOf(i)[0] != KeyOf(j)[0];
    }
  }

  // ---- a one-hop circuit whose far end hangs up ----

  lemma Then(z: Sizes, s: State, step: Step, rest: seq<Step>, t: State)
    requires Shape(s) && Enabled(s, step) && Reaches(z, Apply(z, s, step), rest, t)
    ensures Reaches(z, s, [step] + rest, t)
  {
    hide Apply, Enabled;
    assert ([step] + rest)[1..] == rest;
  }

  /** With one relay the client does see END: BEGIN reaches the exit, the exit dials, the far end closes. */
  lemma OneHopEndReachesTheClient() returns (z: Sizes, path: Path, steps: seq<Step>, t: State)
    ensures Run(z, path, 1, steps, t) && |path| == 1 && End(1) in t.up[0]
  {
    z, path := PlainSizes(), PathOf(1);
    PathIsBuildable(1);
    var s0 := Fresh(path, 1);
    FreshInv(z, path, 1);
    Asked(z, s0);
    var s1 := Apply(z, s0, AskBegin(""));
    StepKeeps(z, s0, AskBegin(""));
    ExitBegins(z, s1);
    var s2 := Apply(z, s1, FromAbove(0, true));
    FarEndCloses(z, s2);
    t := Apply(z, s2, ReadEnd);
    hide Apply, Enabled, Inv;
    Then(z, s2, ReadEnd, [], t);
    Then(z, s1, FromAbove(0, true), [ReadEnd] + [], t);
    Then(z, s0, AskBegin(""), [FromAbove(0, true)] + ([ReadEnd] + []), t);
    steps := [AskBegin("")] + ([FromAbove(0, true)] + ([ReadEnd] + []));
    SamePath(z, s0, steps, t);
  }

  lemma FarEndCloses(z: Sizes, s: State)
    requires z == PlainSizes() && Shape(s) && s.looping && s.hops[|s.path| - 1].alive && s.sid == 1
    ensures Enabled(s, ReadEnd) && End(1) in Apply(z, s, ReadEnd).up[|s.path| - 1]
  {
    var x := |s.path| - 1;
    assert Apply(z, s, ReadEnd).up[x] == s.up[x] + [End(1)];
  }

  /** Nothing has happened but what the fields say. */
  ghost predicate Untouched(s: State) {
    && Shape(s) && s.sid == 1 && s.sinkOk && !s.lost && !s.looping && s.read == [] && s.sent == [] && s.listening
    && (forall i :: 0 <= i < |s.path| ==> s.hist[i].fromBelow == 0 && s.hops[i].alive && s.up[i] == [])
  }

  lemma Asked(z: Sizes, s: State)
    requires z == PlainSizes() && Inv(z, s) && Untouched(s) && s.phase == Idle && |s.path| <= 2 && s.requested == []
    requires forall i :: 0 <= i < |s.path| ==> s.down[i] == []
    ensures Enabled(s, AskBegin(""))
    ensures var t := Apply(z, s, AskBegin(""));
      && Untouched(t) && t.phase == Streaming && t.requested == [BeginDto(1, "")] && t.path == s.path && t.hist == s.hist
      && |t.down[0]| == 1 && t.down[0][0].Begin? && t.hops == s.hops && (forall i :: 0 < i < |s.path| ==> t.down[i] == [])
  {
    hide DownOk, UpOk, InStep, TornOk, ExitOk;
    var m := BeginDto(1, "");
    AskIs(z, s, m, Streaming);
    AskFrame(z, s, m, Streaming);
    SealedLength(z, s.client.keys, NoncesAt(s.client.bases, s.client.begin), Plain(m));
  }

  /** The exit handles BEGIN: the dial succeeds, the stream opens, the upward loop starts. */
  lemma ExitBegins(z: Sizes, s: State)
    requires z == PlainSizes() && Inv(z, s) && Untouched(s) && s.requested == [BeginDto(1, "")]
    requires s.down[Last(s)] != [] && s.down[Last(s)][0].Begin? && !s.hops[Last(s)].hidden
    ensures var x, t := Last(s), Apply(z, s, FromAbove(Last(s), true));
      && Enabled(s, FromAbove(x, true)) && Shape(t) && t.path == s.path && t.sid == 1 && t.looping && t.sinkOk && t.listening && !t.lost
      && t.read == [] && t.sent == [] && t.phase == s.phase && t.hops[x].alive && t.up == s.up[x := [BeginAck]]
      && t.down == s.down[x := s.down[x][1..]] && (forall i :: 0 <= i < x ==> t.hops[i] == s.hops[i])
      && (forall i :: 0 <= i < |s.path| ==> t.hist[i].fromBelow == 0)
  {
    var x := Last(s);
    hide UpOk, InStep, TornOk, ExitOk;
    assert HopOk(s, x);
    NextRequest(z, s, x);
    assert s.hist[x].requests == 0;
    assert Layers(s.path, |s.path|, 0, s.requested[0]) == Plain(s.requested[0]);
    BeginReply(z, s.hops[x], s.down[x][0].request, EnvOf(s, x, true));
    assert s.up[x] + [BeginAck] == [BeginAck];
    hide DownOk, Handle;
  }

  lemma BeginReply(z: Sizes, h: Hop, request: Blob, env: Env)
    requires h.alive && !h.hasDown && !h.hidden && env.dialOk && env.upOpen && Fits(z, BeginAck)
    requires AESOpen(h.key, CounterNonce(h.base, h.begin), request) == Some(Plain(BeginDto(1, "")))
    ensures var r := Handle(z, h, Begin(request), env);
      r.up == [BeginAck] && r.down == [] && r.loop == Some(1) && r.wrote == None && r.hop.alive
  {
    hide CounterNonce;
  }

  // ---- a two-hop circuit that loses a chunk ----

  /** The entry relay passes BEGIN on. */
  lemma BeginPasses(z: Sizes, s: State)
    requires z == PlainSizes() && Inv(z, s) && Untouched(s) && |s.path| == 2 && s.requested == [BeginDto(1, "")]
    requires |s.down[0]| == 1 && s.down[0][0].Begin? && s.down[1] == [] && !s.hops[1].hidden
    ensures var t := Apply(z, s, FromAbove(0, true));
      && Enabled(s, FromAbove(0, true)) && Untouched(t) && t.path == s.path && t.requested == s.requested && t.phase == s.phase
      && t.down[0] == [] && |t.down[1]| == 1 && t.down[1][0].Begin? && t.hops[0].served && t.hops[1] == s.hops[1]
  {
    hide UpOk, InStep, TornOk, ExitOk, Handle;
    MiddleRequest(z, s, 0, true);
    NextRequest(z, s, 0);
    assert HopOk(s, 0);
    hide DownOk;
  }

  lemma ExitReads(z: Sizes, s: State)
    requires z == PlainSizes() && Shape(s) && |s.path| == 2 && s.looping && s.hops[1].alive && s.up == [[], [BeginAck]] && s.sid == 1
    ensures Enabled(s, ReadChunk([0]))
    ensures var t := Apply(z, s, ReadChunk([0]));
      && t.up[0] == [] && |t.up[1]| == 2 && t.up[1][0] == BeginAck && t.up[1][1].Data?
      && t.lost == s.lost && t.read == s.read + [Raw([0])] && t.hops[0] == s.hops[0] && t.hist == s.hist && t.down == s.down
      && t.path == s.path && t.sid == s.sid && t.sent == s.sent && t.phase == s.phase
  {
    hide CounterNonce;
    var c := UpwardCell(s.hops[1], 1, Raw([0]));
    assert BlobLen(z, c.blob) == BlobLen(z, Plain(Raw([0]))) + TAG_SIZE == 17;
    assert SendIf(z, true, c) == [c];
    hide UpwardCell, SendIf;
  }

  lemma AckRises(z: Sizes, s: State)
    requires z == PlainSizes() && Shape(s) && |s.path| == 2 && s.hops[0].alive && s.hops[0].served
    requires s.up[0] == [] && |s.up[1]| == 2 && s.up[1][0] == BeginAck
    ensures Enabled(s, FromBelow(0, true))
    ensures var t := Apply(z, s, FromBelow(0, true));
      t == s.(up := [[BeginAck], [s.up[1][1]]])
  {
    hide CounterNonce;
    var r := ReplyBelow(z, s, 0, true);
    assert r == Reply(s.hops[0], [BeginAck], [], None, None, true);
    hide Handle;
    var t := Apply(z, s, FromBelow(0, true));
    assert s.up[1][1..] == [s.up[1][1]] && s.up[0] + [BeginAck] == [BeginAck];
    assert s.down[1] + [] == s.down[1];
    assert t.up == [[BeginAck], [s.up[1][1]]];
    assert s.hops[0 := s.hops[0]] == s.hops && s.down[1 := s.down[1]] == s.down && s.hist[0 := s.hist[0]] == s.hist;
  }

  lemma DataRises(z: Sizes, s: State)
    requires z == PlainSizes() && Inv(z, s) && |s.path| == 2 && s.hops[0].alive && s.hops[0].served && !s.lost
    requires s.up[0] == [BeginAck] && |s.up[1]| == 1 && s.up[1][0].Data? && s.read == [Raw([0])] && s.hist[0].fromBelow == 0
    ensures Enabled(s, FromBelow(0, true))
    ensures var t := Apply(z, s, FromBelow(0, true));
      && !t.lost && t.hist[0].fromBelow == 1 && t.down == s.down && t.hops[0].alive && t.sent == s.sent && t.phase == s.phase
      && t.path == s.path && t.sid == s.sid && t.read == s.read
  {
    hide Handle, DownOk, UpOk, ExitOk, InStep, TornOk;
    NeverOpensFromBelow(z, s, 0, true);
    assert ReadsInBudget(z, s);
    RelayedFits(z, s, 0);
    LostBelow(z, s, 0, true);
    assert s.down[1] + [] == s.down[1];
    assert Apply(z, s, FromBelow(0, true)).down == s.down;
  }

  lemma ChunkSent(z: Sizes, s: State)
    requires z == PlainSizes() && Inv(z, s) && |s.path| == 2 && s.phase == Streaming && s.down == [[], []] && s.sent == []
    ensures Enabled(s, SendChunk([0]))
    ensures var t := Apply(z, s, SendChunk([0]));
      && |t.down[0]| == 1 && t.down[0][0].Data? && t.down[1] == [] && |t.sent| == 1
      && t.hops == s.hops && t.hist == s.hist && t.lost == s.lost && t.path == s.path && t.read == s.read && t.sid == s.sid
  {
    hide UpOk, ExitOk, InStep, TornOk, DownOk;
    ClientBudget(z, s, Raw([0]));
    ChunkFrame(z, s, Raw([0]));
    hide SendData;
  }

  lemma ChunkIsLost(z: Sizes, s: State)
    requires z == PlainSizes() && Inv(z, s) && |s.path| == 2 && s.hops[0].alive && !s.lost && s.hist[0].fromBelow == 1
    requires |s.down[0]| == 1 && s.down[0][0].Data? && s.down[1] == [] && |s.sent| == 1
    ensures Enabled(s, FromAbove(0, true))
    ensures var t := Apply(z, s, FromAbove(0, true));
      t.lost && t.down == [[], []] && |t.sent| == 1 && t.hist[1].peeled == s.hist[1].peeled && t.hist[1] == s.hist[1]
  {
    hide Handle, UpOk, ExitOk, InStep, TornOk;
    LostAbove(z, s, 0, true);
    var _ := MiddleData(z, s, 0, true);
    assert LinkOk(s, 1) && HopOk(s, 1) && HopOk(s, 0);
    hide DownOk;
    var t := Apply(z, s, FromAbove(0, true));
    assert t.down[0] == [] && t.down[1] == [];
  }

  lemma {:induction false} Join(z: Sizes, s: State, a: seq<Step>, mid: State, b: seq<Step>, t: State)
    requires Shape(s) && Reaches(z, s, a, mid) && Shape(mid) && Reaches(z, mid, b, t)
    ensures Reaches(z, s, a + b, t)
    decreases |a|
  {
    hide Apply, Enabled;
    if a == [] {
      assert a + b == b;
    } else {
      assert (a + b)[1..] == a[1..] + b;
      Join(z, Apply(z, s, a[0]), a[1..], mid, b, t);
    }
  }

  /** The state in which the exit has just begun to read. */
  ghost predicate Begun(s: State) {
    && Shape(s) && |s.path| == 2 && s.looping && !s.lost && s.sid == 1 && s.up == [[], [BeginAck]] && s.down == [[], []]
    && s.hops[0].alive && s.hops[0].served && s.hops[1].alive && s.read == [] && s.sent == [] && s.phase == Streaming
    && s.hist[0].fromBelow == 0
  }

  /** The client has sent BEGIN. */
  ghost predicate Begging(s: State) {
    && Untouched(s) && |s.path| == 2 && s.phase == Streaming && s.requested == [BeginDto(1, "")]
    && |s.down[0]| == 1 && s.down[0][0].Begin? && s.down[1] == [] && !s.hops[1].hidden
  }

  lemma TwoHopAsks(z: Sizes) returns (steps: seq<Step>, s1: State)
    requires z == PlainSizes()
    ensures Shape(Fresh(PathOf(2), 1)) && Reaches(z, Fresh(PathOf(2), 1), steps, s1) && Shape(s1) && Inv(z, s1) && Begging(s1) && Clean(s1)
    ensures forall k :: 0 <= k < |steps| ==> !steps[k].ReadChunk?
  {
    PathIsBuildable(2);
    var s0 := Fresh(PathOf(2), 1);
    FreshInv(z, PathOf(2), 1);
    Asked(z, s0);
    s1 := Apply(z, s0, AskBegin(""));
    StepKeeps(z, s0, AskBegin(""));
    AskFrame(z, s0, BeginDto(1, ""), Streaming);
    assert Clean(s1) by {
      hide Ask;
    }
    hide Apply, Enabled, Inv, PlainSizes;
    Then(z, s0, AskBegin(""), [], s1);
    steps := [AskBegin("")] + [];
  }

  lemma TwoHopBegins(z: Sizes, s1: State) returns (steps: seq<Step>, s3: State)
    requires z == PlainSizes() && Inv(z, s1) && Begging(s1)
    ensures Reaches(z, s1, steps, s3) && Shape(s3) && Inv(z, s3) && Begun(s3)
    ensures forall k :: 0 <= k < |steps| ==> !steps[k].ReadChunk?
  {
    hide Apply, Enabled, Inv, PlainSizes;
    BeginPasses(z, s1);
    var s2 := Apply(z, s1, FromAbove(0, true));
    StepKeeps(z, s1, FromAbove(0, true));
    ExitBegins(z, s2);
    s3 := Apply(z, s2, FromAbove(1, true));
    StepKeeps(z, s2, FromAbove(1, true));
    assert s2.down[1][1..] == [];
    assert s3.up == [[], [BeginAck]] && s3.down == [[], []];
    Then(z, s2, FromAbove(1, true), [], s3);
    Then(z, s1, FromAbove(0, true), [FromAbove(1, true)] + [], s3);
    steps := [FromAbove(0, true)] + ([FromAbove(1, true)] + []);
  }

  /** A run that loses DATA: the exit reads first, the entry relay relays the chunk up, and the client's first chunk then finds
      the entry relay's counter moved. */
  lemma FullDuplexLoses() returns (z: Sizes, path: Path, steps: seq<Step>, t: State)
    ensures Run(z, path, 1, steps, t) && |path| == 2 && t.lost && !HalfDuplex(z, Fresh(path, 1), steps)
    ensures |t.sent| == 1 && t.written == [] && t.down == [[], []]
  {
    hide *;
    z, path := PlainSizes(), PathOf(2);
    steps, t := TwoHopsLose(z);
    LossIsFullDuplex(z, path, steps, t);
  }

  lemma TwoHopsLose(z: Sizes) returns (steps: seq<Step>, t: State)
    requires z == PlainSizes()
    ensures Shape(Fresh(PathOf(2), 1)) && Reaches(z, Fresh(PathOf(2), 1), steps, t)
    ensures Shape(t) && |t.path| == 2 && t.lost && t.hist[1].peeled == 0 && |t.sent| == 1 && t.down == [[], []]
    ensures forall k :: 0 <= k < |steps| && steps[k].ReadChunk? ==> |steps[k].bytes| == 1
  {
    hide Inv, PlainSizes, PathOf, Reaches, Begging, Begun, Fresh;
    var zeroth, s1 := TwoHopAsks(z);
    var first, s3 := TwoHopBegins(z, s1);
    var second, s6 := OneChunkRises(z, s3);
    var third, end := OneChunkTurnedBack(z, s6);
    t := end;
    hide Shape;
    Join(z, s3, second, s6, third, t);
    Join(z, s1, first, s3, second + third, t);
    Join(z, Fresh(PathOf(2), 1), zeroth, s1, first + (second + third), t);
    steps := zeroth + (first + (second + third));
  }

  lemma LossIsFullDuplex(z: Sizes, path: Path, steps: seq<Step>, t: State)
    requires z == PlainSizes() && path == PathOf(2) && Shape(Fresh(path, 1)) && Reaches(z, Fresh(path, 1), steps, t)
    requires Shape(t) && |t.path| == 2 && t.lost && t.hist[1].peeled == 0
    requires forall k :: 0 <= k < |steps| && steps[k].ReadChunk? ==> |steps[k].bytes| == 1
    ensures Run(z, path, 1, steps, t) && |path| == 2 && !HalfDuplex(z, Fresh(path, 1), steps) && t.written == []
  {
    PathIsBuildable(2);
    hide HalfDuplex, Reaches, ExitWelcomes;
    NoLossExactlyIfHalfDuplex(z, path, 1, steps, t);
    NothingWritten(z, path, steps, t);
  }

  lemma NothingWritten(z: Sizes, path: Path, steps: seq<Step>, t: State)
    requires Run(z, path, 1, steps, t) && |path| == 2 && t.hist[1].peeled == 0
    ensures t.written == []
  {
    RunInv(z, path, 1, steps, t);
  }

  lemma OneChunkRises(z: Sizes, s3: State) returns (steps: seq<Step>, s6: State)
    requires z == PlainSizes() && Inv(z, s3) && Begun(s3)
    ensures Reaches(z, s3, steps, s6) && Shape(s6) && Inv(z, s6) && |s6.path| == 2 && !s6.lost && s6.hist[0].fromBelow == 1
    ensures s6.down == [[], []] && s6.hops[0].alive && s6.sent == [] && s6.phase == Streaming
    ensures forall k :: 0 <= k < |steps| && steps[k].ReadChunk? ==> |steps[k].bytes| == 1
  {
    ExitReads(z, s3);
    var s4 := Apply(z, s3, ReadChunk([0]));
    StepKeeps(z, s3, ReadChunk([0]));
    AckRises(z, s4);
    var s5 := Apply(z, s4, FromBelow(0, true));
    StepKeeps(z, s4, FromBelow(0, true));
    DataRises(z, s5);
    s6 := Apply(z, s5, FromBelow(0, true));
    StepKeeps(z, s5, FromBelow(0, true));
    hide Apply, Enabled, Inv, PlainSizes;
    Then(z, s5, FromBelow(0, true), [], s6);
    Then(z, s4, FromBelow(0, true), [FromBelow(0, true)] + [], s6);
    Then(z, s3, ReadChunk([0]), [FromBelow(0, true)] + ([FromBelow(0, true)] + []), s6);
    steps := [ReadChunk([0])] + ([FromBelow(0, true)] + ([FromBelow(0, true)] + []));
  }

  lemma OneChunkTurnedBack(z: Sizes, s6: State) returns (steps: seq<Step>, t: State)
    requires z == PlainSizes() && Inv(z, s6) && |s6.path| == 2 && !s6.lost && s6.hist[0].fromBelow == 1
    requires s6.down == [[], []] && s6.hops[0].alive && s6.sent == [] && s6.phase == Streaming
    ensures Reaches(z, s6, steps, t) && Shape(t) && |t.path| == 2 && t.lost && |t.sent| == 1 && t.down == [[], []]
    ensures t.hist[1].peeled == 0 && forall k :: 0 <= k < |steps| ==> !steps[k].ReadChunk?
  {
    ChunkSent(z, s6);
    var s7 := Apply(z, s6, SendChunk([0]));
    StepKeeps(z, s6, SendChunk([0]));
    NothingPeeled(z, s7);
    ChunkIsLost(z, s7);
    t := Apply(z, s7, FromAbove(0, true));
    hide Apply, Enabled, Inv, PlainSizes;
    Then(z, s7, FromAbove(0, true), [], t);
    Then(z, s6, SendChunk([0]), [FromAbove(0, true)] + [], t);
    steps := [SendChunk([0])] + ([FromAbove(0, true)] + []);
  }

  /** The exit has peeled nothing while the client's first chunk is still on the first link. */
  lemma NothingPeeled(z: Sizes, s: State)
    requires Inv(z, s) && |s.path| == 2 && |s.down[0]| == 1 && s.down[0][0].Data? && s.down[1] == [] && |s.sent| == 1
    ensures s.hist[1].peeled == 0
  {
    assert LinkOk(s, 0) && LinkOk(s, 1) && HopOk(s, 0) && HopOk(s, 1);
    assert Select(DataKind, s.down[0]) == [s.down[0][0]] by {
      assert s.down[0][1..] == [];
    }
  }

  // ---- a two-hop circuit whose exit cannot dial ----

  /** Nothing has been lost or discarded, and nothing written. */
  predicate Clean(s: State) {
    !s.lost && !s.discarded && s.written == []
  }

  lemma RequestIsClean(z: Sizes, s: State, i: nat, dialOk: bool)
    requires Shape(s) && i < |s.path| && s.down[i] != [] && IsRequest(s.down[i][0]) && Clean(s)
    ensures Clean(HandleAbove(z, s, i, dialOk))
  {
    hide CounterNonce;
    assert ReplyAbove(z, s, i, dialOk).wrote == None;
    hide Handle;
  }

  /** The exit handles BEGIN and the dial fails: DESTROY goes up. */
  lemma DialFails(z: Sizes, s: State)
    requires z == PlainSizes() && Inv(z, s) && Untouched(s) && |s.path| == 2 && s.requested == [BeginDto(1, "")]
    requires s.down[1] != [] && s.down[1][0].Begin? && !s.hops[1].hidden
    ensures var t := Apply(z, s, FromAbove(1, false));
      && Enabled(s, FromAbove(1, false)) && Shape(t) && t.path == s.path && t.sid == 1 && t.listening && t.sent == [] && t.phase == s.phase
      && t.hops[0] == s.hops[0] && t.up == [[], [Destroy]] && t.down[0] == s.down[0] && t.hist[0] == s.hist[0]
  {
    hide UpOk, InStep, TornOk, ExitOk;
    assert HopOk(s, 1);
    NextRequest(z, s, 1);
    assert s.hist[1].requests == 0;
    assert Layers(s.path, 2, 0, s.requested[0]) == Plain(s.requested[0]);
    FailedReply(z, s.hops[1], s.down[1][0].request, EnvOf(s, 1, false));
    assert s.up[1] + [Destroy] == [Destroy];
    hide DownOk, Handle;
    assert Apply(z, s, FromAbove(1, false)).up == [[], [Destroy]];
  }

  lemma FailedReply(z: Sizes, h: Hop, request: Blob, env: Env)
    requires h.alive && !h.hasDown && !h.hidden && !env.dialOk && env.upOpen && Fits(z, Destroy)
    requires AESOpen(h.key, CounterNonce(h.base, h.begin), request) == Some(Plain(BeginDto(1, "")))
    ensures Handle(z, h, Begin(request), env).up == [Destroy]
  {
    hide CounterNonce;
  }

  /** DESTROY from below takes the circuit from the entry relay, and goes down again. */
  lemma EntryDestroyed(z: Sizes, s: State)
    requires Shape(s) && |s.path| == 2 && s.hops[0].alive && s.hops[0].served && s.up == [[], [Destroy]] && Clean(s)
    ensures var t := Apply(z, s, FromBelow(0, true));
      && Enabled(s, FromBelow(0, true)) && Shape(t) && t.path == s.path && t.sid == s.sid && t.listening == s.listening
      && t.sent == s.sent && t.phase == s.phase && !t.hops[0].alive && t.down[0] == s.down[0] && Clean(t)
  {
    BelowFrame(z, s, 0, true);
    AliveAfter(z, s, FromBelow(0, true), 0);
    assert ReplyBelow(z, s, 0, true).wrote == None;
    hide Handle;
  }

  lemma ChunkStrands(z: Sizes, s: State)
    requires z == PlainSizes() && Inv(z, s) && |s.path| == 2 && s.phase == Streaming && s.sent == [] && !s.hops[0].alive && Clean(s)
    ensures var t := Apply(z, s, SendChunk([0]));
      && Enabled(s, SendChunk([0])) && Shape(t) && |t.path| == 2 && |t.sent| == 1 && StrandedAt(t, 0) && Clean(t) && t.listening == s.listening
  {
    hide UpOk, ExitOk, InStep, TornOk, DownOk;
    ClientBudget(z, s, Raw([0]));
    ChunkFrame(z, s, Raw([0]));
    ChunkIs(z, s, Raw([0]));
    var c := SendData(z, s.client, s.sid, Raw([0])).cell.value;
    hide Chunk, SendData;
    var t := Apply(z, s, SendChunk([0]));
    assert c in t.down[0] && c.Data?;
  }

  /** With two relays a failed dial takes the circuit from the entry relay without a word to the client: what it sends then is
      stranded there, though the run is half-duplex, everything fits, and the exit has refused nothing. */
  lemma FailedDialStrands() returns (z: Sizes, path: Path, steps: seq<Step>, t: State)
    ensures Run(z, path, 1, steps, t) && |path| == 2 && |t.sent| == 1 && t.written == [] && !t.lost && !t.discarded && t.listening
    ensures HalfDuplex(z, Fresh(path, 1), steps) && AllFit(z, Fresh(path, 1), steps) && ExitWelcomes(z, Fresh(path, 1), steps)
    ensures StrandedAt(t, 0) && !NeverStrands(z, Fresh(path, 1), steps)
  {
    hide *;
    z, path := PlainSizes(), PathOf(2);
    steps, t := TwoHopsStrand(z);
    StrandedRun(z, path, steps, t);
  }

  lemma StrandedRun(z: Sizes, path: Path, steps: seq<Step>, t: State)
    requires z == PlainSizes() && path == PathOf(2) && Shape(Fresh(path, 1)) && Reaches(z, Fresh(path, 1), steps, t)
    requires Shape(t) && |t.path| == 2 && !t.lost && !t.discarded && StrandedAt(t, 0)
    ensures Run(z, path, 1, steps, t) && |path| == 2
    ensures HalfDuplex(z, Fresh(path, 1), steps) && AllFit(z, Fresh(path, 1), steps) && ExitWelcomes(z, Fresh(path, 1), steps)
    ensures !NeverStrands(z, Fresh(path, 1), steps)
  {
    PathIsBuildable(2);
    assert Stranded(t);
    hide HalfDuplex, AllFit, ExitWelcomes, NeverStrands, Reaches, Stranded, StrandedAt;
    NoLossExactly(z, path, 1, steps, t);
  }

  lemma TwoHopsStrand(z: Sizes) returns (steps: seq<Step>, t: State)
    requires z == PlainSizes()
    ensures Shape(Fresh(PathOf(2), 1)) && Reaches(z, Fresh(PathOf(2), 1), steps, t) && Shape(t) && |t.path| == 2
    ensures |t.sent| == 1 && !t.lost && !t.discarded && t.written == [] && t.listening && StrandedAt(t, 0)
  {
    hide Inv, PlainSizes, PathOf, Reaches, Begging, Fresh;
    var zeroth, s1 := TwoHopAsks(z);
    var first, s4 := TwoHopFails(z, s1);
    t := Apply(z, s4, SendChunk([0]));
    ChunkStrands(z, s4);
    hide Apply, Enabled, StrandedAt, Clean;
    LastStep(z, s4, SendChunk([0]));
    hide Shape;
    Join(z, s1, first, s4, [SendChunk([0])], t);
    Join(z, Fresh(PathOf(2), 1), zeroth, s1, first + [SendChunk([0])], t);
    steps := zeroth + (first + [SendChunk([0])]);
  }

  lemma LastStep(z: Sizes, s: State, step: Step)
    requires Shape(s) && Enabled(s, step)
    ensures Reaches(z, s, [step], Apply(z, s, step))
  {
    hide Apply, Enabled;
    assert [step][1..] == [];
  }

  lemma TwoHopFails(z: Sizes, s1: State) returns (steps: seq<Step>, s4: State)
    requires z == PlainSizes() && Inv(z, s1) && Begging(s1) && Clean(s1)
    ensures Reaches(z, s1, steps, s4) && Shape(s4) && Inv(z, s4) && |s4.path| == 2 && s4.phase == Streaming && s4.sent == []
    ensures !s4.hops[0].alive && Clean(s4) && s4.listening
  {
    hide Apply, Enabled, Inv, PlainSizes, Clean;
    BeginPasses(z, s1);
    var s2 := Apply(z, s1, FromAbove(0, true));
    StepKeeps(z, s1, FromAbove(0, true));
    AskedIsClean(z, s1, 0, true);
    DialFails(z, s2);
    var s3 := Apply(z, s2, FromAbove(1, false));
    StepKeeps(z, s2, FromAbove(1, false));
    AskedIsClean(z, s2, 1, false);
    EntryDestroyed(z, s3);
    s4 := Apply(z, s3, FromBelow(0, true));
    StepKeeps(z, s3, FromBelow(0, true));
    Then(z, s3, FromBelow(0, true), [], s4);
    Then(z, s2, FromAbove(1, false), [FromBelow(0, true)] + [], s4);
    Then(z, s1, FromAbove(0, true), [FromAbove(1, false)] + ([FromBelow(0, true)] + []), s4);
    steps := [FromAbove(0, true)] + ([FromAbove(1, false)] + ([FromBelow(0, true)] + []));
  }

  lemma AskedIsClean(z: Sizes, s: State, i: nat, dialOk: bool)
    requires Shape(s) && Enabled(s, FromAbove(i, dialOk)) && IsRequest(s.down[i][0]) && Clean(s)
    ensures Clean(Apply(z, s, FromAbove(i, dialOk)))
  {
    RequestIsClean(z, s, i, dialOk);
    hide HandleAbove, Clean;
  }
}

/** An upward loss is final: the number it used up is missing for good, and the client opens nothing from there on. */
module ChainFinal {
  import opened MachineInts
  import opened Nonces
  import opened Wrappers
  import opened Onion
  import opened RelaySpec
  import opened ClientSpec
  import opened Chain
  import opened ChainFrames
  import opened ChainLinks
  import opened ChainInvariant
  import opened ChainAbove
  import opened ChainAboveKeeps
  import opened ChainBelow
  import opened ChainEnds
  import opened ChainRuns
  import opened ChainTheorems
  import opened ChainLoss

  /** The layers of relays i to the exit, all under upward number `b`: what the client opens with its counters at `b`. */
  predicate AllNumbered(path: Path, i: nat, b: nat, blob: Blob)
    decreases |path| - i
  {
    if i >= |path| then true
    else
      && blob.Sealed? && blob.key == path[i].key && blob.nonce == CounterNonce(path[i].base, Wrap(b))
      && AllNumbered(path, i + 1, b, blob.inner)
  }

  lemma {:induction false} OpensAllNumbered(path: Path, h: nat, b: nat, blob: Blob)
    requires h <= |path| && OpenFrom(Keys(path), Bases(path), Moving(|path|, h, b), h, blob).1.Some?
    ensures AllNumbered(path, h, b, blob)
    decreases |path| - h
  {
    if h < |path| {
      hide OpenFrom, Moving, Keys, Bases, CounterNonce, Wrap;
      OpenStep(path, h, b, blob);
      OpensAllNumbered(path, h + 1, b, blob.inner);
    }
  }

  /** No cell that the client would open as number `b` is between relay `i` and the client. */
  ghost predicate Missing(s: State, i: nat, b: nat)
    requires Shape(s) && i < |s.path|
  {
    forall l, c :: 0 <= l <= i && c in s.up[l] && c.Data? ==> !AllNumbered(s.path, l, b, c.blob)
  }

  /** How often relay `i` can have drawn an upward number. */
  function Uses(s: State, i: nat): nat
    requires Shape(s) && i < |s.path|
  {
    s.hist[i].fromAbove + s.hist[i].fromBelow + if i == Last(s) then |s.read| else 0
  }

  // ---- what goes up ----

  lemma HandleUp(z: Sizes, h: Hop, c: Cell, env: Env)
    ensures var r := Handle(z, h, c, env);
      && (forall d :: d in r.up && d.Data? ==>
            c.Data? && d.blob == AESSeal(h.key, CounterNonce(h.base, h.up), c.blob) && r.hop.up == Inc(h.up))
      && (r.hop.up == h.up || (c.Data? && r.hop.up == Inc(h.up)) || (c.Connect? && !h.hasDown))
  {
    hide CounterNonce;
  }

  /** The DATA cells a step puts on the link up from relay `l`: sealed by that relay under its current upward number. */
  ghost predicate Rises(s: State, step: Step, t: State, l: nat)
    requires Shape(s) && Shape(t) && Enabled(s, step) && l < |s.path| == |t.path|
  {
    forall c :: c in t.up[l] && c.Data? && c !in s.up[l] ==>
      && c.blob.Sealed? && c.blob.key == s.hops[l].key && c.blob.nonce == CounterNonce(s.hops[l].base, s.hops[l].up)
      && (   (step.FromAbove? && step.i == l && s.down[l][0].Data? && c.blob.inner == s.down[l][0].blob)
          || (step.FromBelow? && step.i == l && s.up[l + 1][0].Data? && c.blob.inner == s.up[l + 1][0].blob)
          || (step.ReadChunk? && l == Last(s)))
  }

  lemma AboveRises(z: Sizes, s: State, i: nat, dialOk: bool, l: nat)
    requires Shape(s) && Enabled(s, FromAbove(i, dialOk)) && l < |s.path|
    ensures Rises(s, FromAbove(i, dialOk), HandleAbove(z, s, i, dialOk), l)
  {
    HandleUp(z, s.hops[i], s.down[i][0], EnvOf(s, i, dialOk));
    hide Handle, Opens, CounterNonce;
  }

  lemma BelowRises(z: Sizes, s: State, i: nat, dialOk: bool, l: nat)
    requires Shape(s) && Enabled(s, FromBelow(i, dialOk)) && l < |s.path|
    ensures Rises(s, FromBelow(i, dialOk), HandleBelow(z, s, i, dialOk), l)
  {
    HandleUp(z, s.hops[i], s.up[i + 1][0], EnvOf(s, i, dialOk));
    BelowUps(z, s, i, dialOk, l);
    hide Handle, HandleBelow, CounterNonce, EnvOf;
    RestIn(s.up[i + 1]);
  }

  lemma ReadRises(z: Sizes, s: State, bytes: seq<byte>, l: nat)
    requires Shape(s) && Enabled(s, ReadChunk(bytes)) && l < |s.path|
    ensures Rises(s, ReadChunk(bytes), Read(z, s, Raw(bytes)), l)
  {
    hide CounterNonce;
  }

  lemma OtherRises(z: Sizes, s: State, step: Step, l: nat)
    requires Shape(s) && Enabled(s, step) && l < |s.path| && !step.FromAbove? && !step.FromBelow? && !step.ReadChunk?
    ensures Rises(s, step, Apply(z, s, step), l)
  {
    hide Ask, Chunk, Take, CounterNonce;
    if step.AskConnect? {
      AskFrame(z, s, ConnectMsg(step.target), Connected);
    } else if step.AskBegin? {
      AskFrame(z, s, BeginDto(s.sid, step.target), Streaming);
    } else if step.SendChunk? {
      ChunkFrame(z, s, Raw(step.bytes));
    } else if step.Receive? {
      TakeFrame(s);
      RestIn(s.up[0]);
    }
  }

  lemma StepRises(z: Sizes, s: State, step: Step, l: nat)
    requires Shape(s) && Enabled(s, step) && l < |s.path|
    ensures Rises(s, step, Apply(z, s, step), l)
  {
    hide HandleAbove, HandleBelow, Read, Rises;
    if step.FromAbove? {
      AboveRises(z, s, step.i, step.dialOk, l);
    } else if step.FromBelow? {
      BelowRises(z, s, step.i, step.dialOk, l);
    } else if step.ReadChunk? {
      ReadRises(z, s, step.bytes, l);
    } else {
      hide Apply;
      OtherRises(z, s, step, l);
    }
  }

  /** The counter of relay `i` moves only forwards, one for each use, unless a CONNECT starts it afresh at the exit. */
  lemma CounterMoves(z: Sizes, s: State, step: Step, i: nat)
    requires Shape(s) && Enabled(s, step) && i < |s.path|
    ensures var t := Apply(z, s, step);
      && Uses(s, i) <= Uses(t, i)
      && (t.hops[i].up == s.hops[i].up || (t.hops[i].up == Inc(s.hops[i].up) && Uses(s, i) < Uses(t, i))
          || (HandlesConnect(s, step, i) && !s.hops[i].hasDown))
  {
    if step.ReadChunk? || step.ReadEnd? {
      hide Read, EndRead;
      ReadCounter(z, s, if step.ReadChunk? then step.bytes else []);
      StepFrame(z, s, step);
      RelayFrame(z, s, step, i);
    } else if !step.Expire? {
      HandlerCounter(z, s, step, i);
    }
  }

  lemma HandlerCounter(z: Sizes, s: State, step: Step, i: nat)
    requires Shape(s) && Enabled(s, step) && i < |s.path| && !step.ReadChunk? && !step.ReadEnd? && !step.Expire?
    ensures var t := Apply(z, s, step);
      && Uses(s, i) <= Uses(t, i)
      && (t.hops[i].up == s.hops[i].up || (t.hops[i].up == Inc(s.hops[i].up) && Uses(s, i) < Uses(t, i))
          || (HandlesConnect(s, step, i) && !s.hops[i].hasDown))
  {
    StepFrame(z, s, step);
    RelayFrame(z, s, step, i);
    hide Apply, Handle;
    if step.FromAbove? && step.i == i {
      HandleUp(z, s.hops[i], s.down[i][0], EnvOf(s, i, step.dialOk));
      Counted(z, s, step);
    } else if step.FromBelow? && step.i == i {
      HandleUp(z, s.hops[i], s.up[i + 1][0], EnvOf(s, i, step.dialOk));
      Counted(z, s, step);
    }
  }

  predicate HandlesConnect(s: State, step: Step, i: nat)
    requires Shape(s) && Enabled(s, step)
  {
    || (step.FromAbove? && step.i == i && s.down[i][0].Connect?)
    || (step.FromBelow? && step.i == i && s.up[i + 1][0].Connect?)
  }

  lemma Counted(z: Sizes, s: State, step: Step)
    requires Shape(s) && Enabled(s, step) && (step.FromAbove? || step.FromBelow?)
    ensures var t, i := Apply(z, s, step), step.i; var c := if step.FromAbove? then s.down[i][0] else s.up[i + 1][0];
      t.hist[i].fromAbove + t.hist[i].fromBelow == s.hist[i].fromAbove + s.hist[i].fromBelow + if c.Data? then 1 else 0
  {
    hide Handle, Effect, Opens;
  }

  lemma ReadCounter(z: Sizes, s: State, bytes: seq<byte>)
    requires Shape(s)
    ensures Read(z, s, Raw(bytes)).hops[Last(s)].up == Inc(s.hops[Last(s)].up) && EndRead(z, s).hops[Last(s)].up == s.hops[Last(s)].up
    ensures Read(z, s, Raw(bytes)).hist == s.hist && EndRead(z, s).hist == s.hist
  {
    hide SendIf, UpwardCell;
  }

  // ---- after the loss ----

  /** Number `b` is behind relay `i`: used up `d` steps of its counter ago, on no link from there to the client, and not opened
      by the client. */
  ghost predicate Behind(s: State, i: nat, b: nat, d: nat)
    requires Shape(s) && i < |s.path|
  {
    && b < TWO_TO_64 && 0 < d < TWO_TO_64 && s.hops[i].up == Wrap(b + d)
    && Missing(s, i, b) && |s.received| <= b && (i == Last(s) ==> s.read != [])
  }

  lemma StaysMissing(z: Sizes, s: State, step: Step, i: nat, b: nat, d: nat)
    requires Inv(z, s) && Enabled(s, step) && i < |s.path| && Behind(s, i, b, d)
    ensures Missing(Apply(z, s, step), i, b)
  {
    var t := Apply(z, s, step);
    forall l, c | 0 <= l <= i && c in t.up[l] && c.Data?
      ensures !AllNumbered(t.path, l, b, c.blob)
    {
      StepRises(z, s, step, l);
      NotNumbered(s, step, t, i, b, d, l, c);
    }
  }

  /** A cell relay `l` sends up is number `b` only if the cell below already was, or relay `i` is at `b` again. */
  lemma NotNumbered(s: State, step: Step, t: State, i: nat, b: nat, d: nat, l: nat, c: Cell)
    requires Shape(s) && Shape(t) && t.path == s.path && Enabled(s, step) && i < |s.path| && l <= i && Behind(s, i, b, d)
    requires DistinctKeys(s.path) && (forall j :: 0 <= j < |s.path| ==> HopOk(s, j) && LinkOk(s, j))
    requires Rises(s, step, t, l) && c in t.up[l] && c.Data?
    ensures !AllNumbered(t.path, l, b, c.blob)
  {
    hide Carries, DownExact, RequestsFirst, CounterNonce, Wrap;
    assert HopOk(s, l) && LinkOk(s, l);
    if c !in s.up[l] {
      if l == i {
        NotAgain(s.path[l].base, b, d);
      } else if step.FromAbove? {
        assert s.down[l][0] in s.down[l];
        DownKey(s, l, s.down[l][0]);
        assert s.path[l].key != s.path[l + 1].key;
      } else if step.FromBelow? {
        assert s.up[l + 1][0] in s.up[l + 1];
      }
    }
  }

  lemma NotAgain(base: Nonce, b: nat, d: nat)
    requires 0 < d < TWO_TO_64
    ensures CounterNonce(base, Wrap(b + d)) != CounterNonce(base, Wrap(b))
  {
    NoncesOfOneCounterDistinct(base, b, b + d);
  }

  lemma DownKey(s: State, l: nat, c: Cell)
    requires Shape(s) && l < |s.path| && c.Data? && SomeItem(s.path, s.sid, s.sent, l, c)
    ensures c.blob.Sealed? && c.blob.key == s.path[l].key
  {
    hide CounterNonce;
  }

  lemma StaysUnopened(z: Sizes, s: State, step: Step, i: nat, b: nat, d: nat)
    requires Inv(z, s) && Enabled(s, step) && i < |s.path| && Behind(s, i, b, d) && DownExact(s.hist) && |s.read| < TWO_TO_64
    ensures |Apply(z, s, step).received| <= b
  {
    StepFrame(z, s, step);
    if step.Receive? && |s.received| == b && s.up[0][0].Data? {
      var c := s.up[0][0];
      assert c in s.up[0] && !AllNumbered(s.path, 0, b, c.blob);
      assert ClientOk(z, s) && ClientUpOk(s);
      assert Moving(|s.path|, 0, b) == AllAt(|s.path|, b);
      hide DownOk, ExitOk, UpOk, InStep, TornOk, AllNumbered, OpenFrom, DownExact, AllAt, Moving;
      if Decrypt(s.client, c.blob).1.Some? {
        OpensAllNumbered(s.path, 0, b, c.blob);
      }
    } else if step.Receive? {
      ReceivesOne(s);
    }
  }

  lemma ReceivesOne(s: State)
    requires Shape(s) && s.up[0] != []
    ensures |Take(s).received| <= |s.received| + 1 && (!s.up[0][0].Data? ==> Take(s).received == s.received)
  {
    hide Decrypt;
  }

  lemma StillBehind(s: State, t: State, i: nat, b: nat, d: nat, d1: nat)
    requires Shape(s) && Shape(t) && i < |s.path| == |t.path| && Behind(s, i, b, d) && d1 < TWO_TO_64
    requires (d1 == d && t.hops[i].up == s.hops[i].up) || (d1 == d + 1 && t.hops[i].up == Inc(s.hops[i].up))
    requires Missing(t, i, b) && |t.received| <= b && |s.read| <= |t.read|
    ensures Behind(t, i, b, d1)
  {
    IncWrap(b + d);
    hide Wrap, Missing;
  }

  /** Whatever the next step, number `b` stays behind. */
  lemma StaysBehind(z: Sizes, s: State, step: Step, i: nat, b: nat, d: nat) returns (d1: nat)
    requires Inv(z, s) && z.Valid() && Enabled(s, step) && i < |s.path| && Behind(s, i, b, d) && DownExact(s.hist) && |s.read| < TWO_TO_64
    requires d + Uses(Apply(z, s, step), i) - Uses(s, i) < TWO_TO_64
    ensures Behind(Apply(z, s, step), i, b, d1) && d1 <= d + Uses(Apply(z, s, step), i) - Uses(s, i)
  {
    hide Apply, Missing, Enabled, Uses, HandlesConnect, DownExact, Wrap, DownOk, ExitOk, UpOk, InStep, TornOk;
    CounterMoves(z, s, step, i);
    StaysMissing(z, s, step, i, b, d);
    StaysUnopened(z, s, step, i, b, d);
    NoConnectAfterReading(z, s, step, i);
    StepFrame(z, s, step);
    hide Behind, Framed;
    d1 := if Apply(z, s, step).hops[i].up == s.hops[i].up then d else d + 1;
    StepLater(z, s, step);
    hide Inv;
    StillBehind(s, Apply(z, s, step), i, b, d, d1);
  }

  lemma NoConnectAfterReading(z: Sizes, s: State, step: Step, i: nat)
    requires Inv(z, s) && Enabled(s, step) && i < |s.path| && (i == Last(s) ==> s.read != [])
    ensures HandlesConnect(s, step, i) ==> s.hops[i].hasDown
  {
    assert HopOk(s, i);
    hide LinkOk, UpOk, InStep, TornOk, ClientOk, DownExact;
    if HandlesConnect(s, step, i) && step.FromAbove? && i == Last(s) {
      NoDataBeforeRequest(z, s, i);
    }
  }

  // ---- the loss ----

  /** The relay at which a step loses DATA, if it loses any. */
  function Culprit(s: State, step: Step): nat
    requires Shape(s)
  {
    match step
    case FromAbove(i, _) => i
    case FromBelow(i, _) => i
    case _ => Last(s)
  }

  ghost predicate Loses(z: Sizes, s: State, step: Step)
    requires Shape(s)
  {
    Enabled(s, step) && !s.lost && Apply(z, s, step).lost
  }

  /** The loss has used up the number of the culprit's next chunk: for a cell turned back, or one that does not fit. */
  ghost predicate UsesNumber(s: State, step: Step, t: State)
    requires Shape(s) && Shape(t) && |t.path| == |s.path|
  {
    var i := Culprit(s, step);
    && i < |s.path| && (step.FromAbove? || step.FromBelow? || step.ReadChunk?) && (i == Last(s) ==> step.ReadChunk?)
    && s.hops[i].up == Wrap(OfferedUp(s, i)) && t.hops[i].up == Wrap(OfferedUp(s, i) + 1)
    && (step.FromBelow? || step.ReadChunk? ==> t.up[i] == s.up[i])
  }

  lemma LossUses(z: Sizes, s: State, step: Step)
    requires Inv(z, s) && z.Valid() && Loses(z, s, step)
    ensures UsesNumber(s, step, Apply(z, s, step))
  {
    StepIs(z, s, step);
    hide DownOk, ExitOk, UpOk, InStep, TornOk, UsesNumber, HandleAbove, HandleBelow, Read;
    if step.FromAbove? {
      AboveLoss(z, s, step.i, step.dialOk);
    } else if step.FromBelow? {
      BelowLoss(z, s, step.i, step.dialOk);
    } else if step.ReadChunk? {
      ReadLoss(z, s, step.bytes);
    } else {
      QuietLoss(z, s, step);
    }
  }

  /** The three steps that can lose DATA. */
  lemma StepIs(z: Sizes, s: State, step: Step)
    requires Shape(s) && Enabled(s, step)
    ensures step.FromAbove? ==> Handles(s, step.i) && Apply(z, s, step) == HandleAbove(z, s, step.i, step.dialOk)
    ensures step.FromBelow? ==> Relays(s, step.i) && Apply(z, s, step) == HandleBelow(z, s, step.i, step.dialOk)
    ensures step.ReadChunk? ==> Apply(z, s, step) == Read(z, s, Raw(step.bytes))
  {
    hide HandleAbove, HandleBelow, Read;
  }

  lemma InStepUp(s: State, i: nat)
    requires Shape(s) && InStep(s) && !s.lost && i < |s.path|
    ensures s.hops[i].up == Wrap(OfferedUp(s, i)) && Inc(s.hops[i].up) == Wrap(OfferedUp(s, i) + 1)
  {
    assert InStepAt(s, i);
    IncWrap(OfferedUp(s, i));
  }

  lemma QuietLoss(z: Sizes, s: State, step: Step)
    requires Shape(s) && Enabled(s, step) && !step.FromAbove? && !step.FromBelow? && !step.ReadChunk?
    ensures Apply(z, s, step).lost == s.lost
  {
    StepFrame(z, s, step);
    hide Apply;
  }

  lemma AboveLoss(z: Sizes, s: State, i: nat, dialOk: bool)
    requires Shape(s) && z.Valid() && DownOk(z, s) && InStep(s) && Handles(s, i) && !s.lost && HandleAbove(z, s, i, dialOk).lost
    ensures UsesNumber(s, FromAbove(i, dialOk), HandleAbove(z, s, i, dialOk))
  {
    AboveFrame(z, s, i, dialOk);
    assert s.down[i][0].Data? && i < Last(s);
    var _ := MiddleData(z, s, i, dialOk);
    InStepUp(s, i);
    hide Handle, DownOk, InStep, Wrap;
  }

  lemma BelowLoss(z: Sizes, s: State, i: nat, dialOk: bool)
    requires Inv(z, s) && Relays(s, i) && !s.lost && HandleBelow(z, s, i, dialOk).lost
    ensures UsesNumber(s, FromBelow(i, dialOk), HandleBelow(z, s, i, dialOk))
  {
    hide Handle, LinkOk, HopOk, ExitOk, TornOk, ClientOk, InStep, DownExact, Wrap;
    NeverOpensFromBelow(z, s, i, dialOk);
    BelowUps(z, s, i, dialOk, i);
    InStepUp(s, i);
  }

  lemma ReadLoss(z: Sizes, s: State, bytes: seq<byte>)
    requires Shape(s) && InStep(s) && !s.lost && Read(z, s, Raw(bytes)).lost
    ensures UsesNumber(s, ReadChunk(bytes), Read(z, s, Raw(bytes)))
  {
    InStepUp(s, Last(s));
    hide UpwardCell, SendIf, InStep, Wrap;
    assert s.up[Last(s)] + [] == s.up[Last(s)];
  }

  /** While nothing is lost the counts grow from the client to the exit. */
  lemma {:induction false} OfferedGrow(s: State, l: nat, i: nat)
    requires Shape(s) && !s.lost && InStep(s) && l <= i < |s.path|
    ensures OfferedUp(s, l) <= OfferedUp(s, i) <= |s.read|
    decreases i - l, |s.path| - i
  {
    assert InStepAt(s, i);
    if l < i {
      OfferedGrow(s, l, i - 1);
    } else if i < Last(s) {
      assert InStepAt(s, i + 1);
      OfferedGrow(s, i + 1, i + 1);
    }
  }

  lemma {:induction false} InSelect(kind: Kind, q: seq<Cell>, c: Cell) returns (k: nat)
    requires c in q && OfKind(kind, c)
    ensures k < |Select(kind, q)| && Select(kind, q)[k] == c
  {
    if q[0] == c {
      k := 0;
    } else {
      var j := InSelect(kind, q[1..], c);
      k := if OfKind(kind, q[0]) then j + 1 else j;
    }
  }

  /** While nothing is lost, no link from relay `i` up carries the chunk relay `i` sends next. */
  lemma NotYetSent(s: State, i: nat)
    requires Shape(s) && !s.lost && InStep(s) && i < |s.path| && |s.read| < TWO_TO_64
    ensures Missing(s, i, OfferedUp(s, i))
  {
    var b := OfferedUp(s, i);
    forall l, c | 0 <= l <= i && c in s.up[l] && c.Data?
      ensures !AllNumbered(s.path, l, b, c.blob)
    {
      OfferedGrow(s, l, i);
      OfferedGrow(s, i, i);
      assert InStepAt(s, l);
      var k := InSelect(DataKind, s.up[l], c);
      var j := TakenUp(s, l) + k;
      assert c == Item(s.path, s.sid, DataKind, l, j, s.read[j]);
      hide CounterNonce, Wrap, Select;
      NoncesOfOneCounterDistinct(s.path[l].base, j, b);
    }
  }

  lemma LossBegins(z: Sizes, s: State, step: Step)
    requires Inv(z, s) && z.Valid() && Loses(z, s, step) && |s.read| < TWO_TO_64
    ensures var i := Culprit(s, step); i < |s.path| && Behind(Apply(z, s, step), i, OfferedUp(s, i), 1)
  {
    LossUses(z, s, step);
    OfferedGrow(s, 0, Culprit(s, step));
    OfferedGrow(s, Culprit(s, step), Culprit(s, step));
    assert InStepAt(s, 0);
    LossMissing(z, s, step);
    StepFrame(z, s, step);
    hide Inv, Apply, Enabled, InStepAt, Missing, Wrap;
  }

  lemma LossMissing(z: Sizes, s: State, step: Step)
    requires Inv(z, s) && z.Valid() && Loses(z, s, step) && |s.read| < TWO_TO_64
    ensures var i := Culprit(s, step); i < |s.path| && Missing(Apply(z, s, step), i, OfferedUp(s, i))
  {
    LossUses(z, s, step);
    var i, t := Culprit(s, step), Apply(z, s, step);
    NotYetSent(s, i);
    StepFrame(z, s, step);
    forall l, c | 0 <= l <= i && c in t.up[l] && c.Data?
      ensures !AllNumbered(t.path, l, OfferedUp(s, i), c.blob)
    {
      StepRises(z, s, step, l);
      NewCellMisnumbered(s, step, t, l, OfferedUp(s, i), c);
    }
  }

  /** The only DATA a losing step can put on a link is a cell turned back, and that has another key under the first layer. */
  lemma NewCellMisnumbered(s: State, step: Step, t: State, l: nat, b: nat, c: Cell)
    requires Shape(s) && Shape(t) && t.path == s.path && Enabled(s, step) && l <= Culprit(s, step) < |s.path| && DistinctKeys(s.path)
    requires step.FromAbove? || step.FromBelow? || step.ReadChunk?
    requires (Culprit(s, step) == Last(s) ==> step.ReadChunk?) && (step.FromAbove? ==> LinkOk(s, step.i))
    requires step.FromBelow? || step.ReadChunk? ==> t.up[Culprit(s, step)] == s.up[Culprit(s, step)]
    requires Rises(s, step, t, l) && c in t.up[l] && c.Data? && Missing(s, Culprit(s, step), b)
    ensures !AllNumbered(t.path, l, b, c.blob)
  {
    hide Carries, DownExact, RequestsFirst, CounterNonce, Wrap;
    if c !in s.up[l] && step.FromAbove? {
      assert s.down[l][0] in s.down[l];
      DownKey(s, l, s.down[l][0]);
      assert s.path[l].key != s.path[l + 1].key;
    }
  }

  lemma {:induction false} BehindForGood(z: Sizes, s: State, steps: seq<Step>, t: State, i: nat, b: nat, d: nat)
    requires Inv(z, s) && z.Valid() && Reaches(z, s, steps, t) && i < |s.path| && Behind(s, i, b, d)
    requires Shape(t) && |t.path| == |s.path| && DownExact(t.hist) && |t.read| < TWO_TO_64 && d + Uses(t, i) - Uses(s, i) < TWO_TO_64
    ensures |t.received| <= b
    decreases |steps|
  {
    if steps != [] {
      var s1 := Apply(z, s, steps[0]);
      RunExact(z, s, steps, t);
      RunLater(z, s, steps, t);
      StepKeeps(z, s, steps[0]);
      UsesGrow(z, s1, steps[1..], t, i);
      var d1 := StaysBehind(z, s, steps[0], i, b, d);
      hide Apply, Enabled, Inv, DownExact, Behind, Uses;
      BehindForGood(z, s1, steps[1..], t, i, b, d1);
    }
  }

  lemma {:induction false} UsesGrow(z: Sizes, s: State, steps: seq<Step>, t: State, i: nat)
    requires Shape(s) && Reaches(z, s, steps, t) && i < |s.path|
    ensures Shape(t) && |t.path| == |s.path| && Uses(s, i) <= Uses(t, i)
    decreases |steps|
  {
    if steps != [] {
      CounterMoves(z, s, steps[0], i);
      hide Apply, Enabled, Uses;
      UsesGrow(z, Apply(z, s, steps[0]), steps[1..], t, i);
    }
  }

  /** The first upward loss is final. Let a step be the first to lose DATA, at relay `i` (the exit for a chunk that does not fit),
      and `b` the number of upward chunks the relay had sent till then. Then in no continuation of the run does the client ever
      open chunk `b` or a later one, however much is still sent and read. */
  lemma LossIsFinal(z: Sizes, s: State, step: Step, steps: seq<Step>, t: State)
    requires Inv(z, s) && z.Valid() && Loses(z, s, step) && Reaches(z, Apply(z, s, step), steps, t)
    requires Shape(t) && |t.path| == |s.path| && DownExact(t.hist) && |t.read| < TWO_TO_64
    requires Culprit(s, step) < |s.path| && Uses(t, Culprit(s, step)) < TWO_TO_64
    ensures |t.received| <= OfferedUp(s, Culprit(s, step))
  {
    var s1, i := Apply(z, s, step), Culprit(s, step);
    StepKeeps(z, s, step);
    StepLater(z, s, step);
    RunLater(z, s1, steps, t);
    LossBegins(z, s, step);
    CounterMoves(z, s, step, i);
    UsedOne(z, s, step);
    UsesGrow(z, s1, steps, t, i);
    hide Apply, Enabled, Inv, DownExact, Behind, Uses;
    BehindForGood(z, s1, steps, t, i, OfferedUp(s, i), 1);
  }

  lemma UsedOne(z: Sizes, s: State, step: Step)
    requires Inv(z, s) && z.Valid() && Loses(z, s, step)
    ensures Culprit(s, step) < |s.path| && Uses(Apply(z, s, step), Culprit(s, step)) > 0
  {
    LossUses(z, s, step);
    var i := Culprit(s, step);
    CounterMoves(z, s, step, i);
    StepFrame(z, s, step);
    if step.FromAbove? || step.FromBelow? {
      LossIsData(z, s, step);
      Counted(z, s, step);
    }
    hide Apply, Inv;
  }

  lemma LossIsData(z: Sizes, s: State, step: Step)
    requires Shape(s) && Loses(z, s, step) && (step.FromAbove? || step.FromBelow?)
    ensures (if step.FromAbove? then s.down[step.i][0] else s.up[step.i + 1][0]).Data?
  {
    hide Handle;
  }

  // ---- a cell turned back ----

  /** A DATA cell that relay `i` has turned back, as relay `l` passes it up: the layer of relay `i` twice. */
  predicate TurnedBack(path: Path, l: nat, i: nat, blob: Blob)
    requires l <= i < |path|
    decreases i - l
  {
    && blob.Sealed? && blob.key == path[l].key && blob.inner.Sealed?
    && if l == i then blob.inner.key == path[i].key else TurnedBack(path, l + 1, i, blob.inner)
  }

  lemma {:induction false} NeverOpens(path: Path, ctrs: seq<uint64>, l: nat, i: nat, blob: Blob)
    requires DistinctKeys(path) && |ctrs| == |path| && l <= i && i + 1 < |path| && TurnedBack(path, l, i, blob)
    ensures OpenFrom(Keys(path), Bases(path), ctrs, l, blob).1 == None
    decreases i - l
  {
    hide CounterNonce;
    if l < i {
      NeverOpens(path, ctrs[l := Inc(ctrs[l])], l + 1, i, blob.inner);
    } else {
      assert path[i].key != path[i + 1].key;
    }
  }

  /** An upward DATA cell that holds a chunk the exit read, under a layer of every relay from `l` on. */
  ghost predicate ChunkUnder(path: Path, read: seq<Msg>, l: nat, blob: Blob)
    requires l < |path|
    decreases |path| - l
  {
    && blob.Sealed? && blob.key == path[l].key
    && if l == |path| - 1 then exists j :: 0 <= j < |read| && blob.inner == Plain(read[j]) else ChunkUnder(path, read, l + 1, blob.inner)
  }

  ghost predicate Bounced(path: Path, l: nat, blob: Blob) {
    exists i :: l <= i && i + 1 < |path| && TurnedBack(path, l, i, blob)
  }

  /** Whatever comes up is a chunk of the exit's or a cell turned back, and never both. */
  lemma {:induction false} UpwardIs(path: Path, read: seq<Msg>, l: nat, blob: Blob)
    requires DistinctKeys(path) && l < |path| && Upward(path, read, l, blob)
    ensures ChunkUnder(path, read, l, blob) <==> !Bounced(path, l, blob)
    decreases |path| - l
  {
    if l < |path| - 1 {
      assert path[l].key != path[l + 1].key;
      if Upward(path, read, l + 1, blob.inner) {
        UpwardIs(path, read, l + 1, blob.inner);
        if i :| l <= i && i + 1 < |path| && TurnedBack(path, l, i, blob) {
          assert i > l && TurnedBack(path, l + 1, i, blob.inner);
        }
        if Bounced(path, l + 1, blob.inner) {
          var next, inner := l + 1, blob.inner;
          var i :| next <= i && i + 1 < |path| && TurnedBack(path, next, i, inner);
          assert TurnedBack(path, l, i, blob);
        }
      } else {
        assert TurnedBack(path, l, l, blob);
      }
    }
  }

  /** In every run a DATA cell from above that does not open at a middle relay goes back up, sealed again, if it fits, and is
      then a cell turned back there; that happens exactly if it is overtaken. */
  lemma TurnsBack(z: Sizes, path: Path, sid: uint16, steps: seq<Step>, s: State, i: nat, dialOk: bool)
    requires Run(z, path, sid, steps, s) && Handles(s, i) && i < Last(s) && s.down[i][0].Data?
    ensures DownExact(s.hist) ==> (Overtaken(s, FromAbove(i, dialOk)) <==> !Opens(s.hops[i], s.down[i][0]))
    ensures var h, c := s.hops[i], s.down[i][0];
      var back := Data(s.sid, AESSeal(h.key, CounterNonce(h.base, h.up), c.blob));
      !Opens(h, c) ==>
        && TurnedBack(s.path, i, i, back.blob)
        && Apply(z, s, FromAbove(i, dialOk)).up[i] == s.up[i] + SendIf(z, true, back)
        && Apply(z, s, FromAbove(i, dialOk)).down[i + 1] == s.down[i + 1]
  {
    RunInv(z, path, sid, steps, s);
    assert Apply(z, s, FromAbove(i, dialOk)) == HandleAbove(z, s, i, dialOk);
    hide Apply, HandleAbove, Reaches, DownOk, ExitOk, UpOk, InStep, TornOk, DownExact, TurnedBack, Overtaken, Opens, SendIf;
    SentBack(z, s, i, dialOk);
    hide Inv;
  }

  lemma SentBack(z: Sizes, s: State, i: nat, dialOk: bool)
    requires Shape(s) && z.Valid() && DownOk(z, s) && Handles(s, i) && i < Last(s) && s.down[i][0].Data?
    ensures DownExact(s.hist) ==> (Overtaken(s, FromAbove(i, dialOk)) <==> !Opens(s.hops[i], s.down[i][0]))
    ensures var h, c := s.hops[i], s.down[i][0];
      var back := Data(s.sid, AESSeal(h.key, CounterNonce(h.base, h.up), c.blob));
      !Opens(h, c) ==>
        && TurnedBack(s.path, i, i, back.blob)
        && HandleAbove(z, s, i, dialOk).up[i] == s.up[i] + SendIf(z, true, back)
        && HandleAbove(z, s, i, dialOk).down[i + 1] == s.down[i + 1]
  {
    hide DownExact, Handle, CounterNonce, ClientOk, LinkOk, SendIf;
    var _ := NextData(z, s, i);
    var _ := MiddleData(z, s, i, dialOk);
    assert HopOk(s, i);
    assert s.down[i + 1] + [] == s.down[i + 1];
  }

  /** The relays above pass it up as what it is. */
  lemma PassedUpAsIs(z: Sizes, path: Path, sid: uint16, steps: seq<Step>, s: State, i: nat, dialOk: bool)
    requires Run(z, path, sid, steps, s) && Enabled(s, FromBelow(i, dialOk)) && s.up[i + 1][0].Data?
    ensures var h, c := s.hops[i], s.up[i + 1][0];
      var more := Data(s.sid, AESSeal(h.key, CounterNonce(h.base, h.up), c.blob));
      && Apply(z, s, FromBelow(i, dialOk)).up[i] == s.up[i] + SendIf(z, true, more)
      && (forall j :: i < j < |s.path| ==> TurnedBack(s.path, i, j, more.blob) == TurnedBack(s.path, i + 1, j, c.blob))
  {
    RunInv(z, path, sid, steps, s);
    hide Reaches, DownOk, ExitOk, InStep, TornOk, UpOk, DownExact;
    SentUp(z, s, i, dialOk);
    hide Inv, Apply;
  }

  lemma SentUp(z: Sizes, s: State, i: nat, dialOk: bool)
    requires Shape(s) && DistinctKeys(s.path) && DownOk(z, s) && UpOk(s) && Relays(s, i) && s.up[i + 1][0].Data?
    ensures var h, c := s.hops[i], s.up[i + 1][0];
      var more := Data(s.sid, AESSeal(h.key, CounterNonce(h.base, h.up), c.blob));
      && HandleBelow(z, s, i, dialOk).up[i] == s.up[i] + SendIf(z, true, more)
      && (forall j :: i < j < |s.path| ==> TurnedBack(s.path, i, j, more.blob) == TurnedBack(s.path, i + 1, j, c.blob))
  {
    assert s.up[i + 1][0] in s.up[i + 1] && HopOk(s, i);
    assert UpCell(s, i + 1, s.up[i + 1][0]);
    NeverOpensFromBelow(z, s, i, dialOk);
    BelowUps(z, s, i, dialOk, i);
    hide DownOk, UpOk, HandleBelow, CounterNonce, SendIf;
  }

  /** When a cell turned back reaches the client, whatever its counters are, it does not open, and the receiving loop ends. */
  lemma BouncedEndsReceiving(z: Sizes, s: State)
    requires Inv(z, s) && Enabled(s, Receive) && s.up[0][0].Data? && Bounced(s.path, 0, s.up[0][0].blob)
    ensures var t := Apply(z, s, Receive); !t.listening && t.received == s.received
  {
    assert ClientOk(z, s);
    hide DownOk, ExitOk, UpOk, InStep, TornOk, OpenFrom;
    var i :| 0 <= i && i + 1 < |s.path| && TurnedBack(s.path, 0, i, s.up[0][0].blob);
    NeverOpens(s.path, s.client.up, 0, i, s.up[0][0].blob);
  }

  /** In every run the DATA cell at the front of the client's link is either a chunk the exit read, under a layer of every
      relay, or a cell some relay has turned back; and the latter ends the receiving loop and gives the client nothing. */
  lemma TurnedBackEndsReceiving(z: Sizes, path: Path, sid: uint16, steps: seq<Step>, s: State)
    requires Run(z, path, sid, steps, s) && DownExact(s.hist) && Enabled(s, Receive) && s.up[0][0].Data?
    ensures var blob, t := s.up[0][0].blob, Apply(z, s, Receive);
      && (ChunkUnder(s.path, s.read, 0, blob) <==> !Bounced(s.path, 0, blob))
      && (Bounced(s.path, 0, blob) ==> !t.listening && t.received == s.received)
  {
    RunInv(z, path, sid, steps, s);
    hide Reaches, DownOk, ExitOk, InStep, TornOk, DownExact, Take;
    assert s.up[0][0] in s.up[0];
    UpwardIs(s.path, s.read, 0, s.up[0][0].blob);
    if Bounced(s.path, 0, s.up[0][0].blob) {
      BouncedEndsReceiving(z, s);
    }
  }
}

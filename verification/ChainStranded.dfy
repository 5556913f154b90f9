/** DATA that nobody will ever read: on a link whose reader has dropped the circuit, or has stopped listening. The program
    throws such a cell away; in a run it stays on the link. */
module ChainStranded {
  import opened MachineInts
  import opened Nonces
  import opened Wrappers
  import opened Onion
  import opened RelaySpec
  import opened ClientSpec
  import opened Chain
  import opened ChainFrames
  import opened ChainInvariant

  ghost predicate HasData(q: seq<Cell>) {
    exists c :: c in q && c.Data?
  }

  /** DATA for a relay that no longer holds the circuit. */
  ghost predicate StrandedAt(s: State, i: nat)
    requires Shape(s) && i < |s.path|
  {
    !s.hops[i].alive && HasData(s.down[i])
  }

  /** Nobody reads the link up from relay `i` any more. */
  predicate NoReader(s: State, i: nat)
    requires Shape(s) && i < |s.path|
  {
    if i == 0 then !s.listening else !s.hops[i - 1].alive
  }

  /** DATA from relay `i` for a relay that no longer holds the circuit, or for a client that no longer listens. */
  ghost predicate UpStrandedAt(s: State, i: nat)
    requires Shape(s) && i < |s.path|
  {
    NoReader(s, i) && HasData(s.up[i])
  }

  ghost predicate Stranded(s: State)
    requires Shape(s)
  {
    exists i :: 0 <= i < |s.path| && (StrandedAt(s, i) || UpStrandedAt(s, i))
  }

  // ---- the steps that strand DATA ----

  /** Relay `i` drops the circuit: it handles END for stream 0 or DESTROY, or the sweep comes. */
  predicate Leaves(s: State, step: Step, i: nat)
    requires Shape(s) && Enabled(s, step)
  {
    match step
    case FromAbove(j, _) => j == i && IsKill(s.down[i][0])
    case FromBelow(j, _) => j == i && IsKill(s.up[i + 1][0])
    case Expire(j) => j == i
    case _ => false
  }

  /** The client's receiving loop ends: with its link, or on END 0, DESTROY, a malformed cell, or DATA that does not open. */
  predicate HangsUp(s: State, step: Step)
    requires Shape(s) && Enabled(s, step)
  {
    match step
    case LinkEnds => true
    case Receive =>
      IsKill(s.up[0][0]) || s.up[0][0].Malformed? || (s.up[0][0].Data? && Decrypt(s.client, s.up[0][0].blob).1 == None)
    case _ => false
  }

  /** The reader of the link up from relay `i` goes. */
  predicate ReaderGoes(s: State, step: Step, i: nat)
    requires Shape(s) && Enabled(s, step) && i < |s.path|
  {
    if i == 0 then HangsUp(s, step) else Leaves(s, step, i - 1)
  }

  /** What is on a link besides the cell a step takes off it. */
  function WaitingDown(s: State, step: Step, i: nat): seq<Cell>
    requires Shape(s) && Enabled(s, step) && i < |s.path|
  {
    if step.FromAbove? && step.i == i then s.down[i][1..] else s.down[i]
  }

  function WaitingUp(s: State, step: Step, i: nat): seq<Cell>
    requires Shape(s) && Enabled(s, step) && i < |s.path|
  {
    if (step.FromBelow? && step.i + 1 == i) || (step.Receive? && i == 0) then s.up[i][1..] else s.up[i]
  }

  /** The cells, where they may be DATA, that a step puts on the link to relay `i`, and on the link up from it. */
  function PutDown(z: Sizes, s: State, step: Step, i: nat): seq<Cell>
    requires Shape(s) && Enabled(s, step) && i < |s.path|
  {
    match step
    case SendChunk(bytes) =>
      var c := SendData(z, s.client, s.sid, Raw(bytes)).cell;
      if i == 0 && c.Some? then [c.value] else []
    case FromAbove(j, dialOk) => if j + 1 == i then ReplyAbove(z, s, j, dialOk).down else []
    case FromBelow(j, dialOk) => if j + 1 == i then ReplyBelow(z, s, j, dialOk).down else []
    case _ => []
  }

  function PutUp(z: Sizes, s: State, step: Step, i: nat): seq<Cell>
    requires Shape(s) && Enabled(s, step) && i < |s.path|
  {
    match step
    case FromAbove(j, dialOk) => if j == i then ReplyAbove(z, s, j, dialOk).up else []
    case FromBelow(j, dialOk) => if j == i then ReplyBelow(z, s, j, dialOk).up else []
    case ReadChunk(bytes) => if i == Last(s) then SendIf(z, true, UpwardCell(s.hops[i], s.sid, Raw(bytes))) else []
    case _ => []
  }

  /** DATA is put on the link to a relay that has dropped the circuit, or a relay drops it with DATA waiting. */
  ghost predicate StrandsAt(z: Sizes, s: State, step: Step, i: nat)
    requires Shape(s) && Enabled(s, step) && i < |s.path|
  {
    || (!s.hops[i].alive && HasData(PutDown(z, s, step, i)))
    || (s.hops[i].alive && Leaves(s, step, i) && HasData(WaitingDown(s, step, i)))
  }

  /** The same on the way up, where the last reader is the client. */
  ghost predicate UpStrandsAt(z: Sizes, s: State, step: Step, i: nat)
    requires Shape(s) && Enabled(s, step) && i < |s.path|
  {
    || (NoReader(s, i) && HasData(PutUp(z, s, step, i)))
    || (!NoReader(s, i) && ReaderGoes(s, step, i) && HasData(WaitingUp(s, step, i)))
  }

  ghost predicate Strands(z: Sizes, s: State, step: Step)
    requires Shape(s) && Enabled(s, step)
  {
    exists i :: 0 <= i < |s.path| && (StrandsAt(z, s, step, i) || UpStrandsAt(z, s, step, i))
  }

  ghost predicate NeverStrands(z: Sizes, s: State, steps: seq<Step>)
    requires Shape(s)
    decreases |steps|
  {
    steps != [] && Enabled(s, steps[0]) ==> !Strands(z, s, steps[0]) && NeverStrands(z, Apply(z, s, steps[0]), steps[1..])
  }

  // ---- one step ----

  lemma DataIn(a: seq<Cell>, b: seq<Cell>)
    ensures HasData(a + b) <==> HasData(a) || HasData(b)
  {
    assert forall c :: c in a + b <==> c in a || c in b;
  }

  /** Who holds the circuit after a step. */
  lemma AliveAfter(z: Sizes, s: State, step: Step, i: nat)
    requires Shape(s) && Enabled(s, step) && i < |s.path|
    ensures Apply(z, s, step).hops[i].alive <==> s.hops[i].alive && !Leaves(s, step, i)
  {
    if step.ReadChunk? || step.ReadEnd? {
      FarAlive(z, s, step, i);
    } else if step.Expire? {
      ExpiryAlive(z, s, step, i);
    } else {
      OtherAlive(z, s, step, i);
    }
    hide Apply;
  }

  lemma OtherAlive(z: Sizes, s: State, step: Step, i: nat)
    requires Shape(s) && Enabled(s, step) && i < |s.path| && !step.ReadChunk? && !step.ReadEnd? && !step.Expire?
    ensures Apply(z, s, step).hops[i].alive <==> s.hops[i].alive && !Leaves(s, step, i)
  {
    hide Apply, Handle;
    RelayFrame(z, s, step, i);
    if step.FromAbove? && step.i == i {
      HandleAlive(z, s.hops[i], s.down[i][0], EnvOf(s, i, step.dialOk));
    } else if step.FromBelow? && step.i == i {
      HandleAlive(z, s.hops[i], s.up[i + 1][0], EnvOf(s, i, step.dialOk));
    }
  }

  lemma ExpiryAlive(z: Sizes, s: State, step: Step, i: nat)
    requires Shape(s) && Enabled(s, step) && i < |s.path| && step.Expire?
    ensures Apply(z, s, step).hops[i].alive <==> s.hops[i].alive && step.i != i
  {
  }

  /** Whether the client listens after a step. */
  lemma ListensAfter(z: Sizes, s: State, step: Step)
    requires Shape(s) && Enabled(s, step)
    ensures Apply(z, s, step).listening <==> s.listening && !HangsUp(s, step)
  {
    StepFrame(z, s, step);
    if step.Receive? {
      hide Decrypt;
    } else if !step.LinkEnds? {
      hide Apply;
    }
  }

  lemma FarAlive(z: Sizes, s: State, step: Step, i: nat)
    requires Shape(s) && Enabled(s, step) && i < |s.path| && (step.ReadChunk? || step.ReadEnd?)
    ensures Apply(z, s, step).hops[i].alive == s.hops[i].alive
  {
    hide SendIf, UpwardCell;
  }

  /** The DATA on a link downwards after a step. */
  lemma DownAfter(z: Sizes, s: State, step: Step, i: nat)
    requires Shape(s) && Enabled(s, step) && i < |s.path|
    ensures HasData(Apply(z, s, step).down[i]) <==> HasData(WaitingDown(s, step, i)) || HasData(PutDown(z, s, step, i))
  {
    if ByClient(step) {
      ClientDown(z, s, step, i);
    } else if ByRelay(step) {
      RelayDown(z, s, step, i);
    } else {
      FarDown(z, s, step);
    }
    hide Apply, PutDown;
    DataIn(WaitingDown(s, step, i), PutDown(z, s, step, i));
  }

  lemma ClientDown(z: Sizes, s: State, step: Step, i: nat)
    requires Shape(s) && Enabled(s, step) && i < |s.path| && ByClient(step)
    ensures HasData(Apply(z, s, step).down[i]) <==> HasData(WaitingDown(s, step, i) + PutDown(z, s, step, i))
  {
    hide Ask, Chunk, Take, SendIf, SendData, SendRequest;
    if step.AskConnect? {
      AskDown(z, s, ConnectMsg(step.target), Connected, i);
    } else if step.AskBegin? {
      AskDown(z, s, BeginDto(s.sid, step.target), Streaming, i);
    } else if step.SendChunk? {
      ChunkIs(z, s, Raw(step.bytes));
    } else if step.CloseStream? {
      CloseDown(z, s, step.last, i);
    } else if step.Receive? {
      TakeFrame(s);
    }
    assert s.down[i] + [] == s.down[i];
  }

  lemma AskDown(z: Sizes, s: State, m: Msg, next: Phase, i: nat)
    requires Shape(s) && i < |s.path|
    ensures HasData(Ask(z, s, m, next).down[i]) <==> HasData(s.down[i])
  {
    AskIs(z, s, m, next);
    var o := SendRequest(z, s.client, m).cell;
    if o.Some? {
      DataIn(s.down[0], [o.value]);
      assert !o.value.Data? by {
        hide SealLayers, NoncesAt;
      }
    }
    hide Ask, SendRequest;
  }

  lemma CloseDown(z: Sizes, s: State, last: bool, i: nat)
    requires Shape(s) && Enabled(s, CloseStream(last)) && i < |s.path|
    ensures HasData(Apply(z, s, CloseStream(last)).down[i]) <==> HasData(s.down[i])
  {
    var control := if last then SendIf(z, true, End(0)) else [];
    var ends := SendIf(z, true, End(s.sid)) + control;
    assert forall c :: c in ends ==> !c.Data?;
    DataIn(s.down[0], ends);
    assert s.down[0] + SendIf(z, true, End(s.sid)) + control == s.down[0] + ends;
    hide SendIf, HasData;
  }

  lemma RelayDown(z: Sizes, s: State, step: Step, i: nat)
    requires Shape(s) && Enabled(s, step) && i < |s.path| && ByRelay(step)
    ensures Apply(z, s, step).down[i] == WaitingDown(s, step, i) + PutDown(z, s, step, i)
  {
    hide Handle, Opens;
    assert s.down[i] + [] == s.down[i];
  }

  lemma FarDown(z: Sizes, s: State, step: Step)
    requires Shape(s) && Enabled(s, step) && !ByClient(step) && !ByRelay(step)
    ensures Apply(z, s, step).down == s.down
    ensures forall i :: 0 <= i < |s.path| ==> WaitingDown(s, step, i) + PutDown(z, s, step, i) == s.down[i]
  {
    hide SendIf, UpwardCell;
  }

  /** The DATA on a link upwards after a step. */
  lemma UpAfter(z: Sizes, s: State, step: Step, i: nat)
    requires Shape(s) && Enabled(s, step) && i < |s.path|
    ensures HasData(Apply(z, s, step).up[i]) <==> HasData(WaitingUp(s, step, i)) || HasData(PutUp(z, s, step, i))
  {
    if ByClient(step) {
      ClientUp(z, s, step, i);
    } else if ByRelay(step) {
      RelayUp(z, s, step, i);
    } else {
      FarUp(z, s, step, i);
    }
    hide Apply, PutUp;
    DataIn(WaitingUp(s, step, i), PutUp(z, s, step, i));
  }

  lemma ClientUp(z: Sizes, s: State, step: Step, i: nat)
    requires Shape(s) && Enabled(s, step) && i < |s.path| && ByClient(step)
    ensures Apply(z, s, step).up[i] == WaitingUp(s, step, i) + PutUp(z, s, step, i)
  {
    hide Ask, Chunk, Take, SendIf;
    if step.AskConnect? {
      AskFrame(z, s, ConnectMsg(step.target), Connected);
    } else if step.AskBegin? {
      AskFrame(z, s, BeginDto(s.sid, step.target), Streaming);
    } else if step.SendChunk? {
      ChunkFrame(z, s, Raw(step.bytes));
    } else if step.Receive? {
      TakeFrame(s);
    }
  }

  lemma RelayUp(z: Sizes, s: State, step: Step, i: nat)
    requires Shape(s) && Enabled(s, step) && i < |s.path| && ByRelay(step)
    ensures Apply(z, s, step).up[i] == WaitingUp(s, step, i) + PutUp(z, s, step, i)
  {
    if step.FromAbove? {
      AboveUps(z, s, step.i, step.dialOk, i);
      hide HandleAbove, ReplyAbove;
    } else if step.FromBelow? {
      BelowUps(z, s, step.i, step.dialOk, i);
      hide HandleBelow, ReplyBelow;
    }
  }

  lemma FarUp(z: Sizes, s: State, step: Step, i: nat)
    requires Shape(s) && Enabled(s, step) && i < |s.path| && !ByClient(step) && !ByRelay(step)
    ensures HasData(Apply(z, s, step).up[i]) <==> HasData(WaitingUp(s, step, i) + PutUp(z, s, step, i))
  {
    var ends := SendIf(z, true, End(s.sid));
    assert forall c :: c in ends ==> !c.Data?;
    DataIn(s.up[i], ends);
    hide SendIf, UpwardCell;
    assert s.up[i] + [] == s.up[i];
  }

  /** A step strands DATA on a link exactly if it puts it there with no reader, or the reader goes with DATA waiting; and what
      is stranded stays so. */
  lemma StrandedAfter(z: Sizes, s: State, step: Step, i: nat)
    requires Shape(s) && Enabled(s, step) && i < |s.path|
    ensures StrandedAt(Apply(z, s, step), i) <==> StrandedAt(s, i) || StrandsAt(z, s, step, i)
  {
    AliveAfter(z, s, step, i);
    DownAfter(z, s, step, i);
    hide Apply, ReplyAbove, ReplyBelow, HasData, SendData;
  }

  lemma UpStrandedAfter(z: Sizes, s: State, step: Step, i: nat)
    requires Shape(s) && Enabled(s, step) && i < |s.path|
    ensures UpStrandedAt(Apply(z, s, step), i) <==> UpStrandedAt(s, i) || UpStrandsAt(z, s, step, i)
  {
    UpAfter(z, s, step, i);
    NothingPutForLeaver(z, s, step, i);
    ReaderAfter(z, s, step, i);
    hide Apply, PutUp, WaitingUp, HasData, NoReader, ReaderGoes;
    assert !HasData([]) by {
      NoDataInNothing();
    }
  }

  lemma NoDataInNothing()
    ensures !HasData([])
  {
  }

  lemma ReaderAfter(z: Sizes, s: State, step: Step, i: nat)
    requires Shape(s) && Enabled(s, step) && i < |s.path|
    ensures NoReader(Apply(z, s, step), i) <==> NoReader(s, i) || ReaderGoes(s, step, i)
  {
    hide Apply, HangsUp, Leaves, Enabled;
    if i == 0 {
      ListensAfter(z, s, step);
    } else {
      AliveAfter(z, s, step, i - 1);
    }
  }

  /** The step in which a reader goes puts nothing on its link, and takes nothing off a link without reader. */
  lemma NothingPutForLeaver(z: Sizes, s: State, step: Step, i: nat)
    requires Shape(s) && Enabled(s, step) && i < |s.path|
    ensures ReaderGoes(s, step, i) ==> PutUp(z, s, step, i) == []
    ensures NoReader(s, i) ==> WaitingUp(s, step, i) == s.up[i]
  {
    hide Decrypt, ReplyAbove, ReplyBelow;
  }

  lemma StrandedNext(z: Sizes, s: State, step: Step)
    requires Shape(s) && Enabled(s, step)
    ensures Stranded(Apply(z, s, step)) <==> Stranded(s) || Strands(z, s, step)
  {
    forall i | 0 <= i < |s.path|
      ensures StrandedAt(Apply(z, s, step), i) <==> StrandedAt(s, i) || StrandsAt(z, s, step, i)
      ensures UpStrandedAt(Apply(z, s, step), i) <==> UpStrandedAt(s, i) || UpStrandsAt(z, s, step, i)
    {
      StrandedAfter(z, s, step, i);
      UpStrandedAfter(z, s, step, i);
    }
    hide Apply, Enabled, StrandedAt, UpStrandedAt, StrandsAt, UpStrandsAt;
  }

  // ---- runs ----

  /** A run strands DATA exactly if one of its steps does. */
  lemma {:induction false} StrandedExactly(z: Sizes, s: State, steps: seq<Step>, t: State)
    requires Shape(s) && Reaches(z, s, steps, t)
    ensures Shape(t) && (Stranded(t) <==> Stranded(s) || !NeverStrands(z, s, steps))
    decreases |steps|
  {
    if steps != [] {
      StrandedNext(z, s, steps[0]);
      hide Apply, Enabled, Stranded, Strands;
      StrandedExactly(z, Apply(z, s, steps[0]), steps[1..], t);
    }
  }

  /** What is stranded is stranded for good. */
  lemma {:induction false} StrandedForGood(z: Sizes, s: State, steps: seq<Step>, t: State, i: nat)
    requires Shape(s) && Reaches(z, s, steps, t) && i < |s.path|
    ensures Shape(t) && |t.path| == |s.path|
    ensures StrandedAt(s, i) ==> StrandedAt(t, i)
    ensures UpStrandedAt(s, i) ==> UpStrandedAt(t, i)
    decreases |steps|
  {
    if steps != [] {
      StrandedAfter(z, s, steps[0], i);
      UpStrandedAfter(z, s, steps[0], i);
      hide Apply, Enabled, StrandedAt, UpStrandedAt, StrandsAt, UpStrandsAt;
      StrandedForGood(z, Apply(z, s, steps[0]), steps[1..], t, i);
    }
  }
}

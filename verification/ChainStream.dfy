/** The stream behind the exit: BEGIN opens it and starts its upward loop, END closes it along the whole chain. */
module ChainStream {
  import opened MachineInts
  import opened Nonces
  import opened Wrappers
  import opened Onion
  import opened RelaySpec
  import opened ClientSpec
  import opened Chain
  import opened ChainLinks
  import opened ChainInvariant
  import opened ChainAbove
  import opened ChainBelow
  import opened ChainFrames
  import opened ChainRuns
  import opened ChainTheorems
  import opened ChainTeardown

  // ---- the upward loop ----

  /** BEGIN at the exit: its layer opens, whatever DATA has gone by, and what is under it names the client's stream. A hidden exit
      has its service already; a plain one dials. Where that works the loop is started and the acknowledgement goes up, otherwise
      a DESTROY. */
  lemma BeginAtExit(z: Sizes, s: State, dialOk: bool)
    requires Inv(z, s) && z.Valid() && Handles(s, Last(s)) && s.down[Last(s)][0].Begin?
    ensures var h := s.hops[Last(s)]; var moved := h.(begin := Inc(h.begin));
      ReplyAbove(z, s, Last(s), dialOk) ==
        if h.hidden then Reply(moved, [BeginAck], [], None, Some(s.sid), true)
        else if dialOk then Reply(moved.(streams := h.streams + {s.sid}), [BeginAck], [], None, Some(s.sid), true)
        else Reply(moved, [Destroy], [], None, None, false)
  {
    hide LinkOk, UpOk, InStep, TornOk, ExitOk, DownExact, Carries;
    NextRequest(z, s, Last(s));
    assert HopOk(s, Last(s)) && ClientOk(z, s);
    var j := s.hist[Last(s)].requests;
    assert s.requested[j].BeginDto? && s.requested[j].sid == s.sid;
    assert Layers(s.path, |s.path|, j, s.requested[j]) == Plain(s.requested[j]);
    hide CounterNonce, HopOk;
  }

  /** A step that starts the exit's upward loop: BEGIN comes to a hidden exit, or to a plain one whose dial succeeds. */
  predicate StartsLoop(s: State, step: Step)
    requires Shape(s) && Enabled(s, step)
  {
    step.FromAbove? && step.i == Last(s) && s.down[Last(s)][0].Begin? && (s.hops[Last(s)].hidden || step.dialOk)
  }

  lemma LoopingAbove(z: Sizes, s: State, i: nat, dialOk: bool)
    requires Inv(z, s) && z.Valid() && Handles(s, i)
    ensures HandleAbove(z, s, i, dialOk).looping
      <==> s.looping || (i == Last(s) && s.down[i][0].Begin? && (s.hops[i].hidden || dialOk))
  {
    LoopingIs(z, s, i, dialOk);
    var c, h := s.down[i][0], s.hops[i];
    assert HopOk(s, i);
    hide HandleAbove, Handle, HopOk, LinkOk, UpOk, InStep, TornOk, ExitOk, DownExact, ClientOk;
    if c.Begin? && i == Last(s) {
      BeginAtExit(z, s, dialOk);
    } else if IsRequest(c) && i < Last(s) {
      MiddleRequest(z, s, i, dialOk);
    } else {
      hide Inv;
      LoopOnlyByBegin(z, h, c, EnvOf(s, i, dialOk));
    }
  }

  lemma LoopingIs(z: Sizes, s: State, i: nat, dialOk: bool)
    requires Shape(s) && i < |s.path| && s.down[i] != []
    ensures HandleAbove(z, s, i, dialOk).looping == (s.looping || ReplyAbove(z, s, i, dialOk).loop.Some?)
  {
    hide Handle, Opens;
  }

  lemma LoopOnlyByBegin(z: Sizes, h: Hop, c: Cell, env: Env)
    requires !c.Begin?
    ensures Handle(z, h, c, env).loop == None
  {
    hide CounterNonce;
  }

  lemma LoopingAfter(z: Sizes, s: State, step: Step)
    requires Inv(z, s) && z.Valid() && Enabled(s, step)
    ensures Apply(z, s, step).looping <==> (s.looping && !step.ReadEnd?) || StartsLoop(s, step)
  {
    assert Shape(s);
    if step.FromAbove? {
      LoopingAbove(z, s, step.i, step.dialOk);
    } else if step.FromBelow? {
      BelowReply(z, s, step.i, step.dialOk);
      hide Handle, ReplyBelow, Inv;
    } else if ByClient(step) {
      ClientLooping(z, s, step);
    } else {
      hide SendIf, UpwardCell, Inv;
    }
    hide HandleAbove, Inv;
  }

  lemma ClientLooping(z: Sizes, s: State, step: Step)
    requires Shape(s) && Enabled(s, step) && ByClient(step)
    ensures Apply(z, s, step).looping == s.looping
  {
    hide Ask, Chunk, Take, SendIf;
    if step.AskConnect? {
      AskFrame(z, s, ConnectMsg(step.target), Connected);
    } else if step.AskBegin? {
      AskFrame(z, s, BeginDto(s.sid, step.target), Streaming);
    } else if step.SendChunk? {
      ChunkFrame(z, s, Raw(step.bytes));
    } else if step.Receive? {
      TakeFrame(s);
    }
  }

  predicate NoReadEnd(steps: seq<Step>) {
    forall k :: 0 <= k < |steps| ==> !steps[k].ReadEnd?
  }

  /** Some step of the run starts the loop, and the local connection is not read to its end after that. */
  ghost predicate LoopBegun(z: Sizes, s: State, steps: seq<Step>, t: State)
    requires Shape(s) && Reaches(z, s, steps, t)
    decreases |steps|
  {
    steps != [] &&
    ((StartsLoop(s, steps[0]) && NoReadEnd(steps[1..])) || LoopBegun(z, Apply(z, s, steps[0]), steps[1..], t))
  }

  lemma {:induction false} LoopingFrom(z: Sizes, s: State, steps: seq<Step>, t: State)
    requires Inv(z, s) && z.Valid() && Reaches(z, s, steps, t)
    ensures t.looping <==> (s.looping && NoReadEnd(steps)) || LoopBegun(z, s, steps, t)
    decreases |steps|
  {
    if steps != [] {
      StepKeeps(z, s, steps[0]);
      LoopingAfter(z, s, steps[0]);
      assert NoReadEnd(steps) <==> !steps[0].ReadEnd? && NoReadEnd(steps[1..]) by {
        assert forall k :: 1 <= k < |steps| ==> steps[k] == steps[1..][k - 1];
      }
      hide Apply, Enabled, Inv, NoReadEnd, StartsLoop;
      LoopingFrom(z, Apply(z, s, steps[0]), steps[1..], t);
    }
  }

  /** In every run the exit's upward loop runs exactly if a BEGIN has come to a hidden exit, or to a plain one whose dial
      succeeded, and the local connection has not been read to its end since. */
  lemma LoopRunsExactly(z: Sizes, path: Path, sid: uint16, steps: seq<Step>, t: State)
    requires Run(z, path, sid, steps, t)
    ensures t.looping <==> LoopBegun(z, Fresh(path, sid), steps, t)
  {
    FreshInv(z, path, sid);
    LoopingFrom(z, Fresh(path, sid), steps, t);
    hide Inv, LoopBegun, Reaches;
  }

  // ---- END for the stream ----

  predicate NoBegin(q: seq<Cell>) {
    forall k :: 0 <= k < |q| ==> !q[k].Begin?
  }

  /** END for the stream is on the link, and no BEGIN behind it. */
  ghost predicate Carried(q: seq<Cell>, sid: uint16) {
    exists k :: 0 <= k < |q| && q[k] == End(sid) && NoBegin(q[k + 1..])
  }

  /** END for the stream has been handled by the first `p` relays, and by no other: it is on the link to relay `p`, or has been
      handled by the exit, which has closed the stream. No BEGIN is above it. */
  ghost predicate EndAt(s: State, p: nat)
    requires Shape(s)
  {
    && p <= |s.path| && s.phase == Closed
    && (forall q :: 0 <= q < |s.path| && q < p ==> NoBegin(s.down[q]))
    && (if p < |s.path| then Carried(s.down[p], s.sid) else s.sid !in s.hops[Last(s)].streams)
  }

  /** No relay but the exit has a stream of the circuit. */
  ghost predicate OnlyExit(s: State)
    requires Shape(s)
  {
    forall i :: 0 <= i < Last(s) ==> s.hops[i].streams == {}
  }

  lemma NoBeginSplit(a: seq<Cell>, b: seq<Cell>)
    ensures NoBegin(a + b) <==> NoBegin(a) && NoBegin(b)
  {
    if NoBegin(a + b) {
      assert forall k :: 0 <= k < |a| ==> (a + b)[k] == a[k];
      assert forall k :: 0 <= k < |b| ==> (a + b)[|a| + k] == b[k];
    }
  }

  lemma CarriedPush(q: seq<Cell>, more: seq<Cell>, sid: uint16)
    requires Carried(q, sid) && NoBegin(more)
    ensures Carried(q + more, sid)
  {
    var k :| 0 <= k < |q| && q[k] == End(sid) && NoBegin(q[k + 1..]);
    assert (q + more)[k] == End(sid) && (q + more)[k + 1..] == q[k + 1..] + more;
    NoBeginSplit(q[k + 1..], more);
  }

  lemma CarriedLast(q: seq<Cell>, sid: uint16)
    ensures Carried(q + [End(sid)], sid)
  {
    assert (q + [End(sid)])[|q|] == End(sid) && (q + [End(sid)])[|q| + 1..] == [];
  }

  /** Taking a cell off the link leaves END on it, or that cell was END and no BEGIN is left. */
  lemma CarriedPop(q: seq<Cell>, sid: uint16)
    requires Carried(q, sid)
    ensures q != [] && (Carried(q[1..], sid) || (q[0] == End(sid) && NoBegin(q[1..])))
  {
    var k :| 0 <= k < |q| && q[k] == End(sid) && NoBegin(q[k + 1..]);
    if k > 0 {
      assert q[1..][k - 1] == q[k] && q[1..][k..] == q[k + 1..];
    }
  }

  /** A cell that is no BEGIN gives rise to none, and opens no stream. */
  lemma BegetsNoBegin(z: Sizes, h: Hop, c: Cell, env: Env)
    requires !c.Begin?
    ensures var r := Handle(z, h, c, env); NoBegin(r.down) && r.hop.streams <= h.streams
  {
    hide CounterNonce;
  }

  /** END for one stream, wherever the circuit is known: the stream is closed, and a relay with another below it passes the very
      cell on. */
  lemma EndPassesDown(z: Sizes, h: Hop, sid: uint16, env: Env)
    requires z.Valid() && h.alive && sid != 0
    ensures var r := Handle(z, h, End(sid), env);
      r.hop.alive && sid !in r.hop.streams && (h.hasDown && env.downOpen ==> r.down == [End(sid)])
  {
  }

  /** The downward links and the streams after relay `i` has handled a cell from above. */
  lemma DownsAbove(z: Sizes, s: State, i: nat, dialOk: bool)
    requires Shape(s) && i < |s.path| && s.down[i] != []
    ensures var t, r := HandleAbove(z, s, i, dialOk), ReplyAbove(z, s, i, dialOk);
      && t.path == s.path && t.sid == s.sid && t.phase == s.phase && t.hops == s.hops[i := r.hop] && t.down[i] == s.down[i][1..]
      && forall q :: 0 <= q < |s.path| && q != i ==> t.down[q] == if q == i + 1 then s.down[q] + r.down else s.down[q]
  {
    hide Handle, Opens;
  }

  lemma DownsBelow(z: Sizes, s: State, i: nat, dialOk: bool)
    requires Shape(s) && i + 1 < |s.path| && s.up[i + 1] != []
    ensures var t, r := HandleBelow(z, s, i, dialOk), ReplyBelow(z, s, i, dialOk);
      && t.path == s.path && t.sid == s.sid && t.phase == s.phase && t.hops == s.hops[i := r.hop]
      && forall q :: 0 <= q < |s.path| ==> t.down[q] == if q == i + 1 then s.down[q] + r.down else s.down[q]
  {
    hide Handle;
  }

  /** The exit handles a cell of a link without BEGIN: no stream is opened. Any other relay hands down no BEGIN. */
  lemma EndAtAbove(z: Sizes, s: State, i: nat, dialOk: bool, p: nat) returns (p': nat)
    requires Inv(z, s) && z.Valid() && Handles(s, i) && EndAt(s, p)
    ensures EndAt(HandleAbove(z, s, i, dialOk), p')
  {
    DownsAbove(z, s, i, dialOk);
    var t, r, c := HandleAbove(z, s, i, dialOk), ReplyAbove(z, s, i, dialOk), s.down[i][0];
    assert HopOk(s, i) && s.sid != 0;
    hide Inv, HandleAbove, Carried, Handle;
    p' := p;
    if i < p {
      assert !c.Begin? && NoBegin(s.down[i][1..]);
      BegetsNoBegin(z, s.hops[i], c, EnvOf(s, i, dialOk));
      if i + 1 < |s.path| {
        if i + 1 == p {
          CarriedPush(s.down[p], r.down, s.sid);
        } else {
          NoBeginSplit(s.down[i + 1], r.down);
        }
      }
    } else if i == p {
      CarriedPop(s.down[p], s.sid);
      if !Carried(s.down[p][1..], s.sid) {
        p' := p + 1;
        EndPassesDown(z, s.hops[p], s.sid, EnvOf(s, p, dialOk));
        if p + 1 < |s.path| {
          CarriedLast(s.down[p + 1], s.sid);
        }
      }
    }
  }

  lemma EndAtBelow(z: Sizes, s: State, i: nat, dialOk: bool, p: nat)
    requires Inv(z, s) && Relays(s, i) && EndAt(s, p)
    ensures EndAt(HandleBelow(z, s, i, dialOk), p)
  {
    DownsBelow(z, s, i, dialOk);
    assert UpCell(s, i + 1, s.up[i + 1][0]);
    var r := ReplyBelow(z, s, i, dialOk);
    hide Inv, HandleBelow, Carried, Handle;
    BegetsNoBegin(z, s.hops[i], s.up[i + 1][0], EnvOf(s, i, dialOk));
    NoBeginSplit(s.down[i + 1], r.down);
    if i + 1 == p {
      CarriedPush(s.down[p], r.down, s.sid);
    }
  }

  lemma EndAtElse(z: Sizes, s: State, step: Step, p: nat)
    requires Shape(s) && Enabled(s, step) && EndAt(s, p) && !step.FromAbove? && !step.FromBelow?
    ensures EndAt(Apply(z, s, step), p)
  {
    hide Take, SendIf, UpwardCell, Carried;
    if step.Receive? {
      TakeFrame(s);
    }
  }

  lemma EndAtNext(z: Sizes, s: State, step: Step, p: nat) returns (p': nat)
    requires Inv(z, s) && z.Valid() && Enabled(s, step) && EndAt(s, p)
    ensures EndAt(Apply(z, s, step), p')
  {
    p' := p;
    if step.FromAbove? {
      p' := EndAtAbove(z, s, step.i, step.dialOk, p);
    } else if step.FromBelow? {
      EndAtBelow(z, s, step.i, step.dialOk, p);
    } else {
      EndAtElse(z, s, step, p);
    }
    hide Inv, HandleAbove, HandleBelow, EndAt;
  }

  lemma OnlyExitNext(z: Sizes, s: State, step: Step)
    requires Inv(z, s) && Enabled(s, step) && OnlyExit(s)
    ensures OnlyExit(Apply(z, s, step))
  {
    assert Shape(s);
    StepFrame(z, s, step);
    hide Apply;
    forall i | 0 <= i < Last(s)
      ensures Apply(z, s, step).hops[i].streams == {}
    {
      assert HopOk(s, i);
      hide Inv, HopOk;
      OnlyExitHere(z, s, step, i);
    }
    hide Inv;
  }

  lemma OnlyExitHere(z: Sizes, s: State, step: Step, i: nat)
    requires Shape(s) && Enabled(s, step) && i < Last(s) && HopOk(s, i) && s.hops[i].streams == {}
    ensures Apply(z, s, step).hops[i].streams == {}
  {
    assert s.hops[i].hasDown && !s.hops[i].hidden;
    hide Apply, Handle, HopOk;
    RelayFrame(z, s, step, i);
    if step.Expire? {
      ExpiryStreams(z, s, step, i);
    } else if step.FromAbove? && step.i == i {
      MiddleHasNoStreams(z, s.hops[i], s.down[i][0], EnvOf(s, i, step.dialOk));
    } else if step.FromBelow? && step.i == i {
      MiddleHasNoStreams(z, s.hops[i], s.up[i + 1][0], EnvOf(s, i, step.dialOk));
    }
  }

  lemma ExpiryStreams(z: Sizes, s: State, step: Step, i: nat)
    requires Shape(s) && Enabled(s, step) && i < |s.path| && step.Expire?
    ensures Apply(z, s, step).hops[i].streams == s.hops[i].streams
  {
  }

  lemma MiddleHasNoStreams(z: Sizes, h: Hop, c: Cell, env: Env)
    requires h.hasDown && !h.hidden && h.streams == {}
    ensures Handle(z, h, c, env).hop.streams == {}
  {
    hide CounterNonce;
  }

  lemma {:induction false} EndAtLater(z: Sizes, s: State, steps: seq<Step>, t: State, p: nat) returns (p': nat)
    requires Inv(z, s) && z.Valid() && Reaches(z, s, steps, t) && EndAt(s, p) && OnlyExit(s)
    ensures Inv(z, t) && t.sid == s.sid && |t.path| == |s.path| && EndAt(t, p') && OnlyExit(t)
    decreases |steps|
  {
    if steps == [] {
      p' := p;
    } else {
      StepKeeps(z, s, steps[0]);
      StepFrame(z, s, steps[0]);
      OnlyExitNext(z, s, steps[0]);
      p' := EndAtNext(z, s, steps[0], p);
      hide Apply, Enabled, Inv, EndAt, OnlyExit;
      p' := EndAtLater(z, Apply(z, s, steps[0]), steps[1..], t, p');
    }
  }

  lemma {:induction false} OnlyExitLater(z: Sizes, s: State, steps: seq<Step>, t: State)
    requires Inv(z, s) && z.Valid() && Reaches(z, s, steps, t) && OnlyExit(s)
    ensures Shape(t) && OnlyExit(t)
    decreases |steps|
  {
    if steps != [] {
      StepKeeps(z, s, steps[0]);
      OnlyExitNext(z, s, steps[0]);
      hide Apply, Enabled, Inv, OnlyExit;
      OnlyExitLater(z, Apply(z, s, steps[0]), steps[1..], t);
    }
  }

  lemma EndIsSent(z: Sizes, s: State, last: bool)
    requires Shape(s) && s.sid != 0 && z.Valid() && Enabled(s, CloseStream(last))
    ensures EndAt(Apply(z, s, CloseStream(last)), 0)
  {
    var control := if last then SendIf(z, true, End(0)) else [];
    assert SendIf(z, true, End(s.sid)) == [End(s.sid)] && NoBegin(control);
    CarriedLast(s.down[0], s.sid);
    CarriedPush(s.down[0] + [End(s.sid)], control, s.sid);
    hide SendIf, Carried, NoBegin;
  }

  /** At rest the END for the stream has been to every relay that could still hold the stream. */
  lemma RestedEnd(z: Sizes, t: State, p: nat, j: nat)
    requires Inv(z, t) && AtRest(t) && EndAt(t, p) && OnlyExit(t) && j < |t.path|
    requires t.hops[j].alive && forall i :: 0 <= i <= j ==> !t.hist[i].expired
    ensures t.sid !in t.hops[j].streams
  {
    if j == Last(t) && p <= j {
      CarriedPop(t.down[p], t.sid);
      assert HopOk(t, p);
      TeardownIsComplete(z, t, p, j);
    }
    hide Inv, EndAt;
  }

  /** The client's END for its stream, with or without the control END after it, closes the stream along the whole chain, whatever
      else is going on: at rest no relay that holds the circuit has the stream, as far down as the timer has dropped no entry. */
  lemma EndClosesTheStream(z: Sizes, path: Path, sid: uint16, steps: seq<Step>, s: State, last: bool, more: seq<Step>, t: State,
      j: nat)
    requires Run(z, path, sid, steps, s) && Enabled(s, CloseStream(last)) && Reaches(z, Apply(z, s, CloseStream(last)), more, t)
    requires Shape(t) && j < |path| == |t.path| && AtRest(t) && t.hops[j].alive && forall i :: 0 <= i <= j ==> !t.hist[i].expired
    ensures t.sid == sid && sid !in t.hops[j].streams
  {
    FreshInv(z, path, sid);
    assert OnlyExit(Fresh(path, sid));
    hide Inv, Reaches, EndAt, AtRest, OnlyExit, Apply;
    RunInv(z, path, sid, steps, s);
    OnlyExitLater(z, Fresh(path, sid), steps, s);
    SamePath(z, Fresh(path, sid), steps, s);
    StepKeeps(z, s, CloseStream(last));
    OnlyExitNext(z, s, CloseStream(last));
    EndIsSent(z, s, last);
    StepFrame(z, s, CloseStream(last));
    var p := EndAtLater(z, Apply(z, s, CloseStream(last)), more, t, 0);
    RestedEnd(z, t, p, j);
  }
}

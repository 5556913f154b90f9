/** Every cell comes to rest, and a teardown reaches the whole chain below it. */
module ChainTeardown {
  import opened MachineInts
  import opened Nonces
  import opened Wrappers
  import opened Onion
  import opened RelaySpec
  import opened ClientSpec
  import opened Chain
  import opened ChainLinks
  import opened ChainInvariant
  import opened ChainAbove
  import opened ChainAboveKeeps
  import opened ChainBelow
  import opened ChainEnds
  import opened ChainFrames
  import opened ChainRuns
  import opened ChainTheorems

  /** A bound on how often a cell on the link to relay `i`, and what it gives rise to, can still be handled. */
  function DownWeight(n: nat, i: nat, c: Cell): nat
    requires i < n
  {
    if c.Malformed? || c.Ignored? then 1
    else if c.End? || c.Destroy? then n - i
    else 2 * n + 3 - i
  }

  function UpWeight(n: nat, i: nat, c: Cell): nat
    requires i < n
  {
    if c.Malformed? || c.Ignored? then 1
    else if c.End? || c.Destroy? then n - i + 1
    else i + 1
  }

  function Weight(n: nat, i: nat, q: seq<Cell>, upward: bool): nat
    requires i < n
  {
    if q == [] then 0
    else (if upward then UpWeight(n, i, q[0]) else DownWeight(n, i, q[0])) + Weight(n, i, q[1..], upward)
  }

  lemma {:induction false} WeightAppend(n: nat, i: nat, q: seq<Cell>, more: seq<Cell>, upward: bool)
    requires i < n
    ensures Weight(n, i, q + more, upward) == Weight(n, i, q, upward) + Weight(n, i, more, upward)
  {
    if q == [] {
      assert q + more == more;
    } else {
      WeightAppend(n, i, q[1..], more, upward);
      assert (q + more)[1..] == q[1..] + more;
    }
  }

  /** The weight of the first `k` links in one direction. */
  function Total(n: nat, qs: seq<seq<Cell>>, k: nat, upward: bool): nat
    requires k <= n == |qs|
  {
    if k == 0 then 0 else Total(n, qs, k - 1, upward) + Weight(n, k - 1, qs[k - 1], upward)
  }

  lemma {:induction false} TotalUpdate(n: nat, qs: seq<seq<Cell>>, k: nat, i: nat, q: seq<Cell>, upward: bool)
    requires k <= n == |qs| && i < n
    ensures Total(n, qs[i := q], k, upward)
         == Total(n, qs, k, upward) + if i < k then Weight(n, i, q, upward) - Weight(n, i, qs[i], upward) else 0
  {
    if k > 0 {
      TotalUpdate(n, qs, k - 1, i, q, upward);
    }
  }

  function Potential(s: State): nat
    requires Shape(s)
  {
    Total(|s.path|, s.down, |s.path|, false) + Total(|s.path|, s.up, |s.path|, true)
  }

  /** A step that only moves cells already on their way. */
  predicate Internal(step: Step) {
    step.FromAbove? || step.FromBelow? || step.Receive?
  }

  /** Whatever a relay puts on its links for a cell from above weighs less than the cell did. */
  lemma ReplyAboveLighter(z: Sizes, h: Hop, c: Cell, env: Env, n: nat, i: nat)
    requires i < n
    ensures var r := Handle(z, h, c, env);
      Weight(n, i, r.up, true) + (if i + 1 < n then Weight(n, i + 1, r.down, false) else 0) < DownWeight(n, i, c)
  {
    var r := Handle(z, h, c, env);
    OneEvent(z, h, c, env);
    assert forall d :: r.up == [d] ==> [d][1..] == [];
    assert forall d :: r.down == [d] ==> [d][1..] == [];
  }

  lemma AboveLighter(z: Sizes, s: State, i: nat, dialOk: bool)
    requires Shape(s) && i < |s.path| && s.down[i] != []
    ensures Potential(HandleAbove(z, s, i, dialOk)) < Potential(s)
  {
    hide Handle;
    var n, r, q := |s.path|, ReplyAbove(z, s, i, dialOk), s.down[i];
    var s1 := HandleAbove(z, s, i, dialOk);
    ReplyAboveLighter(z, s.hops[i], q[0], EnvOf(s, i, dialOk), n, i);
    TotalUpdate(n, s.down, n, i, q[1..], false);
    WeightAppend(n, i, s.up[i], r.up, true);
    TotalUpdate(n, s.up, n, i, s.up[i] + r.up, true);
    var mid := s.down[i := q[1..]];
    assert s1.up == s.up[i := s.up[i] + r.up];
    if i + 1 < n {
      WeightAppend(n, i + 1, mid[i + 1], r.down, false);
      TotalUpdate(n, mid, n, i + 1, mid[i + 1] + r.down, false);
      assert s1.down == mid[i + 1 := mid[i + 1] + r.down];
    } else {
      assert s1.down == mid;
    }
  }

  lemma ReplyBelowLighter(z: Sizes, s: State, i: nat, dialOk: bool)
    requires Inv(z, s) && Relays(s, i)
    ensures var n, r := |s.path|, ReplyBelow(z, s, i, dialOk);
      Weight(n, i, r.up, true) + Weight(n, i + 1, r.down, false) < UpWeight(n, i + 1, s.up[i + 1][0])
  {
    hide Carries;
    var c, r := s.up[i + 1][0], ReplyBelow(z, s, i, dialOk);
    assert UpCell(s, i + 1, c);
    if c.Data? {
      NeverOpensFromBelow(z, s, i, dialOk);
    }
    assert |r.up| + |r.down| <= 1;
    assert forall d :: r.up == [d] ==> [d][1..] == [];
    assert forall d :: r.down == [d] ==> [d][1..] == [];
  }

  lemma BelowQueues(z: Sizes, s: State, i: nat, dialOk: bool)
    requires Shape(s) && i + 1 < |s.path| && s.up[i + 1] != []
    ensures var t, r := HandleBelow(z, s, i, dialOk), ReplyBelow(z, s, i, dialOk);
      && |t.path| == |s.path|
      && t.up == s.up[i + 1 := s.up[i + 1][1..]][i := s.up[i] + r.up] && t.down == s.down[i + 1 := s.down[i + 1] + r.down]
  {
    hide Handle;
  }

  lemma BelowLighter(z: Sizes, s: State, i: nat, dialOk: bool)
    requires Inv(z, s) && Relays(s, i)
    ensures Potential(HandleBelow(z, s, i, dialOk)) < Potential(s)
  {
    var r := ReplyBelow(z, s, i, dialOk);
    ReplyBelowLighter(z, s, i, dialOk);
    BelowQueues(z, s, i, dialOk);
    hide Inv, Handle, HandleBelow, ReplyBelow, Total, Weight;
    MovedUp(|s.path|, s.up, i, r.up);
    WeightAppend(|s.path|, i + 1, s.down[i + 1], r.down, false);
    TotalUpdate(|s.path|, s.down, |s.path|, i + 1, s.down[i + 1] + r.down, false);
  }

  /** The weight upwards when the front cell of one link gives way to some on the next. */
  lemma MovedUp(n: nat, up: seq<seq<Cell>>, i: nat, more: seq<Cell>)
    requires |up| == n && i + 1 < n && up[i + 1] != []
    ensures Total(n, up[i + 1 := up[i + 1][1..]][i := up[i] + more], n, true)
      == Total(n, up, n, true) - UpWeight(n, i + 1, up[i + 1][0]) + Weight(n, i, more, true)
  {
    var mid := up[i + 1 := up[i + 1][1..]];
    TotalUpdate(n, up, n, i + 1, up[i + 1][1..], true);
    WeightAppend(n, i, up[i], more, true);
    TotalUpdate(n, mid, n, i, up[i] + more, true);
    hide Total, UpWeight;
  }
  lemma TakeLighter(s: State)
    requires Shape(s) && s.up[0] != []
    ensures Potential(Take(s)) < Potential(s)
  {
    TakeFrame(s);
    hide Take;
    TotalUpdate(|s.path|, s.up, |s.path|, 0, s.up[0][1..], true);
  }

  lemma InternalLighter(z: Sizes, s: State, step: Step)
    requires Inv(z, s) && Enabled(s, step) && Internal(step)
    ensures Potential(Apply(z, s, step)) < Potential(s)
  {
    assert Shape(s);
    hide Inv, HandleAbove, HandleBelow, Take, Potential;
    match step
    case FromAbove(i, dialOk) => AboveLighter(z, s, i, dialOk);
    case FromBelow(i, dialOk) => BelowLighter(z, s, i, dialOk);
    case Receive => TakeLighter(s);
  }

  /** Once the ends stop feeding it, a circuit comes to rest: the handling steps that can still follow are bounded. */
  lemma {:induction false} CellsComeToRest(z: Sizes, s: State, steps: seq<Step>, t: State)
    requires Inv(z, s) && z.Valid() && Reaches(z, s, steps, t)
    requires forall k :: 0 <= k < |steps| ==> Internal(steps[k])
    ensures Shape(t) && |steps| + Potential(t) <= Potential(s)
    decreases |steps|
  {
    if steps != [] {
      var s1, rest := Apply(z, s, steps[0]), steps[1..];
      RunLater(z, s, steps, t);
      StepKeeps(z, s, steps[0]);
      InternalLighter(z, s, steps[0]);
      hide Apply, Enabled, Inv, Potential;
      assert forall k :: 0 <= k < |rest| ==> rest[k] == steps[k + 1];
      CellsComeToRest(z, s1, rest, t);
    }
  }

  // ---- teardown ----

  /** No relay that still holds the circuit has a cell from above to handle. */
  ghost predicate AtRest(t: State)
    requires Shape(t)
  {
    forall i :: 0 <= i < |t.path| && t.hops[i].alive ==> t.down[i] == []
  }

  ghost predicate Gone(t: State, j: nat)
    requires Shape(t) && j < |t.path|
  {
    !t.hops[j].alive && t.hops[j].streams == {}
  }

  /** At rest, if relay `k` tore the circuit down and the timer dropped no entry from there to relay `j`, then relay `j`
      holds neither the circuit nor any of its streams. */
  lemma {:induction false} TeardownIsComplete(z: Sizes, t: State, k: nat, j: nat)
    requires Inv(z, t) && AtRest(t) && k <= j < |t.path| && t.hist[k].torn
    requires forall i :: k <= i <= j ==> !t.hist[i].expired
    ensures t.hist[j].torn && Gone(t, j)
    decreases j
  {
    assert HopOk(t, j);
    if j > k {
      TeardownIsComplete(z, t, k, j - 1);
    }
  }

  ghost predicate KillPending(s: State, i: nat)
    requires Shape(s) && i < |s.path|
  {
    s.hist[i].torn || s.hist[i].expired || HasKill(s.down[i])
  }

  /** A cell only ever leaves a downward link at the front, when the relay it leads to handles it. */
  lemma DownOnlyGrows(z: Sizes, s: State, step: Step, i: nat)
    requires Shape(s) && Enabled(s, step) && i < |s.path| && !(step.FromAbove? && step.i == i)
    ensures s.down[i] <= Apply(z, s, step).down[i]
    ensures Apply(z, s, step).hist[i].torn == (s.hist[i].torn || (step.FromBelow? && step.i == i && IsKill(s.up[i + 1][0])))
    ensures s.hist[i].expired ==> Apply(z, s, step).hist[i].expired
  {
    hide Ask, Chunk, HandleAbove, HandleBelow, Read, Take;
    match step
    case FromAbove(j, dialOk) => AboveOnlyGrows(z, s, j, dialOk, i);
    case FromBelow(j, dialOk) => BelowOnlyGrows(z, s, j, dialOk, i);
    case AskConnect(target) => AskOnlyGrows(z, s, ConnectMsg(target), Connected, i);
    case AskBegin(target) => AskOnlyGrows(z, s, BeginDto(s.sid, target), Streaming, i);
    case SendChunk(bytes) => ChunkOnlyGrows(z, s, Raw(bytes), i);
    case ReadChunk(bytes) => UpwardSparesDown(z, s, Raw(bytes));
    case Receive => UpwardSparesDown(z, s, Raw([]));
    case _ =>
  }

  lemma AboveOnlyGrows(z: Sizes, s: State, j: nat, dialOk: bool, i: nat)
    requires Shape(s) && i < |s.path| && j < |s.path| && s.down[j] != [] && i != j
    ensures var t := HandleAbove(z, s, j, dialOk); s.down[i] <= t.down[i] && t.hist[i] == s.hist[i]
  {
    hide Handle;
  }

  lemma BelowOnlyGrows(z: Sizes, s: State, j: nat, dialOk: bool, i: nat)
    requires Shape(s) && i < |s.path| && j + 1 < |s.path| && s.up[j + 1] != []
    ensures var t := HandleBelow(z, s, j, dialOk);
      && s.down[i] <= t.down[i] && t.hist[i].expired == s.hist[i].expired
      && t.hist[i].torn == (s.hist[i].torn || (i == j && IsKill(s.up[j + 1][0])))
  {
    hide Handle;
  }

  lemma AskOnlyGrows(z: Sizes, s: State, m: Msg, next: Phase, i: nat)
    requires Shape(s) && i < |s.path|
    ensures s.down[i] <= Ask(z, s, m, next).down[i] && Ask(z, s, m, next).hist == s.hist
  {
    AskIs(z, s, m, next);
    hide Ask, SendRequest;
  }

  lemma ChunkOnlyGrows(z: Sizes, s: State, m: Msg, i: nat)
    requires Shape(s) && i < |s.path|
    ensures s.down[i] <= Chunk(z, s, m).down[i] && Chunk(z, s, m).hist == s.hist
  {
    hide SendData;
  }

  lemma UpwardSparesDown(z: Sizes, s: State, m: Msg)
    requires Shape(s)
    ensures Read(z, s, m).down == s.down && Read(z, s, m).hist == s.hist
    ensures s.up[0] != [] ==> Take(s).down == s.down && Take(s).hist == s.hist
  {
    hide Decrypt, UpwardCell;
  }

  lemma KillHandled(z: Sizes, s: State, i: nat, dialOk: bool)
    requires Shape(s) && i < |s.path| && s.down[i] != [] && KillPending(s, i)
    ensures KillPending(HandleAbove(z, s, i, dialOk), i)
  {
    hide Handle;
    var t := HandleAbove(z, s, i, dialOk);
    assert t.down[i] == s.down[i][1..];
    if !s.hist[i].torn && !s.hist[i].expired {
      var p :| 0 <= p < |s.down[i]| && IsKill(s.down[i][p]);
      if p > 0 {
        assert t.down[i][p - 1] == s.down[i][p];
      }
    }
  }

  lemma KillStaysPending(z: Sizes, s: State, step: Step, i: nat)
    requires Shape(s) && Enabled(s, step) && i < |s.path| && KillPending(s, i)
    ensures KillPending(Apply(z, s, step), i)
  {
    if step.FromAbove? && step.i == i {
      KillHandled(z, s, i, step.dialOk);
    } else {
      DownOnlyGrows(z, s, step, i);
      hide Apply, Enabled;
      if HasKill(s.down[i]) {
        var p :| 0 <= p < |s.down[i]| && IsKill(s.down[i][p]);
        assert Apply(z, s, step).down[i][p] == s.down[i][p];
      }
    }
  }

  lemma {:induction false} KillReaches(z: Sizes, s: State, steps: seq<Step>, t: State, i: nat)
    requires Shape(s) && Reaches(z, s, steps, t) && i < |s.path| && KillPending(s, i)
    ensures Shape(t) && t.path == s.path && KillPending(t, i)
    decreases |steps|
  {
    if steps != [] {
      KillStaysPending(z, s, steps[0], i);
      hide Apply, Enabled, KillPending;
      KillReaches(z, Apply(z, s, steps[0]), steps[1..], t, i);
    }
  }

  /** When the client closes its only stream, then whatever else goes on: as soon as the chain is at rest, every relay that
      the timer has dropped no entry of, nor of one above, holds neither the circuit nor a stream of it. */
  lemma ClosingClearsTheChain(z: Sizes, s: State, steps: seq<Step>, t: State, j: nat)
    requires Inv(z, s) && z.Valid() && Enabled(s, CloseStream(true))
    requires Reaches(z, Apply(z, s, CloseStream(true)), steps, t) && Shape(t) && |t.path| == |s.path| && AtRest(t)
    requires j < |t.path| && forall i :: 0 <= i <= j ==> !t.hist[i].expired
    ensures Gone(t, j)
  {
    var s1 := Apply(z, s, CloseStream(true));
    assert s1.down[0][|s.down[0]| + 1] == End(0);
    assert KillPending(s1, 0);
    KillReaches(z, s1, steps, t, 0);
    RunLater(z, s1, steps, t);
    StepLater(z, s, CloseStream(true));
    StepKeeps(z, s, CloseStream(true));
    RunKeeps(z, s1, steps, t);
    assert HopOk(t, 0);
    TeardownIsComplete(z, t, 0, j);
  }

  /** The code and the project's own diagrams differ here: with two or more relays no END and no DESTROY ever goes up to
      the client, because a middle relay forwards both downwards whichever side they came from. */
  lemma NoEndReachesTheClient(z: Sizes, path: Path, sid: uint16, steps: seq<Step>, t: State)
    requires Run(z, path, sid, steps, t) && |path| >= 2
    ensures forall p :: 0 <= p < |t.up[0]| ==> !t.up[0][p].End? && !t.up[0][p].Destroy?
  {
    RunInv(z, path, sid, steps, t);
    forall p | 0 <= p < |t.up[0]|
      ensures !t.up[0][p].End? && !t.up[0][p].Destroy?
    {
      assert UpCell(t, 0, t.up[0][p]);
    }
  }

  // ---- how far a teardown from the exit goes ----

  /** Nothing that ends the circuit is on its way to any relay above the exit, and none above the exit's neighbour has ended it. */
  ghost predicate UpperUntold(s: State)
    requires Shape(s)
  {
    && (forall i :: 0 <= i && i + 1 < |s.path| ==> !HasKill(s.down[i]))
    && (forall i :: 0 <= i && i + 2 < |s.path| ==> !s.hist[i].torn)
  }

  lemma KillIn(a: seq<Cell>, b: seq<Cell>)
    ensures HasKill(a + b) <==> HasKill(a) || HasKill(b)
  {
    if HasKill(a) {
      var p :| 0 <= p < |a| && IsKill(a[p]);
      assert (a + b)[p] == a[p];
    }
    if HasKill(b) {
      var p :| 0 <= p < |b| && IsKill(b[p]);
      assert (a + b)[|a| + p] == b[p];
    }
  }

  lemma NoKillInRest(q: seq<Cell>)
    requires q != [] && !HasKill(q)
    ensures !IsKill(q[0]) && !HasKill(q[1..])
  {
    forall p | 0 <= p < |q[1..]|
      ensures !IsKill(q[1..][p])
    {
      assert q[1..][p] == q[p + 1];
    }
  }

  /** A relay passes END for stream 0 or DESTROY down only when it handles one. */
  lemma KillsPassKills(z: Sizes, h: Hop, c: Cell, env: Env)
    ensures !IsKill(c) ==> !HasKill(Handle(z, h, c, env).down)
  {
    hide CounterNonce;
  }

  lemma AboveUntold(z: Sizes, s: State, j: nat, dialOk: bool)
    requires Shape(s) && Handles(s, j) && UpperUntold(s)
    ensures UpperUntold(HandleAbove(z, s, j, dialOk))
  {
    var c, t := s.down[j][0], HandleAbove(z, s, j, dialOk);
    KillsPassKills(z, s.hops[j], c, EnvOf(s, j, dialOk));
    AboveTold(z, s, j, dialOk);
    if j + 1 < |s.path| {
      NoKillInRest(s.down[j]);
      KillIn(s.down[j + 1], ReplyAbove(z, s, j, dialOk).down);
    }
    hide Handle, HandleAbove, HasKill;
  }

  lemma AboveTold(z: Sizes, s: State, j: nat, dialOk: bool)
    requires Shape(s) && j < |s.path| && s.down[j] != []
    ensures var t := HandleAbove(z, s, j, dialOk);
      forall i :: 0 <= i < |s.path| ==>
        && t.hist[i].torn == (s.hist[i].torn || (i == j && IsKill(s.down[j][0])))
        && t.down[i] == (if i == j then s.down[j][1..] else if i == j + 1 then s.down[i] + ReplyAbove(z, s, j, dialOk).down else s.down[i])
  {
    hide Handle, Opens;
  }

  lemma BelowUntold(z: Sizes, s: State, j: nat, dialOk: bool)
    requires Shape(s) && Inv(z, s) && Relays(s, j) && UpperUntold(s)
    ensures UpperUntold(HandleBelow(z, s, j, dialOk))
  {
    OnlyExitKills(z, s, j);
    hide Inv;
    KillsPassKills(z, s.hops[j], s.up[j + 1][0], EnvOf(s, j, dialOk));
    BelowTold(z, s, j, dialOk);
    KillIn(s.down[j + 1], ReplyBelow(z, s, j, dialOk).down);
    hide Handle, HandleBelow, HasKill;
  }

  lemma OnlyExitKills(z: Sizes, s: State, j: nat)
    requires Inv(z, s) && Relays(s, j)
    ensures j + 2 < |s.path| ==> !IsKill(s.up[j + 1][0])
  {
    assert s.up[j + 1][0] in s.up[j + 1];
    assert UpCell(s, j + 1, s.up[j + 1][0]);
  }

  lemma BelowTold(z: Sizes, s: State, j: nat, dialOk: bool)
    requires Shape(s) && j + 1 < |s.path| && s.up[j + 1] != []
    ensures var t := HandleBelow(z, s, j, dialOk);
      forall i :: 0 <= i < |s.path| ==>
        && t.hist[i].torn == (s.hist[i].torn || (i == j && IsKill(s.up[j + 1][0])))
        && t.down[i] == (if i == j + 1 then s.down[i] + ReplyBelow(z, s, j, dialOk).down else s.down[i])
  {
    hide Handle;
  }

  lemma ClientUntold(z: Sizes, s: State, step: Step)
    requires Shape(s) && Enabled(s, step) && ByClient(step) && !step.CloseStream? && UpperUntold(s)
    ensures UpperUntold(Apply(z, s, step))
  {
    hide Ask, Chunk, Take;
    if step.AskConnect? {
      AskUntold(z, s, ConnectMsg(step.target), Connected);
    } else if step.AskBegin? {
      AskUntold(z, s, BeginDto(s.sid, step.target), Streaming);
    } else if step.SendChunk? {
      ChunkUntold(z, s, Raw(step.bytes));
    } else if step.Receive? {
      TakeFrame(s);
    }
  }

  lemma AskUntold(z: Sizes, s: State, m: Msg, next: Phase)
    requires Shape(s) && UpperUntold(s)
    ensures UpperUntold(Ask(z, s, m, next))
  {
    AskIs(z, s, m, next);
    var o := SendRequest(z, s.client, m).cell;
    if o.Some? {
      KillIn(s.down[0], [o.value]);
      assert !IsKill(o.value) by {
        hide SealLayers, NoncesAt;
      }
    }
    hide Ask, SendRequest;
  }

  lemma ChunkUntold(z: Sizes, s: State, m: Msg)
    requires Shape(s) && UpperUntold(s)
    ensures UpperUntold(Chunk(z, s, m))
  {
    ChunkIs(z, s, m);
    var o := SendData(z, s.client, s.sid, m).cell;
    if o.Some? {
      KillIn(s.down[0], [o.value]);
      assert !IsKill(o.value) by {
        hide SealLayers, NoncesAt;
      }
    }
    hide Chunk, SendData;
  }

  lemma StepUntold(z: Sizes, s: State, step: Step)
    requires Inv(z, s) && Enabled(s, step) && !step.CloseStream? && UpperUntold(s)
    ensures UpperUntold(Apply(z, s, step))
  {
    if ByClient(step) {
      ClientUntold(z, s, step);
    } else if step.FromAbove? {
      AboveUntold(z, s, step.i, step.dialOk);
    } else if step.FromBelow? {
      BelowUntold(z, s, step.i, step.dialOk);
    } else {
      OutsideUntold(z, s, step);
    }
    hide HandleAbove, HandleBelow, UpperUntold;
  }

  lemma OutsideUntold(z: Sizes, s: State, step: Step)
    requires Shape(s) && Enabled(s, step) && !ByClient(step) && !step.FromAbove? && !step.FromBelow? && UpperUntold(s)
    ensures UpperUntold(Apply(z, s, step))
  {
    hide SendIf, UpwardCell, HasKill;
  }

  lemma {:induction false} AlwaysUntold(z: Sizes, s: State, steps: seq<Step>, t: State)
    requires Inv(z, s) && z.Valid() && Reaches(z, s, steps, t) && UpperUntold(s)
    requires forall k :: 0 <= k < |steps| ==> !steps[k].CloseStream?
    ensures Shape(t) && UpperUntold(t)
    decreases |steps|
  {
    if steps != [] {
      StepUntold(z, s, steps[0]);
      StepKeeps(z, s, steps[0]);
      hide Apply, Enabled, Inv, UpperUntold;
      AlwaysUntold(z, Apply(z, s, steps[0]), steps[1..], t);
    }
  }

  /** What the exit says goes no further than its neighbour. Until the client closes its stream, no relay above that one tears
      the circuit down or is told to: it holds the circuit exactly as long as the sweep does not come. */
  lemma ExitTearsTwo(z: Sizes, path: Path, sid: uint16, steps: seq<Step>, t: State, i: nat)
    requires Run(z, path, sid, steps, t) && i + 2 < |path|
    requires forall k :: 0 <= k < |steps| ==> !steps[k].CloseStream?
    ensures !t.hist[i].torn && !HasKill(t.down[i]) && (t.hops[i].alive <==> !t.hist[i].expired)
  {
    FreshInv(z, path, sid);
    RunInv(z, path, sid, steps, t);
    AlwaysUntold(z, Fresh(path, sid), steps, t);
    assert HopOk(t, i);
    hide Reaches, HasKill;
  }
}

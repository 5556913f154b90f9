/** One hop upwards, lost pieces and all: which cell the client gets next, and exactly when it opens. */
module ChainOneHop {
  import opened MachineInts
  import opened Nonces
  import opened Wrappers
  import opened Onion
  import opened RelaySpec
  import opened ClientSpec
  import opened Chain
  import opened ChainFrames
  import opened ChainLinks
  import opened ChainInvariant
  import opened ChainAbove
  import opened ChainEnds
  import opened ChainRuns
  import opened ChainTheorems
  import opened ChainLoss

  /** The cells the exit of a one-hop circuit has sent up for what it read: those that fit. */
  function Kept(z: Sizes, path: Path, sid: uint16, read: seq<Msg>): seq<Cell> {
    if read == [] then [] else
    var n := |read| - 1;
    Kept(z, path, sid, read[..n]) + SendIf(z, true, Item(path, sid, DataKind, 0, n, read[n]))
  }

  /** Every one of the first `n` pieces read fits with its tag. */
  ghost predicate FirstFit(z: Sizes, path: Path, sid: uint16, read: seq<Msg>, n: nat)
    requires n <= |read|
  {
    forall k :: 0 <= k < n ==> Fits(z, Item(path, sid, DataKind, 0, k, read[k]))
  }

  lemma {:induction false} KeptCount(z: Sizes, path: Path, sid: uint16, read: seq<Msg>)
    ensures |Kept(z, path, sid, read)| <= |read|
    ensures |Kept(z, path, sid, read)| == |read| <==> FirstFit(z, path, sid, read, |read|)
  {
    hide Item, Fits;
    if read != [] {
      var n := |read| - 1;
      KeptCount(z, path, sid, read[..n]);
    }
  }

  lemma {:induction false} KeptAtLeast(z: Sizes, path: Path, sid: uint16, read: seq<Msg>, n: nat)
    requires n <= |read| && FirstFit(z, path, sid, read, n)
    ensures n <= |Kept(z, path, sid, read)|
    decreases |read|
  {
    hide Item, Fits;
    if n == |read| {
      KeptCount(z, path, sid, read);
    } else {
      var front := read[..|read| - 1];
      assert forall k :: 0 <= k < n ==> front[k] == read[k];
      KeptAtLeast(z, path, sid, front, n);
    }
  }

  /** The r-th cell kept is of the r-th piece read exactly if all pieces up to that one fit. */
  lemma {:induction false} KeptAt(z: Sizes, path: Path, sid: uint16, read: seq<Msg>, r: nat) returns (j: nat)
    requires r < |Kept(z, path, sid, read)|
    ensures r <= j < |read| && Kept(z, path, sid, read)[r] == Item(path, sid, DataKind, 0, j, read[j])
    ensures j == r <==> FirstFit(z, path, sid, read, r + 1)
  {
    hide Item, Fits;
    var n := |read| - 1;
    KeptCount(z, path, sid, read[..n]);
    if r < |Kept(z, path, sid, read[..n])| {
      j := KeptAt(z, path, sid, read[..n], r);
      assert forall k :: 0 <= k < n ==> read[..n][k] == read[k];
    } else {
      j := n;
      assert forall k :: 0 <= k < n ==> read[..n][k] == read[k];
      if r < n && FirstFit(z, path, sid, read, r + 1) {
        assert FirstFit(z, path, sid, read[..n], r + 1);
        KeptAtLeast(z, path, sid, read[..n], r + 1);
      }
    }
  }

  /** While the client listens, its link holds exactly the cells kept and not yet opened. */
  ghost predicate OnTheLink(z: Sizes, s: State)
    requires Shape(s)
  {
    s.listening ==>
      && |s.received| <= |Kept(z, s.path, s.sid, s.read)|
      && Select(DataKind, s.up[0]) == Kept(z, s.path, s.sid, s.read)[|s.received|..]
  }

  /** A cell that opens sends no DATA back up. */
  lemma OpenedSendsNoData(z: Sizes, h: Hop, c: Cell, env: Env)
    requires c.Data? ==> Opens(h, c)
    ensures Select(DataKind, Handle(z, h, c, env).up) == []
  {
    hide CounterNonce;
    SelectNone(DataKind, Handle(z, h, c, env).up);
  }

  lemma AboveOnTheLink(z: Sizes, s: State, dialOk: bool)
    requires Inv(z, s) && |s.path| == 1 && Handles(s, 0) && OnTheLink(z, s)
    ensures OnTheLink(z, HandleAbove(z, s, 0, dialOk))
  {
    OneHopExact(z, s);
    OpenedSendsNoData(z, s.hops[0], s.down[0][0], EnvOf(s, 0, dialOk));
    AboveFrame(z, s, 0, dialOk);
    AboveUps(z, s, 0, dialOk, 0);
    SelectAppend(DataKind, s.up[0], ReplyAbove(z, s, 0, dialOk).up);
    hide Handle, HandleAbove, Inv, Kept, Select;
  }

  lemma ReadOnTheLink(z: Sizes, s: State, m: Msg)
    requires Inv(z, s) && |s.path| == 1 && OnTheLink(z, s)
    ensures OnTheLink(z, Read(z, s, m))
  {
    OneHopExact(z, s);
    assert HopOk(s, 0);
    ItemOfRead(s.path, s.sid, s.hops[0], |s.read|, m);
    KeptMore(z, s.path, s.sid, s.read, m);
    ReadFrame(z, s, m);
    var cells := SendIf(z, true, UpwardCell(s.hops[0], s.sid, m));
    assert Read(z, s, m).up[0] == s.up[0] + cells;
    hide Inv, HopOk, DownExact, UpwardCell, Item, Read, Kept, SendIf;
    SentOnTheLink(s.up[0], cells, Kept(z, s.path, s.sid, s.read), |s.received|);
  }

  lemma KeptMore(z: Sizes, path: Path, sid: uint16, read: seq<Msg>, m: Msg)
    ensures Kept(z, path, sid, read + [m]) == Kept(z, path, sid, read) + SendIf(z, true, Item(path, sid, DataKind, 0, |read|, m))
    ensures forall c :: c in SendIf(z, true, Item(path, sid, DataKind, 0, |read|, m)) ==> c.Data?
    ensures |SendIf(z, true, Item(path, sid, DataKind, 0, |read|, m))| <= 1
  {
    assert (read + [m])[..|read|] == read;
    assert Item(path, sid, DataKind, 0, |read|, m).Data?;
    hide Item, Fits;
  }

  lemma SentOnTheLink(q: seq<Cell>, cells: seq<Cell>, kept: seq<Cell>, r: nat)
    requires |cells| <= 1 && forall c :: c in cells ==> c.Data?
    ensures r <= |kept| && Select(DataKind, q) == kept[r..] ==>
      r <= |kept + cells| && Select(DataKind, q + cells) == (kept + cells)[r..]
  {
    SelectAppend(DataKind, q, cells);
    if cells != [] {
      assert cells[0] in cells && cells[1..] == [];
    }
    assert Select(DataKind, cells) == cells;
    if r <= |kept| {
      assert (kept + cells)[r..] == kept[r..] + cells;
    }
  }

  lemma ItemOfRead(path: Path, sid: uint16, h: Hop, j: nat, m: Msg)
    requires |path| == 1 && h.key == path[0].key && h.base == path[0].base && h.up == Wrap(j)
    ensures UpwardCell(h, sid, m) == Item(path, sid, DataKind, 0, j, m) && UpwardCell(h, sid, m).Data?
  {
    hide CounterNonce, Wrap;
    assert Layers(path, 1, j, m) == Plain(m);
  }

  lemma TakeOnTheLink(z: Sizes, s: State)
    requires Shape(s) && s.listening && s.up[0] != [] && OnTheLink(z, s)
    ensures OnTheLink(z, Take(s))
  {
    hide Decrypt, Kept;
    var c, rest, kept := s.up[0][0], s.up[0][1..], Kept(z, s.path, s.sid, s.read);
    if c.Data? {
      assert Select(DataKind, s.up[0]) == [c] + Select(DataKind, rest);
      assert kept[|s.received|..][1..] == kept[|s.received| + 1..];
    }
  }

  lemma StepOnTheLink(z: Sizes, s: State, step: Step)
    requires Inv(z, s) && |s.path| == 1 && Enabled(s, step) && OnTheLink(z, s)
    ensures OnTheLink(z, Apply(z, s, step))
  {
    if step.FromAbove? {
      AboveOnTheLink(z, s, step.dialOk);
    } else if step.ReadChunk? {
      ReadOnTheLink(z, s, Raw(step.bytes));
    } else if step.Receive? {
      TakeOnTheLink(z, s);
    } else {
      StepFrame(z, s, step);
      OtherOnTheLink(z, s, step);
      hide Apply;
    }
    hide HandleAbove, Read, Take, OnTheLink;
  }

  lemma OtherOnTheLink(z: Sizes, s: State, step: Step)
    requires Shape(s) && |s.path| == 1 && Enabled(s, step) && !step.FromAbove? && !step.ReadChunk? && !step.Receive?
    ensures Select(DataKind, Apply(z, s, step).up[0]) == Select(DataKind, s.up[0])
    ensures Apply(z, s, step).listening ==> s.listening
  {
    hide Ask, Chunk;
    if step.AskConnect? {
      AskFrame(z, s, ConnectMsg(step.target), Connected);
    } else if step.AskBegin? {
      AskFrame(z, s, BeginDto(s.sid, step.target), Streaming);
    } else if step.SendChunk? {
      ChunkFrame(z, s, Raw(step.bytes));
    } else if step.ReadEnd? {
      SelectAppend(DataKind, s.up[0], SendIf(z, true, End(s.sid)));
      SelectNone(DataKind, SendIf(z, true, End(s.sid)));
    }
  }

  lemma {:induction false} AlwaysOnTheLink(z: Sizes, s: State, steps: seq<Step>, t: State)
    requires Inv(z, s) && z.Valid() && |s.path| == 1 && Reaches(z, s, steps, t) && OnTheLink(z, s)
    ensures Shape(t) && OnTheLink(z, t)
    decreases |steps|
  {
    if steps != [] {
      StepOnTheLink(z, s, steps[0]);
      StepKeeps(z, s, steps[0]);
      hide Apply, Enabled, Inv, OnTheLink;
      AlwaysOnTheLink(z, Apply(z, s, steps[0]), steps[1..], t);
    }
  }

  /** The client with its counter at `r` opens the exit's cell of number `j` exactly if the numbers are the same. */
  lemma OpensAt(s: State, r: nat, j: nat, m: Msg)
    requires Shape(s) && |s.path| == 1 && s.up[0] != [] && s.up[0][0] == Item(s.path, s.sid, DataKind, 0, j, m)
    requires s.client.keys == Keys(s.path) && s.client.bases == Bases(s.path) && s.client.up == AllAt(1, r)
    requires s.listening && r <= j < r + TWO_TO_64
    ensures Take(s).listening <==> j == r
    ensures Take(s).received == if j == r then s.received + [Plain(m)] else s.received
  {
    assert Layers(s.path, 1, j, m) == Plain(m);
    assert Moving(1, 0, r) == AllAt(1, r);
    hide CounterNonce, Wrap;
    OpenStep(s.path, 0, r, s.up[0][0].blob);
    OpenEnd(s.path, r, Plain(m));
    if r < j {
      NoncesOfOneCounterDistinct(s.path[0].base, r, j);
    }
    hide OpenFrom, Keys, Bases, Moving, AllAt;
  }

  /** On one hop the next upward DATA cell opens at a listening client exactly if none of the pieces read up to the one that is
      due was over budget; then it gives just that piece, and otherwise the receiving loop ends. */
  lemma OneHopOpensExactly(z: Sizes, path: Path, sid: uint16, steps: seq<Step>, t: State)
    requires Run(z, path, sid, steps, t) && |path| == 1 && |t.read| < TWO_TO_64
    requires t.listening && t.up[0] != [] && t.up[0][0].Data?
    ensures |t.received| < |t.read|
    ensures Take(t).listening <==>
      forall k :: 0 <= k <= |t.received| ==> z.data(sid, MsgLen(z, t.read[k]) + TAG_SIZE) <= MAX_PAYLOAD_SIZE
    ensures Take(t).received == if Take(t).listening then t.received + [Plain(t.read[|t.received|])] else t.received
  {
    OneHopState(z, path, sid, steps, t);
    var r, kept := |t.received|, Kept(z, path, sid, t.read);
    hide Run, Take, Item, Kept, AllAt, Keys, Bases, FirstFit;
    assert Select(DataKind, t.up[0])[0] == t.up[0][0] == kept[r..][0];
    var j := KeptAt(z, path, sid, t.read, r);
    OpensAt(t, r, j, t.read[j]);
    SizesOfItems(z, path, sid, t.read, r + 1);
  }

  lemma OneHopState(z: Sizes, path: Path, sid: uint16, steps: seq<Step>, t: State)
    requires Run(z, path, sid, steps, t) && |path| == 1 && |t.read| < TWO_TO_64 && t.listening
    ensures Shape(t) && OnTheLink(z, t) && t.path == path && t.sid == sid
    ensures t.client.keys == Keys(path) && t.client.bases == Bases(path) && t.client.up == AllAt(1, |t.received|)
  {
    RunInv(z, path, sid, steps, t);
    SamePath(z, Fresh(path, sid), steps, t);
    FreshInv(z, path, sid);
    AlwaysOnTheLink(z, Fresh(path, sid), steps, t);
    OneHopExact(z, t);
    assert ClientOk(z, t) && ClientUpOk(t);
    hide Inv, Reaches, OnTheLink, DownExact, AllAt;
  }

  lemma SizesOfItems(z: Sizes, path: Path, sid: uint16, read: seq<Msg>, n: nat)
    requires |path| == 1 && n <= |read|
    ensures FirstFit(z, path, sid, read, n) <==>
      forall k :: 0 <= k < n ==> z.data(sid, MsgLen(z, read[k]) + TAG_SIZE) <= MAX_PAYLOAD_SIZE
  {
    forall k | 0 <= k < n
      ensures Fits(z, Item(path, sid, DataKind, 0, k, read[k])) <==> z.data(sid, MsgLen(z, read[k]) + TAG_SIZE) <= MAX_PAYLOAD_SIZE
    {
      LayersLength(z, path, 0, k, read[k]);
    }
  }
}

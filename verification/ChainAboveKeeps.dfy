/** The rest of what a cell from above keeps: the exit, the upward links, and the teardown. */
module ChainAboveKeeps {
  import opened MachineInts
  import opened Nonces
  import opened Wrappers
  import opened Onion
  import opened RelaySpec
  import opened ClientSpec
  import opened Chain
  import opened ChainLinks
  import opened ChainInvariant
  import opened ChainAbove

  /** DATA at the last relay: as long as DATA is exact it opens, to the chunk the client sent under that number. */
  lemma ExitData(z: Sizes, s: State, dialOk: bool) returns (j: nat)
    requires Shape(s) && DownOk(z, s) && Handles(s, Last(s)) && s.down[Last(s)][0].Data?
    ensures j < |s.sent|
    ensures DownExact(s.hist) ==> j == s.hist[Last(s)].fromAbove && Opens(s.hops[Last(s)], s.down[Last(s)][0])
    ensures var h, c, r := s.hops[Last(s)], s.down[Last(s)][0], ReplyAbove(z, s, Last(s), dialOk);
      && r.loop == None && r.hop.hidden == h.hidden && r.hop.streams <= h.streams
      && if Opens(h, c) then
           && r.hop.up == h.up
           && (s.sinkOk && (h.hidden || s.sid in h.streams) ==> r.wrote == Some(Plain(s.sent[j])) && r.hop.streams == h.streams)
           && (!(s.sinkOk && (h.hidden || s.sid in h.streams)) ==> r.wrote == None)
           && (!h.hidden && !s.sinkOk ==> s.sid !in r.hop.streams)
         else
           r.wrote == None && r.hop.streams == h.streams
  {
    hide Handle, CounterNonce, Opens;
    assert HopOk(s, Last(s)) && s.sid != 0;
    j := NextData(z, s, Last(s));
    LastData(z, s.hops[Last(s)], s.down[Last(s)][0], EnvOf(s, Last(s), dialOk));
    assert Layers(s.path, |s.path|, j, s.sent[j]) == Plain(s.sent[j]);
  }

  /** BEGIN and CONNECT at the last relay always open; only BEGIN can open a stream or start the upward loop. */
  lemma ExitRequest(z: Sizes, s: State, dialOk: bool)
    requires Shape(s) && DownOk(z, s) && Handles(s, Last(s)) && IsRequest(s.down[Last(s)][0])
    ensures s.hist[Last(s)].requests < |s.requested|
    ensures var h, r, k := s.hops[Last(s)], ReplyAbove(z, s, Last(s), dialOk), s.hist[Last(s)].requests;
      && r.wrote == None && (r.hop.up == h.up || r.hop.up == 0)
      && (r.loop.Some? || r.hop.streams != h.streams ==> k == |s.requested| - 1 && s.requested[k].BeginDto?)
      && r.hop.streams <= h.streams + {s.sid}
  {
    hide Handle, CounterNonce;
    assert HopOk(s, Last(s));
    NextRequest(z, s, Last(s));
    LastRequest(z, s.hops[Last(s)], s.down[Last(s)][0], EnvOf(s, Last(s), dialOk));
    var k := s.hist[Last(s)].requests;
    var m := s.requested[k];
    assert Layers(s.path, |s.path|, k, m) == Plain(m);
  }

  lemma AboveExitData(z: Sizes, s: State, dialOk: bool)
    requires Shape(s) && DownOk(z, s) && ExitOk(s) && z.Valid() && Handles(s, Last(s)) && s.down[Last(s)][0].Data?
    ensures ExitOk(HandleAbove(z, s, Last(s), dialOk))
  {
    hide Handle, Carries, Item, Wrap, Inc, Opens, DownExact;
    var x := Last(s);
    assert HopOk(s, x);
    var j := ExitData(z, s, dialOk);
    CarriesBounds(z, s, x);
    DataAfterRequests(z, s, x);
    AboveExact(z, s, x, dialOk);
    var s1 := HandleAbove(z, s, x, dialOk);
    assert s1.hist[x].peeled == if Opens(s.hops[x], s.down[x][0]) then s.hist[x].peeled + 1 else s.hist[x].peeled;
    assert DownExact(s.hist) ==> s.hist[x].peeled == s.hist[x].fromAbove;
    assert s1.hops[x] == ReplyAbove(z, s, x, dialOk).hop;
  }

  lemma AboveExitOther(z: Sizes, s: State, dialOk: bool)
    requires Shape(s) && DownOk(z, s) && ExitOk(s) && z.Valid() && Handles(s, Last(s)) && !s.down[Last(s)][0].Data?
    ensures ExitOk(HandleAbove(z, s, Last(s), dialOk))
  {
    hide Handle, Carries, Item, Wrap, Inc, DownExact;
    var x, c := Last(s), s.down[Last(s)][0];
    assert HopOk(s, x);
    CarriesBounds(z, s, x);
    AboveExact(z, s, x, dialOk);
    var s1 := HandleAbove(z, s, x, dialOk);
    assert s1.hops[x] == ReplyAbove(z, s, x, dialOk).hop;
    assert s1.hist[x].peeled == s.hist[x].peeled;
    if IsRequest(c) {
      ExitRequest(z, s, dialOk);
      NoDataBeforeRequest(z, s, x);
      WrapZero();
    } else {
      OtherCell(z, s.hops[x], c, EnvOf(s, x, dialOk));
    }
  }

  lemma AboveExit(z: Sizes, s: State, i: nat, dialOk: bool)
    requires Shape(s) && DownOk(z, s) && ExitOk(s) && z.Valid() && Handles(s, i)
    ensures ExitOk(HandleAbove(z, s, i, dialOk))
  {
    hide Handle, Carries, Item, Wrap, Inc, HopOk, LinkOk, ClientOk, DownExact;
    AboveExact(z, s, i, dialOk);
    var c := s.down[i][0];
    if i == Last(s) {
      if c.Data? {
        AboveExitData(z, s, dialOk);
      } else {
        AboveExitOther(z, s, dialOk);
      }
    } else if c.Data? {
      var _ := MiddleData(z, s, i, dialOk);
    } else if IsRequest(c) {
      MiddleRequest(z, s, i, dialOk);
    } else {
      OtherCell(z, s.hops[i], c, EnvOf(s, i, dialOk));
    }
  }

  lemma WrapZero()
    ensures Wrap(0) == 0
  {
  }

  /** As long as DATA is exact, a relay sends a DATA cell up in answer to one from above only by turning that cell back. */
  lemma AboveAnswers(z: Sizes, s: State, i: nat, dialOk: bool)
    requires Shape(s) && DownOk(z, s) && z.Valid() && Handles(s, i)
    ensures forall c :: c in ReplyAbove(z, s, i, dialOk).up ==> UpCell(s, i, c)
    ensures forall c :: c in ReplyAbove(z, s, i, dialOk).up && c.Data? && DownExact(s.hist) ==>
      && Upward(s.path, s.read, i, c.blob)
      && s.down[i][0].Data? && i < Last(s) && ReplyAbove(z, s, i, dialOk).down == []
  {
    hide Handle, CounterNonce;
    assert HopOk(s, i);
    var c, r := s.down[i][0], ReplyAbove(z, s, i, dialOk);
    if i == Last(s) {
      LastCell(z, s, dialOk);
    } else if c.Data? {
      var j := MiddleData(z, s, i, dialOk);
    } else if IsRequest(c) {
      MiddleRequest(z, s, i, dialOk);
    } else {
      OtherCell(z, s.hops[i], c, EnvOf(s, i, dialOk));
      assert forall d :: d in r.up ==> d in r.up + r.down;
    }
  }

  lemma AboveUp(z: Sizes, s: State, i: nat, dialOk: bool)
    requires Shape(s) && DownOk(z, s) && UpOk(s) && z.Valid() && Handles(s, i)
    ensures UpOk(HandleAbove(z, s, i, dialOk))
  {
    hide Handle, Carries, HopOk, LinkOk, ClientOk, Upward, DownExact;
    var s1, r := HandleAbove(z, s, i, dialOk), ReplyAbove(z, s, i, dialOk);
    AboveAnswers(z, s, i, dialOk);
    AboveExact(z, s, i, dialOk);
    forall j, c | 0 <= j < |s.path| && c in s1.up[j]
      ensures UpCell(s1, j, c)
      ensures DownExact(s1.hist) && c.Data? ==> Upward(s1.path, s1.read, j, c.blob)
    {
      assert j != i ==> s1.up[j] == s.up[j];
      assert j == i ==> s1.up[i] == s.up[i] + r.up;
      assert c in s.up[j] || (j == i && c in r.up);
      assert UpCell(s, j, c);
    }
  }

  lemma AboveInStepHere(z: Sizes, s: State, i: nat, dialOk: bool)
    requires Shape(s) && DownOk(z, s) && ExitOk(s) && z.Valid() && Handles(s, i) && InStepAt(s, i) && DownExact(s.hist)
    requires !HandleAbove(z, s, i, dialOk).lost
    ensures InStepAt(HandleAbove(z, s, i, dialOk), i)
  {
    hide Handle, Item, Wrap, Inc, LinkOk, ClientOk, Carries, Upward, DownExact;
    var s1, r := HandleAbove(z, s, i, dialOk), ReplyAbove(z, s, i, dialOk);
    AboveAnswers(z, s, i, dialOk);
    AboveCounts(z, s, i, dialOk);
    NoDataPushed(s.path, s.sid, s.read, i, s.up[i], r.up, TakenUp(s, i), OfferedUp(s, i));
    assert s1.up[i] == s.up[i] + r.up && s1.hops[i] == r.hop;
    assert forall c :: c in r.up ==> !c.Data?;
    assert s1.hist[i].peeled == s1.hist[i].fromAbove;
    assert TakenUp(s1, i) == TakenUp(s, i) && OfferedUp(s1, i) == OfferedUp(s, i);
  }

  lemma AboveInStep(z: Sizes, s: State, i: nat, dialOk: bool)
    requires Shape(s) && DownOk(z, s) && ExitOk(s) && InStep(s) && z.Valid() && Handles(s, i)
    ensures InStep(HandleAbove(z, s, i, dialOk))
  {
    hide Handle, Item, Wrap, Inc, DownOk, ExitOk, Carries;
    var s1 := HandleAbove(z, s, i, dialOk);
    if !s1.lost {
      InStepExact(s);
      forall j | 0 <= j < |s.path|
        ensures InStepAt(s1, j)
      {
        assert InStepAt(s, j);
        if j == i {
          AboveInStepHere(z, s, i, dialOk);
        } else {
          assert s1.up[j] == s.up[j] && s1.hops[j] == s.hops[j] && s1.hist[j] == s.hist[j];
          assert TakenUp(s1, j) == TakenUp(s, j) && OfferedUp(s1, j) == OfferedUp(s, j);
        }
      }
    }
  }

  /** While nothing is lost, DATA is exact. */
  lemma InStepExact(s: State)
    requires Shape(s) && InStep(s) && !s.lost
    ensures DownExact(s.hist) && UpExact(s.read, s.lost)
  {
    forall i | 0 <= i < |s.hist|
      ensures s.hist[i].peeled == s.hist[i].fromAbove
    {
      assert InStepAt(s, i);
    }
  }

  /** Unless a DATA cell was turned back, the step leaves the upward counter alone, and every DATA cell it took opened. */
  lemma AboveCounts(z: Sizes, s: State, i: nat, dialOk: bool)
    requires Shape(s) && DownOk(z, s) && ExitOk(s) && z.Valid() && Handles(s, i) && DownExact(s.hist)
    requires !HandleAbove(z, s, i, dialOk).lost
    ensures s.down[i][0].Data? ==> Opens(s.hops[i], s.down[i][0])
    ensures ReplyAbove(z, s, i, dialOk).hop.up == s.hops[i].up
  {
    hide Handle, Carries, Item, HopOk, LinkOk, ClientOk, DownExact, Wrap;
    var c := s.down[i][0];
    if i == Last(s) {
      if c.Data? {
        var j := ExitData(z, s, dialOk);
      } else if IsRequest(c) {
        RequestKeepsUp(z, s, dialOk);
      } else {
        OtherCell(z, s.hops[i], c, EnvOf(s, i, dialOk));
      }
    } else if c.Data? {
      var _ := MiddleData(z, s, i, dialOk);
    } else if IsRequest(c) {
      MiddleRequest(z, s, i, dialOk);
    } else {
      OtherCell(z, s.hops[i], c, EnvOf(s, i, dialOk));
    }
  }

  /** The upward counter that a CONNECT starts afresh is 0 already. */
  lemma RequestKeepsUp(z: Sizes, s: State, dialOk: bool)
    requires Shape(s) && DownOk(z, s) && ExitOk(s) && Handles(s, Last(s)) && IsRequest(s.down[Last(s)][0]) && DownExact(s.hist)
    ensures ReplyAbove(z, s, Last(s), dialOk).hop.up == s.hops[Last(s)].up
  {
    hide Handle, Carries;
    ExitRequest(z, s, dialOk);
    NoDataBeforeRequest(z, s, Last(s));
    WrapZero();
  }

  lemma NoDataPushed(path: Path, sid: uint16, read: seq<Msg>, i: nat, q: seq<Cell>, more: seq<Cell>, from: nat, to: nat)
    requires i <= |path| && Carries(path, sid, DataKind, read, i, q, from, to)
    ensures (forall c :: c in more ==> !c.Data?) ==> Carries(path, sid, DataKind, read, i, q + more, from, to)
  {
    SelectAppend(DataKind, q, more);
    SelectNone(DataKind, more);
  }

  /** A relay that tears down tells the next one, as long as there is one. */
  lemma KillGoesDown(z: Sizes, h: Hop, c: Cell, env: Env)
    requires z.Valid() && h.alive && IsKill(c) && h.hasDown && env.downOpen
    ensures var r := Handle(z, h, c, env); |r.down| == 1 && IsKill(r.down[0])
  {
  }

  lemma AboveTorn(z: Sizes, s: State, i: nat, dialOk: bool)
    requires Shape(s) && DownOk(z, s) && TornOk(s) && z.Valid() && Handles(s, i)
    ensures TornOk(HandleAbove(z, s, i, dialOk))
  {
    hide Handle, Carries, Item, Wrap, Inc, LinkOk, ClientOk;
    var s1, c, r := HandleAbove(z, s, i, dialOk), s.down[i][0], ReplyAbove(z, s, i, dialOk);
    assert HopOk(s, i);
    forall j | 0 < j < |s.path| && s1.hist[j - 1].torn
      ensures s1.hist[j].torn || s1.hist[j].expired || HasKill(s1.down[j])
    {
      if j - 1 == i {
        assert s1.down[j] == s.down[j] + r.down;
        if IsKill(c) {
          KillGoesDown(z, s.hops[i], c, EnvOf(s, i, dialOk));
          assert s1.down[j][|s.down[j]|] == r.down[0];
        }
      } else {
        assert s.hist[j - 1].torn;
        if j == i && HasKill(s.down[j]) && !IsKill(c) {
          var p :| 0 <= p < |s.down[j]| && IsKill(s.down[j][p]);
          assert s1.down[j][p - 1] == s.down[j][p];
        }
      }
    }
  }

  lemma AboveKeeps(z: Sizes, s: State, i: nat, dialOk: bool)
    requires Inv(z, s) && z.Valid() && Handles(s, i)
    ensures Inv(z, HandleAbove(z, s, i, dialOk))
  {
    hide Handle, HandleAbove, DownOk, ExitOk, UpOk, InStep, TornOk;
    AboveDown(z, s, i, dialOk);
    AboveExit(z, s, i, dialOk);
    AboveUp(z, s, i, dialOk);
    AboveInStep(z, s, i, dialOk);
    AboveTorn(z, s, i, dialOk);
  }
}

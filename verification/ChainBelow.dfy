/** A relay handling a cell that came from the relay below it. */
module ChainBelow {
  import opened MachineInts
  import opened Nonces
  import opened Wrappers
  import opened Onion
  import opened RelaySpec
  import opened ClientSpec
  import opened Chain
  import opened ChainLinks
  import opened ChainInvariant
  import opened ChainAbove
  import opened ChainAboveKeeps

  ghost predicate Relays(s: State, i: nat)
    requires Shape(s)
  {
    i < Last(s) && s.hops[i].alive && s.up[i + 1] != []
  }

  /** A DATA cell from below never opens, whatever the counters are: it is outermost under another relay's key. So
      trial decryption always tells it from a cell of the client. */
  lemma NeverOpensFromBelow(z: Sizes, s: State, i: nat, dialOk: bool)
    requires Shape(s) && DistinctKeys(s.path) && DownOk(z, s) && UpOk(s) && Relays(s, i) && s.up[i + 1][0].Data?
    ensures !Opens(s.hops[i], s.up[i + 1][0])
    ensures var h, c, r := s.hops[i], s.up[i + 1][0], ReplyBelow(z, s, i, dialOk);
      && r.hop == h.(data := Inc(h.data), up := Inc(h.up)) && r.down == [] && r.wrote == None && r.loop == None
      && r.up == SendIf(z, true, Data(s.sid, AESSeal(h.key, CounterNonce(h.base, h.up), c.blob)))
  {
    assert HopOk(s, i) && UpCell(s, i + 1, s.up[i + 1][0]);
    assert s.path[i].key != s.path[i + 1].key;
  }

  /** The three kinds of reply to a cell from below. */
  lemma BelowReply(z: Sizes, s: State, i: nat, dialOk: bool)
    requires Shape(s) && DistinctKeys(s.path) && DownOk(z, s) && UpOk(s) && Relays(s, i)
    ensures var h, c, r := s.hops[i], s.up[i + 1][0], ReplyBelow(z, s, i, dialOk);
      && !IsRequest(c) && r.wrote == None && r.loop == None && |r.down| <= 1
      && r.hop.key == h.key && r.hop.base == h.base && r.hop.begin == h.begin && r.hop.hasDown == h.hasDown && r.hop.hidden == h.hidden
      && r.hop.alive == !IsKill(c)
      && r.hop.data == (if c.Data? then Inc(h.data) else h.data)
      && r.hop.up == (if c.Data? then Inc(h.up) else h.up)
      && (forall d :: d in r.down ==> !d.Data? && !IsRequest(d))
      && (IsKill(c) ==> r.hop.streams == {})
      && (forall d :: d in r.up ==> (d.Data? || d.BeginAck?) && (d.Data? ==> c.Data?))
  {
    assert HopOk(s, i) && UpCell(s, i + 1, s.up[i + 1][0]);
    var c, r := s.up[i + 1][0], ReplyBelow(z, s, i, dialOk);
    if c.Data? {
      NeverOpensFromBelow(z, s, i, dialOk);
    } else {
      OtherCell(z, s.hops[i], c, EnvOf(s, i, dialOk));
      assert forall d :: d in r.up || d in r.down ==> d in r.up + r.down;
    }
  }

  lemma BelowHop(z: Sizes, s: State, i: nat, dialOk: bool)
    requires Shape(s) && DistinctKeys(s.path) && DownOk(z, s) && UpOk(s) && Relays(s, i)
    ensures HopOk(HandleBelow(z, s, i, dialOk), i)
  {
    hide Handle, Wrap, Inc, Carries, LinkOk, DownExact;
    assert HopOk(s, i);
    BelowReply(z, s, i, dialOk);
    BelowExact(z, s, i, dialOk);
    IncWrap(s.hist[i].fromAbove + s.hist[i].fromBelow);
    var s1 := HandleBelow(z, s, i, dialOk);
    assert s1.hops[i] == ReplyBelow(z, s, i, dialOk).hop;
  }

  /** Exactness is never gained by a cell from below either. */
  lemma BelowExact(z: Sizes, s: State, i: nat, dialOk: bool)
    requires Shape(s) && DownOk(z, s) && Relays(s, i)
    ensures DownExact(HandleBelow(z, s, i, dialOk).hist) ==> DownExact(s.hist)
  {
    hide Handle, LinkOk, ClientOk, DownExact;
    var s1 := HandleBelow(z, s, i, dialOk);
    forall j | 0 <= j < |s.path|
      ensures s.hist[j].fromBelow <= s1.hist[j].fromBelow && s.hist[j].peeled <= s.hist[j].fromAbove
      ensures s.hist[j].fromAbove - s.hist[j].peeled == s1.hist[j].fromAbove - s1.hist[j].peeled
    {
      assert HopOk(s, j);
    }
    ExactBack(s.hist, s1.hist);
  }

  lemma BelowLink(z: Sizes, s: State, i: nat, dialOk: bool)
    requires Shape(s) && DistinctKeys(s.path) && DownOk(z, s) && UpOk(s) && Relays(s, i)
    ensures LinkOk(HandleBelow(z, s, i, dialOk), i + 1)
  {
    hide Handle, Carries, HopOk, SomeItem, DownExact, RequestsFirst;
    assert LinkOk(s, i + 1);
    var s1, q, r := HandleBelow(z, s, i, dialOk), s.down[i + 1], ReplyBelow(z, s, i, dialOk);
    BelowReply(z, s, i, dialOk);
    BelowExact(z, s, i, dialOk);
    assert s1.down[i + 1] == q + r.down && s1.hist[i + 1] == s.hist[i + 1];
    assert OfferedData(s1, i + 1) == OfferedData(s, i + 1) && OfferedRequests(s1, i + 1) == OfferedRequests(s, i + 1);
    if r.down == [] {
      assert q + r.down == q;
    } else {
      var d := r.down[0];
      assert r.down == [d] && d in r.down;
      if DownExact(s.hist) {
        CarriesPush(s.path, s.sid, DataKind, s.sent, i + 1, q, s.hist[i + 1].fromAbove, OfferedData(s, i + 1), d);
      }
      SelectPush(DataKind, q, d);
      assert forall c :: c in s1.down[i + 1] ==> c in q || c == d;
      CarriesPush(s.path, s.sid, RequestKind, s.requested, i + 1, q, s.hist[i + 1].requests, OfferedRequests(s, i + 1), d);
      RequestsFirstPush(q, d);
    }
  }

  lemma BelowDown(z: Sizes, s: State, i: nat, dialOk: bool)
    requires Shape(s) && DistinctKeys(s.path) && DownOk(z, s) && UpOk(s) && Relays(s, i)
    ensures DownOk(z, HandleBelow(z, s, i, dialOk))
  {
    hide Handle, Carries, SomeItem, DownExact, RequestsFirst, Upward;
    var s1 := HandleBelow(z, s, i, dialOk);
    BelowReply(z, s, i, dialOk);
    BelowExact(z, s, i, dialOk);
    forall j | 0 <= j < |s.path|
      ensures HopOk(s1, j)
    {
      assert HopOk(s, j);
      if j == i {
        BelowHop(z, s, i, dialOk);
      }
    }
    forall j | 0 <= j < |s.path|
      ensures LinkOk(s1, j)
    {
      assert LinkOk(s, j);
      if j == i + 1 {
        BelowLink(z, s, i, dialOk);
      } else {
        assert s1.down[j] == s.down[j];
        assert s1.hist[j].fromAbove == s.hist[j].fromAbove && s1.hist[j].requests == s.hist[j].requests;
        assert OfferedData(s1, j) == OfferedData(s, j) && OfferedRequests(s1, j) == OfferedRequests(s, j);
      }
    }
  }

  lemma BelowExit(z: Sizes, s: State, i: nat, dialOk: bool)
    requires Shape(s) && DistinctKeys(s.path) && DownOk(z, s) && UpOk(s) && ExitOk(s) && Relays(s, i)
    ensures ExitOk(HandleBelow(z, s, i, dialOk))
  {
    hide Handle, Carries, HopOk, LinkOk, Wrap, DownExact;
    BelowReply(z, s, i, dialOk);
    BelowExact(z, s, i, dialOk);
  }

  lemma BelowUp(z: Sizes, s: State, i: nat, dialOk: bool)
    requires Shape(s) && DistinctKeys(s.path) && DownOk(z, s) && UpOk(s) && Relays(s, i)
    ensures UpOk(HandleBelow(z, s, i, dialOk))
  {
    hide Handle, Carries, LinkOk, ClientOk, DownExact, CounterNonce;
    var s1, r := HandleBelow(z, s, i, dialOk), ReplyBelow(z, s, i, dialOk);
    BelowReply(z, s, i, dialOk);
    BelowExact(z, s, i, dialOk);
    assert HopOk(s, i) && UpCell(s, i + 1, s.up[i + 1][0]);
    if s.up[i + 1][0].Data? {
      NeverOpensFromBelow(z, s, i, dialOk);
    }
    assert s1.up[i] == s.up[i] + r.up && s1.up[i + 1] == s.up[i + 1][1..];
    forall j, c | 0 <= j < |s.path| && c in s1.up[j]
      ensures UpCell(s1, j, c)
      ensures DownExact(s1.hist) && c.Data? ==> Upward(s1.path, s1.read, j, c.blob)
    {
      if c in s.up[j] {
        assert UpCell(s, j, c);
      } else {
        assert j == i && c in r.up;
      }
    }
  }

  /** In step, a relay turns its lower neighbour's next chunk into its own next one. */
  lemma BelowInStepLinks(z: Sizes, s: State, i: nat, dialOk: bool)
    requires Shape(s) && DistinctKeys(s.path) && DownOk(z, s) && UpOk(s) && Relays(s, i)
    requires InStepAt(s, i) && InStepAt(s, i + 1) && !HandleBelow(z, s, i, dialOk).lost
    ensures InStepAt(HandleBelow(z, s, i, dialOk), i) && InStepAt(HandleBelow(z, s, i, dialOk), i + 1)
  {
    hide Handle, Carries, LinkOk, ClientOk, Wrap, Inc, Upward, DownExact;
    var s1, c, r, k := HandleBelow(z, s, i, dialOk), s.up[i + 1][0], ReplyBelow(z, s, i, dialOk), s.hist[i].fromBelow;
    BelowReply(z, s, i, dialOk);
    assert HopOk(s, i);
    assert s1.up[i] == s.up[i] + r.up && s1.up[i + 1] == s.up[i + 1][1..];
    assert s1.hops[i] == r.hop && s1.hops[i + 1] == s.hops[i + 1] && s1.hist[i + 1] == s.hist[i + 1];
    CarriesPop(s.path, s.sid, DataKind, s.read, i + 1, s.up[i + 1], k, OfferedUp(s, i + 1));
    IncWrap(k);
    if c.Data? {
      NeverOpensFromBelow(z, s, i, dialOk);
      var d := Data(s.sid, AESSeal(s.hops[i].key, CounterNonce(s.hops[i].base, s.hops[i].up), c.blob));
      assert r.up == [d];
      assert d == Item(s.path, s.sid, DataKind, i, k, s.read[k]);
      CarriesPush(s.path, s.sid, DataKind, s.read, i, s.up[i], TakenUp(s, i), k, d);
    } else {
      NoDataPushed(s.path, s.sid, s.read, i, s.up[i], r.up, TakenUp(s, i), k);
    }
  }

  lemma BelowInStep(z: Sizes, s: State, i: nat, dialOk: bool)
    requires Shape(s) && DistinctKeys(s.path) && DownOk(z, s) && UpOk(s) && InStep(s) && Relays(s, i)
    ensures InStep(HandleBelow(z, s, i, dialOk))
  {
    hide Handle, Carries, DownOk, Wrap, Inc, UpOk;
    var s1 := HandleBelow(z, s, i, dialOk);
    if !s1.lost {
      assert InStepAt(s, i) && InStepAt(s, i + 1);
      BelowInStepLinks(z, s, i, dialOk);
      forall j | 0 <= j < |s.path|
        ensures InStepAt(s1, j)
      {
        assert InStepAt(s, j);
        if j != i && j != i + 1 {
          assert s1.up[j] == s.up[j] && s1.hops[j] == s.hops[j] && s1.hist[j] == s.hist[j];
          assert TakenUp(s1, j) == TakenUp(s, j) && OfferedUp(s1, j) == OfferedUp(s, j);
        }
      }
    }
  }

  lemma BelowTorn(z: Sizes, s: State, i: nat, dialOk: bool)
    requires Shape(s) && DistinctKeys(s.path) && DownOk(z, s) && UpOk(s) && TornOk(s) && z.Valid() && Relays(s, i)
    ensures TornOk(HandleBelow(z, s, i, dialOk))
  {
    hide Handle, Carries, LinkOk, ClientOk, Upward;
    var s1, c, r := HandleBelow(z, s, i, dialOk), s.up[i + 1][0], ReplyBelow(z, s, i, dialOk);
    assert HopOk(s, i);
    assert s1.down[i + 1] == s.down[i + 1] + r.down;
    forall j | 0 < j < |s.path| && s1.hist[j - 1].torn
      ensures s1.hist[j].torn || s1.hist[j].expired || HasKill(s1.down[j])
    {
      if j - 1 == i {
        assert IsKill(c);
        KillGoesDown(z, s.hops[i], c, EnvOf(s, i, dialOk));
        assert s1.down[j][|s.down[j]|] == r.down[0];
      } else {
        assert s.hist[j - 1].torn;
        assert s1.down[j] == s.down[j];
      }
    }
  }

  lemma BelowKeeps(z: Sizes, s: State, i: nat, dialOk: bool)
    requires Inv(z, s) && z.Valid() && Relays(s, i)
    ensures Inv(z, HandleBelow(z, s, i, dialOk))
  {
    hide Handle, HandleBelow, DownOk, ExitOk, UpOk, InStep, TornOk;
    BelowDown(z, s, i, dialOk);
    BelowExit(z, s, i, dialOk);
    BelowUp(z, s, i, dialOk);
    BelowInStep(z, s, i, dialOk);
    BelowTorn(z, s, i, dialOk);
  }
}

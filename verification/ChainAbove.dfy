/** A relay handling a cell that came from the client's side. */
module ChainAbove {
  import opened MachineInts
  import opened Nonces
  import opened Wrappers
  import opened Onion
  import opened RelaySpec
  import opened ClientSpec
  import opened Chain
  import opened ChainFrames
  import opened ChainLinks
  import opened ChainInvariant

  ghost predicate Handles(s: State, i: nat)
    requires Shape(s)
  {
    i < |s.path| && s.hops[i].alive && s.down[i] != []
  }

  /** An item that was small enough for the client's cell is small enough at every hop on the way down. */
  lemma ItemFits(z: Sizes, s: State, kind: Kind, i: nat, j: nat)
    requires Shape(s) && z.Valid() && ClientOk(z, s) && i <= |s.path|
    requires j < if kind.DataKind? then |s.sent| else |s.requested|
    ensures Fits(z, Item(s.path, s.sid, kind, i, j, if kind.DataKind? then s.sent[j] else s.requested[j]))
  {
    var m := if kind.DataKind? then s.sent[j] else s.requested[j];
    LayersLength(z, s.path, i, j, m);
    if kind.DataKind? {
      var big, small := MsgLen(z, m) + TAG_SIZE * |s.path|, MsgLen(z, m) + TAG_SIZE * (|s.path| - i);
      assert small <= big;
      assert z.data(s.sid, small) <= z.data(s.sid, big);
    }
  }

  /** The next DATA cell from above is one of the client's chunks under the remaining layers. As long as DATA is exact it
      is chunk number fromAbove, and it opens exactly when the relay has handled a multiple of 2^64 cells from below. */
  lemma NextData(z: Sizes, s: State, i: nat) returns (j: nat)
    requires Shape(s) && DownOk(z, s) && Handles(s, i) && s.down[i][0].Data?
    ensures s.hist[i].fromAbove < OfferedData(s, i) && OfferedData(s, i) <= |s.sent|
    ensures j < |s.sent| && s.down[i][0] == Item(s.path, s.sid, DataKind, i, j, s.sent[j])
    ensures DownExact(s.hist) ==>
      j == s.hist[i].fromAbove && (Opens(s.hops[i], s.down[i][0]) <==> s.hist[i].fromBelow % TWO_TO_64 == 0)
  {
    assert HopOk(s, i) && LinkOk(s, i);
    var t, c := s.hist[i], s.down[i][0];
    assert Select(DataKind, s.down[i]) != [];
    if DownExact(s.hist) {
      CarriesPop(s.path, s.sid, DataKind, s.sent, i, s.down[i], t.fromAbove, OfferedData(s, i));
      OpensExactly(s.hops[i], c, t.fromAbove, t.fromBelow);
      j := t.fromAbove;
    } else {
      assert SomeItem(s.path, s.sid, s.sent, i, c);
      j :| 0 <= j < |s.sent| && c == Item(s.path, s.sid, DataKind, i, j, s.sent[j]);
    }
  }

  lemma OpensExactly(h: Hop, c: Cell, a: nat, b: nat)
    requires c.Data? && c.blob.Sealed? && c.blob.key == h.key && c.blob.nonce == CounterNonce(h.base, Wrap(a))
    requires h.data == Wrap(a + b)
    ensures Opens(h, c) <==> b % TWO_TO_64 == 0
  {
    hide CounterNonce, Wrap;
    CounterNonceInjective(h.base, Wrap(a), Wrap(a + b));
    SameCounter(a, b);
  }

  lemma SameCounter(a: nat, b: nat)
    ensures Wrap(a) == Wrap(a + b) <==> b % TWO_TO_64 == 0
  {
    var q, p := a / TWO_TO_64, (a + b) / TWO_TO_64;
    assert a == q * TWO_TO_64 + Wrap(a) && a + b == p * TWO_TO_64 + Wrap(a + b);
    if Wrap(a) == Wrap(a + b) {
      assert b == (p - q) * TWO_TO_64;
    }
    if b % TWO_TO_64 == 0 {
      assert b == (b / TWO_TO_64) * TWO_TO_64;
    }
  }

  lemma NextRequest(z: Sizes, s: State, i: nat)
    requires Shape(s) && DownOk(z, s) && Handles(s, i) && IsRequest(s.down[i][0])
    ensures s.hist[i].requests < OfferedRequests(s, i) && OfferedRequests(s, i) <= |s.requested|
    ensures s.down[i][0] == Item(s.path, s.sid, RequestKind, i, s.hist[i].requests, s.requested[s.hist[i].requests])
    ensures s.down[i][0].request.Sealed?
         && s.down[i][0].request.key == s.hops[i].key
         && s.down[i][0].request.nonce == CounterNonce(s.hops[i].base, s.hops[i].begin)
  {
    assert HopOk(s, i) && LinkOk(s, i);
    CarriesPop(s.path, s.sid, RequestKind, s.requested, i, s.down[i], s.hist[i].requests, OfferedRequests(s, i));
  }

  /** A middle relay passes the cell on with one layer less, or (if upward traffic has moved its counter) turns it back. */
  lemma MiddleData(z: Sizes, s: State, i: nat, dialOk: bool) returns (j: nat)
    requires Shape(s) && z.Valid() && DownOk(z, s) && Handles(s, i) && s.down[i][0].Data? && i < Last(s)
    ensures j < |s.sent| && s.down[i][0] == Item(s.path, s.sid, DataKind, i, j, s.sent[j])
    ensures DownExact(s.hist) ==> j == s.hist[i].fromAbove
    ensures var h, c, r := s.hops[i], s.down[i][0], ReplyAbove(z, s, i, dialOk);
      && r.wrote == None && r.loop == None
      && if Opens(h, c) then
           && r.hop == h.(data := Inc(h.data), served := true) && r.up == []
           && r.down == [Item(s.path, s.sid, DataKind, i + 1, j, s.sent[j])]
         else
           && r.hop == h.(data := Inc(h.data), up := Inc(h.up)) && r.down == []
           && r.up == SendIf(z, true, Data(s.sid, AESSeal(h.key, CounterNonce(h.base, h.up), c.blob)))
  {
    j := NextData(z, s, i);
    assert HopOk(s, i);
    ItemFits(z, s, DataKind, i + 1, j);
  }

  lemma MiddleRequest(z: Sizes, s: State, i: nat, dialOk: bool)
    requires Shape(s) && z.Valid() && DownOk(z, s) && Handles(s, i) && IsRequest(s.down[i][0]) && i < Last(s)
    ensures s.hist[i].requests < |s.requested|
    ensures var h, r, j := s.hops[i], ReplyAbove(z, s, i, dialOk), s.hist[i].requests;
      && r.wrote == None && r.loop == None && r.up == []
      && r.hop == h.(begin := Inc(h.begin), served := true)
      && r.down == [Item(s.path, s.sid, RequestKind, i + 1, j, s.requested[j])]
  {
    NextRequest(z, s, i);
    assert HopOk(s, i);
    ItemFits(z, s, RequestKind, i + 1, s.hist[i].requests);
  }

  /** What the reply leaves alone for a cell that is neither DATA, BEGIN nor CONNECT, whichever side it came from. */
  lemma OtherCell(z: Sizes, h: Hop, c: Cell, env: Env)
    requires !c.Data? && !IsRequest(c)
    ensures var r := Handle(z, h, c, env);
      && r.wrote == None && r.loop == None
      && r.hop.(served := h.served, alive := h.alive, streams := h.streams) == h
      && r.hop.alive == (h.alive && !IsKill(c)) && r.hop.streams <= h.streams
      && (IsKill(c) && h.alive ==> r.hop.streams == {})
      && (forall d :: d in r.up + r.down ==> !d.Data? && !IsRequest(d))
      && (forall d :: d in r.up ==> d.BeginAck?)
      && |r.up| + |r.down| <= 1
  {
  }

  /** At the last relay nothing goes down to another relay; what goes up is an acknowledgement or a DESTROY, and only if
      DATA is no longer exact a cell turned back. */
  lemma LastCell(z: Sizes, s: State, dialOk: bool)
    requires Shape(s) && DownOk(z, s) && Handles(s, Last(s))
    ensures var h, c, r := s.hops[Last(s)], s.down[Last(s)][0], ReplyAbove(z, s, Last(s), dialOk);
      && r.hop.key == h.key && r.hop.base == h.base
      && r.hop.begin == (if IsRequest(c) then Inc(h.begin) else h.begin)
      && r.hop.data == (if c.Data? then Inc(h.data) else h.data)
      && r.hop.hasDown == r.hop.hidden
      && r.hop.alive == !IsKill(c)
      && (IsKill(c) ==> r.hop.streams == {})
      && (forall d :: d in r.up ==>
            d.BeginAck? || d.Destroy? || (!DownExact(s.hist) && d.Data? && d.sid == s.sid && d.blob.Sealed? && d.blob.key == h.key))
  {
    hide Handle, Opens, CounterNonce;
    assert HopOk(s, Last(s)) && s.sid != 0;
    var c, env := s.down[Last(s)][0], EnvOf(s, Last(s), dialOk);
    if c.Data? {
      var j := NextData(z, s, Last(s));
      LastData(z, s.hops[Last(s)], c, env);
    } else if IsRequest(c) {
      NextRequest(z, s, Last(s));
      LastRequest(z, s.hops[Last(s)], c, env);
    } else {
      OtherCell(z, s.hops[Last(s)], c, env);
    }
  }

  /** BEGIN or CONNECT that opens, at a relay with no other relay below it. */
  lemma LastRequest(z: Sizes, h: Hop, c: Cell, env: Env)
    requires h.alive && h.hasDown == h.hidden && IsRequest(c) && AESOpen(h.key, CounterNonce(h.base, h.begin), c.request).Some?
    ensures var r := Handle(z, h, c, env);
      && r.hop.key == h.key && r.hop.base == h.base && r.hop.begin == Inc(h.begin) && r.hop.data == h.data
      && r.hop.hasDown == r.hop.hidden && r.hop.alive && (r.hop.up == h.up || r.hop.up == 0) && r.wrote == None
      && (forall d :: d in r.up ==> d.BeginAck? || d.Destroy?)
      && (r.loop.Some? || r.hop.streams != h.streams ==>
            c.Begin? && c.request.inner.Plain? && c.request.inner.msg.BeginDto?
            && r.hop.streams <= h.streams + {c.request.inner.msg.sid})
  {
    hide CounterNonce;
  }

  /** DATA with this relay's layer outermost, at a relay with no other relay below it. */
  lemma LastData(z: Sizes, h: Hop, c: Cell, env: Env)
    requires h.alive && h.hasDown == h.hidden && c.Data? && c.sid != 0 && c.blob.Sealed? && c.blob.key == h.key
    ensures var r := Handle(z, h, c, env);
      && r.hop.(data := h.data, up := h.up, streams := h.streams) == h && r.hop.data == Inc(h.data) && r.hop.streams <= h.streams
      && r.loop == None && r.down == []
      && (Opens(h, c) ==> r.hop.up == h.up && forall d :: d in r.up ==> d.Destroy?)
      && (!Opens(h, c) ==> r.wrote == None && r.hop.streams == h.streams)
      && (forall d :: d in r.up ==>
            d.Destroy? || (!Opens(h, c) && d.Data? && d.sid == c.sid && d.blob.Sealed? && d.blob.key == h.key))
      && (r.wrote.Some? ==> Opens(h, c) && r.wrote.value == c.blob.inner)
      && (Opens(h, c) ==>
            if env.writeOk && (h.hidden || c.sid in h.streams) then r.wrote == Some(c.blob.inner) && r.hop.streams == h.streams
            else r.wrote == None && (!h.hidden && !env.writeOk ==> c.sid !in r.hop.streams))
  {
    hide CounterNonce;
  }

  // ---- what the step keeps, downwards ----

  lemma AboveHop(z: Sizes, s: State, i: nat, dialOk: bool)
    requires Shape(s) && DownOk(z, s) && z.Valid() && Handles(s, i)
    ensures HopOk(HandleAbove(z, s, i, dialOk), i)
  {
    hide Handle, Wrap, Inc, Carries, Item;
    assert HopOk(s, i);
    var c, t := s.down[i][0], s.hist[i];
    var s1 := HandleAbove(z, s, i, dialOk);
    assert s1.hops[i] == ReplyAbove(z, s, i, dialOk).hop;
    IncWrap(t.fromAbove + t.fromBelow);
    IncWrap(t.requests);
    AboveExact(z, s, i, dialOk);
    if c.Data? {
      var _ := NextData(z, s, i);
      DataAfterRequests(z, s, i);
    } else if IsRequest(c) {
      NextRequest(z, s, i);
      NoDataBeforeRequest(z, s, i);
    }
    if i == Last(s) {
      LastCell(z, s, dialOk);
    } else if c.Data? {
      var _ := MiddleData(z, s, i, dialOk);
    } else if IsRequest(c) {
      MiddleRequest(z, s, i, dialOk);
    } else {
      OtherCell(z, s.hops[i], c, EnvOf(s, i, dialOk));
    }
  }

  /** Exactness is never gained: a step that leaves DATA exact started from exact DATA. */
  lemma AboveExact(z: Sizes, s: State, i: nat, dialOk: bool)
    requires Shape(s) && DownOk(z, s) && Handles(s, i)
    ensures DownExact(HandleAbove(z, s, i, dialOk).hist) ==> DownExact(s.hist)
  {
    hide Handle, LinkOk, ClientOk, CounterNonce;
    var s1 := HandleAbove(z, s, i, dialOk);
    forall j | 0 <= j < |s.path|
      ensures s.hist[j].fromBelow == s1.hist[j].fromBelow && s.hist[j].peeled <= s.hist[j].fromAbove
      ensures s.hist[j].fromAbove - s.hist[j].peeled <= s1.hist[j].fromAbove - s1.hist[j].peeled
    {
      assert HopOk(s, j);
    }
    ExactBack(s.hist, s1.hist);
  }

  lemma ExactBack(before: seq<Hist>, after: seq<Hist>)
    requires |before| == |after|
    requires forall i :: 0 <= i < |before| ==>
      && before[i].fromBelow <= after[i].fromBelow && before[i].peeled <= before[i].fromAbove
      && before[i].fromAbove - before[i].peeled <= after[i].fromAbove - after[i].peeled
    ensures DownExact(after) ==> DownExact(before)
  {
  }

  lemma NoDataBeforeRequest(z: Sizes, s: State, i: nat)
    requires Shape(s) && DownOk(z, s) && Handles(s, i) && IsRequest(s.down[i][0])
    ensures s.hist[i].fromAbove == 0 && s.hist[i].requests < |s.requested|
  {
    assert HopOk(s, i);
    NextRequest(z, s, i);
  }

  /** By the time a relay sees DATA, every BEGIN and CONNECT of the circuit has passed it. */
  lemma DataAfterRequests(z: Sizes, s: State, i: nat)
    requires Shape(s) && DownOk(z, s) && Handles(s, i) && s.down[i][0].Data?
    ensures s.hist[i].requests == |s.requested|
  {
    assert HopOk(s, i) && LinkOk(s, i);
    var _ := NextData(z, s, i);
    RequestsFirstPop(s.down[i]);
    assert s.hist[i].requests == OfferedRequests(s, i);
    if i > 0 {
      assert HopOk(s, i - 1);
    }
  }

  lemma AboveLinkHere(z: Sizes, s: State, i: nat, dialOk: bool)
    requires Shape(s) && DownOk(z, s) && z.Valid() && Handles(s, i)
    ensures LinkOk(HandleAbove(z, s, i, dialOk), i)
  {
    hide Handle, Carries, SomeItem, HopOk;
    assert LinkOk(s, i);
    var s1 := HandleAbove(z, s, i, dialOk);
    AboveExact(z, s, i, dialOk);
    assert s1.down[i] == s.down[i][1..];
    if DownExact(s.hist) {
      CarriesPop(s.path, s.sid, DataKind, s.sent, i, s.down[i], s.hist[i].fromAbove, OfferedData(s, i));
    }
    CarriesPop(s.path, s.sid, RequestKind, s.requested, i, s.down[i], s.hist[i].requests, OfferedRequests(s, i));
    SelectPop(DataKind, s.down[i]);
    RequestsFirstPop(s.down[i]);
    assert OfferedData(s1, i) == OfferedData(s, i) && OfferedRequests(s1, i) == OfferedRequests(s, i);
    assert forall c :: c in s1.down[i] ==> c in s.down[i];
  }

  /** What the link to the next relay is given for the cell just handled. */
  lemma PassedOn(z: Sizes, s: State, i: nat, dialOk: bool)
    requires Shape(s) && DownOk(z, s) && z.Valid() && Handles(s, i) && i < Last(s)
    ensures var t, t1, r := s.hist[i], HandleAbove(z, s, i, dialOk).hist[i], ReplyAbove(z, s, i, dialOk);
      && t.peeled <= t.fromAbove <= |s.sent| && (t1.requests > t.requests ==> t.requests < |s.requested|)
      && (t1.peeled == t.peeled && t1.requests == t.requests ==>
            r.down == [] || exists d :: r.down == [d] && !d.Data? && !IsRequest(d))
      && (t1.peeled > t.peeled ==>
            && t1.peeled == t.peeled + 1 <= |s.sent| && t1.requests == t.requests && |r.down| == 1
            && r.down[0].Data? && SomeItem(s.path, s.sid, s.sent, i + 1, r.down[0])
            && (DownExact(s.hist) ==> r.down == [Item(s.path, s.sid, DataKind, i + 1, t.peeled, s.sent[t.peeled])]))
      && (t1.requests > t.requests ==>
            && t1.requests == t.requests + 1 && t1.peeled == t.peeled == 0
            && r.down == [Item(s.path, s.sid, RequestKind, i + 1, t.requests, s.requested[t.requests])])
      && t1.peeled >= t.peeled && t1.requests >= t.requests
  {
    hide Handle, Carries, Item;
    assert HopOk(s, i);
    var c, r := s.down[i][0], ReplyAbove(z, s, i, dialOk);
    CarriesBounds(z, s, i);
    if c.Data? {
      var j := MiddleData(z, s, i, dialOk);
      var _ := NextData(z, s, i);
      if Opens(s.hops[i], c) {
        KindOfItem(s, i + 1, r.down[0]);
        assert SomeItem(s.path, s.sid, s.sent, i + 1, r.down[0]);
        OpenedIsNext(z, s, i);
      }
    } else if IsRequest(c) {
      MiddleRequest(z, s, i, dialOk);
      NoDataBeforeRequest(z, s, i);
    } else {
      OtherCell(z, s.hops[i], c, EnvOf(s, i, dialOk));
      if r.down != [] {
        assert r.down[0] in r.up + r.down;
        assert r.down == [r.down[0]];
      }
    }
  }

  /** As long as DATA is exact, a cell that opens at a relay finds that the relay has peeled all before it. */
  lemma OpenedIsNext(z: Sizes, s: State, i: nat)
    requires Shape(s) && DownOk(z, s) && Handles(s, i) && s.down[i][0].Data? && Opens(s.hops[i], s.down[i][0])
    ensures DownExact(s.hist) ==> s.hist[i].peeled == s.hist[i].fromAbove
  {
    assert HopOk(s, i);
    var _ := NextData(z, s, i);
    hide Opens, LinkOk, ClientOk;
  }

  lemma CarriesBounds(z: Sizes, s: State, i: nat)
    requires Shape(s) && DownOk(z, s) && i < |s.path|
    ensures s.hist[i].peeled <= |s.sent| && s.hist[i].requests <= |s.requested|
    ensures s.hist[i].fromAbove <= OfferedData(s, i) <= |s.sent| && s.hist[i].requests <= OfferedRequests(s, i) <= |s.requested|
  {
    assert HopOk(s, i) && LinkOk(s, i);
  }

  /** A cell is of another kind, or is the next item of its kind. */
  ghost predicate NextOfKind(path: Path, sid: uint16, kind: Kind, log: seq<Msg>, i: nat, from: nat, to: nat, c: Cell)
    requires i <= |path|
  {
    (to == from && !OfKind(kind, c)) || (to == from + 1 && from < |log| && c == Item(path, sid, kind, i, from, log[from]))
  }

  lemma CarriesNext(path: Path, sid: uint16, kind: Kind, log: seq<Msg>, i: nat, q: seq<Cell>, from: nat, mid: nat, to: nat, c: Cell)
    requires i <= |path| && Carries(path, sid, kind, log, i, q, from, mid) && NextOfKind(path, sid, kind, log, i, mid, to, c)
    ensures Carries(path, sid, kind, log, i, q + [c], from, to)
  {
    CarriesPush(path, sid, kind, log, i, q, from, mid, c);
    hide Carries, Item;
  }

  /** What a relay passes on is the next request, the next DATA as long as DATA is exact, or neither. */
  lemma PassedOnKind(z: Sizes, s: State, i: nat, dialOk: bool, d: Cell)
    requires Shape(s) && DownOk(z, s) && z.Valid() && Handles(s, i) && i < Last(s) && ReplyAbove(z, s, i, dialOk).down == [d]
    ensures var t, t1 := s.hist[i], HandleAbove(z, s, i, dialOk).hist[i];
      && NextOfKind(s.path, s.sid, RequestKind, s.requested, i + 1, t.requests, t1.requests, d)
      && (DownExact(s.hist) ==> NextOfKind(s.path, s.sid, DataKind, s.sent, i + 1, t.peeled, t1.peeled, d))
      && t1.peeled == (if d.Data? then t.peeled + 1 else t.peeled) <= |s.sent|
      && (d.Data? ==> SomeItem(s.path, s.sid, s.sent, i + 1, d)) && (IsRequest(d) ==> t.peeled == 0)
  {
    PassedOn(z, s, i, dialOk);
    hide HandleAbove, ReplyAbove, DownOk, DownExact, Opens, Handle, Item, SomeItem;
    KindOfItem(s, i + 1, d);
  }

  lemma AboveLinkNext(z: Sizes, s: State, i: nat, dialOk: bool)
    requires Shape(s) && DownOk(z, s) && z.Valid() && Handles(s, i) && i < Last(s)
    ensures LinkOk(HandleAbove(z, s, i, dialOk), i + 1)
  {
    hide Handle, Item, HopOk, Carries, SomeItem;
    assert LinkOk(s, i + 1);
    var s1 := HandleAbove(z, s, i, dialOk);
    var q, r := s.down[i + 1], ReplyAbove(z, s, i, dialOk);
    assert s1.down[i + 1] == q + r.down;
    AboveFrame(z, s, i, dialOk);
    PassedOn(z, s, i, dialOk);
    AboveExact(z, s, i, dialOk);
    hide HandleAbove, ReplyAbove, DownOk, DownExact, Opens, RequestsFirst;
    if r.down == [] {
      assert q + r.down == q;
    } else {
      assert r.down == [r.down[0]];
      LinkPush(z, s, i, dialOk, r.down[0]);
    }
  }

  /** The cell passed on takes its place behind those on the link. */
  lemma LinkPush(z: Sizes, s: State, i: nat, dialOk: bool, d: Cell)
    requires Shape(s) && DownOk(z, s) && z.Valid() && Handles(s, i) && i < Last(s) && ReplyAbove(z, s, i, dialOk).down == [d]
    ensures LinkOk(HandleAbove(z, s, i, dialOk), i + 1)
  {
    hide Handle, Item, HopOk, Carries, SomeItem, NextOfKind;
    assert LinkOk(s, i + 1);
    var s1, q, t := HandleAbove(z, s, i, dialOk), s.down[i + 1], s.hist[i];
    assert s1.down[i + 1] == q + [d];
    AboveFrame(z, s, i, dialOk);
    AboveExact(z, s, i, dialOk);
    hide HandleAbove, ReplyAbove, DownOk, DownExact, Opens, RequestsFirst;
    PassedOnKind(z, s, i, dialOk, d);
    if DownExact(s.hist) {
      CarriesNext(s.path, s.sid, DataKind, s.sent, i + 1, q, s.hist[i + 1].fromAbove, t.peeled, s1.hist[i].peeled, d);
    }
    CarriesNext(s.path, s.sid, RequestKind, s.requested, i + 1, q, s.hist[i + 1].requests, t.requests, s1.hist[i].requests, d);
    SelectPush(DataKind, q, d);
    RequestsFirstPush(q, d);
    assert forall c :: c in q + [d] <==> c in q || c == d;
  }

  lemma KindOfItem(s: State, i: nat, d: Cell)
    requires Shape(s) && i <= |s.path|
    ensures forall j, m :: d == Item(s.path, s.sid, DataKind, i, j, m) ==> d.Data?
    ensures forall j, m :: d == Item(s.path, s.sid, RequestKind, i, j, m) ==> IsRequest(d)
  {
  }

  lemma AboveDown(z: Sizes, s: State, i: nat, dialOk: bool)
    requires Shape(s) && DownOk(z, s) && z.Valid() && Handles(s, i)
    ensures DownOk(z, HandleAbove(z, s, i, dialOk))
  {
    hide Handle, Carries, SomeItem, RequestsFirst;
    var s1 := HandleAbove(z, s, i, dialOk);
    AboveExact(z, s, i, dialOk);
    forall j | 0 <= j < |s.path|
      ensures HopOk(s1, j)
    {
      assert HopOk(s, j);
      if j == i {
        AboveHop(z, s, i, dialOk);
      }
    }
    forall j | 0 <= j < |s.path|
      ensures LinkOk(s1, j)
    {
      assert LinkOk(s, j);
      if j == i {
        AboveLinkHere(z, s, i, dialOk);
      } else if j == i + 1 {
        AboveLinkNext(z, s, i, dialOk);
      } else {
        assert s1.down[j] == s.down[j] && s1.hist[j] == s.hist[j];
        assert OfferedData(s1, j) == OfferedData(s, j) && OfferedRequests(s1, j) == OfferedRequests(s, j);
      }
    }
  }
}

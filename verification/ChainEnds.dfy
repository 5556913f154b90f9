/** The steps at the two ends of a circuit: the client's sends and receipts, and the exit's upward loop. */
module ChainEnds {
  import opened MachineInts
  import opened Nonces
  import opened Wrappers
  import opened Onion
  import opened RelaySpec
  import opened ClientSpec
  import opened Chain
  import opened ChainFrames
  import opened ChainLinks
  import opened ChainInvariant
  import opened ChainAbove
  import opened ChainAboveKeeps

  lemma BumpAll(n: nat, k: nat)
    ensures Bump(AllAt(n, k)) == AllAt(n, k + 1)
  {
    IncWrap(k);
  }

  /** With its counters at `k`, the client seals the onion that relay 0 expects as its `k`-th. */
  lemma ClientSeals(path: Path, k: nat, m: Msg)
    ensures SealLayers(Keys(path), NoncesAt(Bases(path), AllAt(|path|, k)), Plain(m)) == Layers(path, 0, k, m)
  {
    SealIsLayers(path, 0, k, m);
    var keys, nonces := Keys(path), NoncesAt(Bases(path), AllAt(|path|, k));
    assert keys[0..] == keys && nonces[0..] == nonces;
  }

  // ---- the client sends ----

  lemma AskClient(z: Sizes, s: State, m: Msg, next: Phase)
    requires Shape(s) && ClientOk(z, s)
    requires s.phase == Idle || s.phase == Connected
    requires m.BeginDto? ==> m.sid == s.sid && next == Streaming
    requires !m.BeginDto? ==> next == Connected
    ensures ClientOk(z, Ask(z, s, m, next))
  {
    AskIs(z, s, m, next);
    hide Ask, Layers, AllAt, Bump, SealLayers, NoncesAt;
    ClientSeals(s.path, |s.requested|, m);
    BumpAll(|s.path|, |s.requested|);
    LayersLength(z, s.path, 0, |s.requested|, m);
  }

  lemma AskKeepsDown(z: Sizes, s: State, m: Msg, next: Phase)
    requires Shape(s) && DownOk(z, s)
    requires s.phase == Idle || s.phase == Connected
    requires m.BeginDto? ==> m.sid == s.sid && next == Streaming
    requires !m.BeginDto? ==> next == Connected
    ensures DownOk(z, Ask(z, s, m, next))
  {
    assert s.sent == [];
    AskIs(z, s, m, next);
    hide Ask, SendRequest, LinkOk, Item, Carries, Wrap, DownExact, ClientOk;
    var s1 := Ask(z, s, m, next);
    AskClient(z, s, m, next);
    forall j | 0 <= j < |s.path|
      ensures HopOk(s1, j) && LinkOk(s1, j)
    {
      assert HopOk(s, j);
      CarriesBounds(z, s, j);
      AskLink(z, s, m, next, j);
    }
  }

  lemma AskLink(z: Sizes, s: State, m: Msg, next: Phase, j: nat)
    requires Shape(s) && DownOk(z, s) && j < |s.path|
    requires s.phase == Idle || s.phase == Connected
    ensures LinkOk(Ask(z, s, m, next), j)
  {
    assert LinkOk(s, j);
    hide HopOk, Carries, Item, SendRequest, RequestsFirst, ClientOk, SomeItem, DownExact;
    if j == 0 && SendRequest(z, s.client, m).cell.Some? {
      AskFirstLink(z, s, m, next);
    } else {
      AskIs(z, s, m, next);
      hide Ask;
      CarriesGrow(s.path, s.sid, RequestKind, s.requested, [m], j, s.down[j], s.hist[j].requests, OfferedRequests(s, j));
    }
  }

  lemma AskFirstLink(z: Sizes, s: State, m: Msg, next: Phase)
    requires Shape(s) && DownOk(z, s) && SendRequest(z, s.client, m).cell.Some?
    requires s.phase == Idle || s.phase == Connected
    ensures LinkOk(Ask(z, s, m, next), 0)
  {
    assert LinkOk(s, 0);
    NothingSentYet(z, s);
    hide HopOk, Carries, Item, Wrap, SealLayers, NoncesAt, AllAt, RequestsFirst, CounterNonce, SomeItem, DownExact;
    var s1, k, c := Ask(z, s, m, next), |s.requested|, SendRequest(z, s.client, m).cell.value;
    CarriesGrow(s.path, s.sid, RequestKind, s.requested, [m], 0, s.down[0], s.hist[0].requests, k);
    ClientSeals(s.path, k, m);
    ItemIs(s.path, s.sid, k, m);
    RequestsFirstPush(s.down[0], c);
    SelectPush(DataKind, s.down[0], c);
    if DownExact(s.hist) {
      CarriesPush(s.path, s.sid, DataKind, s.sent, 0, s.down[0], s.hist[0].fromAbove, |s.sent|, c);
    }
    assert forall d :: d in s1.down[0] ==> d in s.down[0] || d == c;
    CarriesPush(s.path, s.sid, RequestKind, s1.requested, 0, s.down[0], s.hist[0].requests, k, c);
  }

  lemma ItemIs(path: Path, sid: uint16, k: nat, m: Msg)
    ensures Item(path, sid, RequestKind, 0, k, m) == if m.BeginDto? then Begin(Layers(path, 0, k, m)) else Connect(Layers(path, 0, k, m))
    ensures Item(path, sid, DataKind, 0, k, m) == Data(sid, Layers(path, 0, k, m))
  {
  }

  lemma NothingSentYet(z: Sizes, s: State)
    requires Shape(s) && DownOk(z, s) && s.sent == []
    ensures Select(DataKind, s.down[0]) == []
  {
    assert LinkOk(s, 0) && HopOk(s, 0);
  }

  lemma AskKeeps(z: Sizes, s: State, m: Msg, next: Phase)
    requires Inv(z, s)
    requires s.phase == Idle || s.phase == Connected
    requires m.BeginDto? ==> m.sid == s.sid && next == Streaming
    requires !m.BeginDto? ==> next == Connected
    ensures Inv(z, Ask(z, s, m, next))
  {
    assert ClientOk(z, s) && !BeginAsked(s);
    AskKeepsDown(z, s, m, next);
    AskFrame(z, s, m, next);
    AskTorn(z, s, m, next);
    hide Ask, DownOk, Carries, Wrap, AllAt, Upward, TornOk, DownExact;
    var s1 := Ask(z, s, m, next);
    forall i, c | 0 <= i < |s.path| && c in s1.up[i]
      ensures UpCell(s1, i, c)
    {
      assert UpCell(s, i, c);
    }
    forall j | 0 <= j < |s.path|
      ensures InStepAt(s, j) ==> InStepAt(s1, j)
    {
      SameInStep(s, s1, j);
    }
  }

  lemma AskTorn(z: Sizes, s: State, m: Msg, next: Phase)
    requires Shape(s) && TornOk(s)
    ensures TornOk(Ask(z, s, m, next))
  {
    AskIs(z, s, m, next);
    hide Ask, SendRequest;
  }

  /** Being in step at a relay depends on nothing that happens on the downward links. */
  lemma SameInStep(s: State, s1: State, j: nat)
    requires Shape(s) && Shape(s1) && j < |s.path|
    requires s1.path == s.path && s1.sid == s.sid && s1.read == s.read && s1.received == s.received
    requires s1.hops[j].up == s.hops[j].up && s1.up[j] == s.up[j]
    requires s1.hist[j].peeled == s.hist[j].peeled && s1.hist[j].fromAbove == s.hist[j].fromAbove
    requires forall i :: 0 <= i < |s.path| ==> s1.hist[i].fromBelow == s.hist[i].fromBelow
    ensures InStepAt(s, j) ==> InStepAt(s1, j)
  {
  }

  lemma ChunkClient(z: Sizes, s: State, m: Msg)
    requires Shape(s) && ClientOk(z, s) && s.phase == Streaming
    ensures ClientOk(z, Chunk(z, s, m))
  {
    ChunkIs(z, s, m);
    hide Chunk, Layers, AllAt, Bump, SealLayers, NoncesAt;
    ClientSeals(s.path, |s.sent|, m);
    BumpAll(|s.path|, |s.sent|);
    LayersLength(z, s.path, 0, |s.sent|, m);
  }

  lemma ChunkKeepsDown(z: Sizes, s: State, m: Msg)
    requires Shape(s) && DownOk(z, s) && s.phase == Streaming
    ensures DownOk(z, Chunk(z, s, m))
  {
    hide LinkOk, Item, Carries, Wrap, SealLayers, NoncesAt, ClientOk, DownExact;
    var s1 := Chunk(z, s, m);
    ChunkClient(z, s, m);
    forall j | 0 <= j < |s.path|
      ensures HopOk(s1, j) && LinkOk(s1, j)
    {
      assert HopOk(s, j);
      ChunkLink(z, s, m, j);
    }
  }

  lemma ChunkLink(z: Sizes, s: State, m: Msg, j: nat)
    requires Shape(s) && DownOk(z, s) && j < |s.path| && s.phase == Streaming
    ensures LinkOk(Chunk(z, s, m), j)
  {
    assert LinkOk(s, j);
    hide HopOk, Carries, Item, SendData, RequestsFirst, ClientOk, SomeItem, DownExact;
    if j == 0 && SendData(z, s.client, s.sid, m).cell.Some? {
      ChunkFirstLink(z, s, m);
    } else {
      ChunkIs(z, s, m);
      hide Chunk;
      SomeItemGrows(s.path, s.sid, s.sent, m, j, s.down[j]);
      if DownExact(s.hist) {
        CarriesGrow(s.path, s.sid, DataKind, s.sent, [m], j, s.down[j], s.hist[j].fromAbove, OfferedData(s, j));
      }
    }
  }

  lemma ChunkFirstLink(z: Sizes, s: State, m: Msg)
    requires Shape(s) && DownOk(z, s) && s.phase == Streaming && SendData(z, s.client, s.sid, m).cell.Some?
    ensures LinkOk(Chunk(z, s, m), 0)
  {
    assert LinkOk(s, 0);
    var s1, k, q := Chunk(z, s, m), |s.sent|, s.down[0];
    var c := SendData(z, s.client, s.sid, m).cell.value;
    ClientSeals(s.path, k, m);
    ItemIs(s.path, s.sid, k, m);
    hide HopOk, Carries, Wrap, Item, SealLayers, NoncesAt, AllAt, RequestsFirst, CounterNonce, DownExact, Layers;
    SomeItemGrows(s.path, s.sid, s.sent, m, 0, q);
    assert SomeItem(s.path, s.sid, s1.sent, 0, c) by {
      assert s1.sent[k] == m;
      assert c == Item(s.path, s.sid, DataKind, 0, k, s1.sent[k]);
    }
    hide SomeItem;
    if DownExact(s.hist) {
      CarriesGrow(s.path, s.sid, DataKind, s.sent, [m], 0, q, s.hist[0].fromAbove, k);
      CarriesPush(s.path, s.sid, DataKind, s1.sent, 0, q, s.hist[0].fromAbove, k, c);
    }
    CarriesPush(s.path, s.sid, RequestKind, s.requested, 0, q, s.hist[0].requests, |s.requested|, c);
    SelectPush(DataKind, q, c);
    RequestsFirstPush(q, c);
    assert forall d :: d in s1.down[0] ==> d in q || d == c;
  }

  lemma ChunkTorn(z: Sizes, s: State, m: Msg)
    requires Shape(s) && TornOk(s)
    ensures TornOk(Chunk(z, s, m))
  {
    hide SealLayers, NoncesAt;
  }

  lemma ChunkKeeps(z: Sizes, s: State, m: Msg)
    requires Inv(z, s) && s.phase == Streaming
    ensures Inv(z, Chunk(z, s, m))
  {
    hide LinkOk, HopOk, ClientOk, Carries, Wrap, SealLayers, NoncesAt, AllAt, DownExact;
    ChunkKeepsDown(z, s, m);
    ChunkFrame(z, s, m);
    ChunkTorn(z, s, m);
    hide Chunk, DownOk, Upward, TornOk;
    var s1 := Chunk(z, s, m);
    forall i, c | 0 <= i < |s.path| && c in s1.up[i]
      ensures UpCell(s1, i, c)
    {
      assert UpCell(s, i, c);
    }
    forall j | 0 <= j < |s.path|
      ensures InStepAt(s, j) ==> InStepAt(s1, j)
    {
      SameInStep(s, s1, j);
    }
  }

  /** Closing the stream puts one or two END cells on the first link. */
  function Closing(z: Sizes, s: State, last: bool): State
    requires Shape(s)
  {
    s.(phase := Closed,
       down := s.down[0 := s.down[0] + SendIf(z, true, End(s.sid)) + if last then SendIf(z, true, End(0)) else []])
  }

  lemma PushOther(s: State, q: seq<Cell>, j: nat, c: Cell)
    requires Shape(s) && j < |s.path| && !c.Data? && !IsRequest(c)
    requires LinkOk(s.(down := s.down[j := q]), j)
    ensures LinkOk(s.(down := s.down[j := q + [c]]), j)
  {
    hide Carries, SomeItem, RequestsFirst, DownExact;
    var s1 := s.(down := s.down[j := q]);
    if DownExact(s.hist) {
      CarriesPush(s.path, s.sid, DataKind, s.sent, j, q, s.hist[j].fromAbove, OfferedData(s1, j), c);
    }
    SelectPush(DataKind, q, c);
    assert forall d :: d in q + [c] ==> d in q || d == c;
    CarriesPush(s.path, s.sid, RequestKind, s.requested, j, q, s.hist[j].requests, OfferedRequests(s1, j), c);
    RequestsFirstPush(q, c);
  }

  lemma CloseLinks(z: Sizes, s: State, last: bool)
    requires Shape(s) && DownOk(z, s) && z.Valid()
    ensures forall j :: 0 <= j < |s.path| ==> LinkOk(Closing(z, s, last), j)
  {
    hide Carries, HopOk, ClientOk, RequestsFirst, SomeItem, DownExact;
    var s1, q := Closing(z, s, last), s.down[0];
    assert s.down == s.down[0 := q] && s.(down := s.down) == s;
    assert LinkOk(s, 0);
    PushOther(s, q, 0, End(s.sid));
    PushOther(s, q + [End(s.sid)], 0, End(0));
    var s2 := s.(down := s.down[0 := q + [End(s.sid)] + if last then [End(0)] else []]);
    assert q + [End(s.sid)] + [] == q + [End(s.sid)];
    forall j | 0 <= j < |s.path|
      ensures LinkOk(s1, j)
    {
      assert LinkOk(s, j);
      if j == 0 {
        assert LinkOk(s2, 0) && s1.down[0] == s2.down[0];
      }
    }
  }

  lemma CloseKeeps(z: Sizes, s: State, last: bool)
    requires Inv(z, s) && z.Valid()
    ensures Inv(z, Closing(z, s, last))
  {
    hide Carries, Wrap, AllAt, RequestsFirst, Upward, DownExact, SomeItem;
    var s1 := Closing(z, s, last);
    CloseLinks(z, s, last);
    forall j | 0 <= j < |s.path|
      ensures HopOk(s1, j)
      ensures InStepAt(s, j) ==> InStepAt(s1, j)
    {
      assert HopOk(s, j);
      SameInStep(s, s1, j);
    }
    forall i, c | 0 <= i < |s.path| && c in s1.up[i]
      ensures UpCell(s1, i, c)
    {
      assert UpCell(s, i, c);
    }
  }

  // ---- the exit reads ----

  lemma {:induction false} UpwardGrows(path: Path, read: seq<Msg>, m: Msg, i: nat, b: Blob)
    requires i < |path| && Upward(path, read, i, b)
    ensures Upward(path, read + [m], i, b)
    decreases |path| - i
  {
    if i == |path| - 1 {
      var j :| 0 <= j < |read| && b == AESSeal(path[i].key, CounterNonce(path[i].base, Wrap(j)), Plain(read[j]));
      assert (read + [m])[j] == read[j];
    } else if Upward(path, read, i + 1, b.inner) {
      UpwardGrows(path, read, m, i + 1, b.inner);
    }
  }

  lemma SameClient(z: Sizes, s: State, s1: State)
    requires Shape(s) && Shape(s1) && ClientOk(z, s)
    requires s1.path == s.path && s1.sid == s.sid && s1.phase == s.phase && s1.requested == s.requested && s1.sent == s.sent
    requires s1.client == s.client.(up := s1.client.up)
    ensures ClientOk(z, s1)
  {
  }

  /** A step that leaves the downward links, the counts, and the downward half of every relay and of the client alone. */
  ghost predicate SparesDown(s: State, s1: State) {
    && Shape(s) && Shape(s1) && s1.path == s.path && s1.sid == s.sid && s1.down == s.down
    && s1.sent == s.sent && s1.requested == s.requested && s1.phase == s.phase && s1.client == s.client.(up := s1.client.up)
    && (forall j :: 0 <= j < |s.path| ==>
          && s1.hist[j] == s.hist[j].(expired := s1.hist[j].expired)
          && s1.hops[j] == s.hops[j].(up := s1.hops[j].up, alive := s1.hops[j].alive, streams := s1.hops[j].streams)
          && s1.hops[j].streams <= s.hops[j].streams
          && ((s1.hist[j].expired && !s1.hops[j].alive)
              || (s1.hist[j].expired == s.hist[j].expired && s1.hops[j].alive == s.hops[j].alive)))
  }

  lemma DownSpared(z: Sizes, s: State, s1: State)
    requires SparesDown(s, s1) && DownOk(z, s)
    ensures DownOk(z, s1) && DownExact(s1.hist) == DownExact(s.hist)
    ensures TornOk(s) ==> TornOk(s1)
  {
    hide Carries, SomeItem, DownExact, RequestsFirst, ClientOk, AllAt, Wrap;
    SameClient(z, s, s1);
    ExpiryExact(s.hist, s1.hist);
    forall j | 0 <= j < |s.path|
      ensures HopOk(s1, j) && LinkOk(s1, j)
    {
      assert HopOk(s, j) && LinkOk(s, j);
    }
  }

  /** A step that besides leaves everything upwards alone, but for the client's listening. */
  ghost predicate SparesUp(s: State, s1: State)
    requires Shape(s) && Shape(s1)
  {
    && s1.up == s.up && s1.read == s.read && s1.received == s.received && s1.client == s.client && s1.lost == s.lost
    && (s1.listening ==> s.listening)
    && (forall j :: 0 <= j < |s.path| ==> s1.hops[j].up == s.hops[j].up)
  }

  lemma UpSpared(z: Sizes, s: State, s1: State)
    requires SparesDown(s, s1) && SparesUp(s, s1) && UpOk(s) && InStep(s) && DownOk(z, s)
    ensures UpOk(s1) && InStep(s1)
  {
    hide Carries, DownExact, Upward, AllAt, HopOk, LinkOk, ClientOk, Wrap;
    ExpiryExact(s.hist, s1.hist);
    forall j | 0 <= j < |s.path|
      ensures InStepAt(s, j) ==> InStepAt(s1, j)
    {
      SameInStep(s, s1, j);
    }
    forall j, c | 0 <= j < |s.path| && c in s1.up[j]
      ensures UpCell(s1, j, c)
    {
      assert UpCell(s, j, c);
    }
  }

  lemma ReadDown(z: Sizes, s: State, m: Msg)
    requires Shape(s) && DownOk(z, s) && ExitOk(s) && s.looping
    ensures DownOk(z, Read(z, s, m)) && ExitOk(Read(z, s, m))
  {
    assert HopOk(s, Last(s));
    hide AllAt, DownExact, ClientOk, SendIf, CounterNonce, LinkOk;
    DownSpared(z, s, Read(z, s, m));
    IncWrap(|s.read|);
  }

  lemma ReadUp(z: Sizes, s: State, m: Msg)
    requires Shape(s) && DownOk(z, s) && ExitOk(s) && UpOk(s)
    ensures UpOk(Read(z, s, m))
  {
    hide Carries, AllAt, LinkOk, DownExact, CounterNonce;
    var s1, x, k := Read(z, s, m), Last(s), |s.read|;
    assert HopOk(s, x);
    var b := AESSeal(s.path[x].key, CounterNonce(s.path[x].base, s.hops[x].up), Plain(m));
    assert s1.read[k] == m;
    assert DownExact(s.hist) ==> Upward(s.path, s1.read, x, b);
    forall j, c | 0 <= j < |s.path| && c in s1.up[j]
      ensures UpCell(s1, j, c)
      ensures DownExact(s1.hist) && c.Data? ==> Upward(s1.path, s1.read, j, c.blob)
    {
      if c in s.up[j] {
        assert UpCell(s, j, c);
        if DownExact(s.hist) && c.Data? {
          UpwardGrows(s.path, s.read, m, j, c.blob);
        }
      } else {
        assert j == x && c == Data(s.sid, b);
      }
    }
  }

  lemma ReadInStep(z: Sizes, s: State, m: Msg)
    requires Shape(s) && DownOk(z, s) && ExitOk(s) && InStep(s)
    ensures InStep(Read(z, s, m))
  {
    hide Carries, AllAt, LinkOk, Wrap, Inc, DownExact;
    var s1, x, k := Read(z, s, m), Last(s), |s.read|;
    if !s1.lost {
      InStepExact(s);
      assert HopOk(s, x);
      IncWrap(k);
      forall j | 0 <= j < |s.path|
        ensures InStepAt(s1, j)
      {
        assert InStepAt(s, j);
        CarriesGrow(s.path, s.sid, DataKind, s.read, [m], j, s.up[j], TakenUp(s, j), OfferedUp(s, j));
        if j == x {
          var c := Data(s.sid, AESSeal(s.hops[x].key, CounterNonce(s.hops[x].base, s.hops[x].up), Plain(m)));
          assert Layers(s.path, |s.path|, k, m) == Plain(m);
          assert s1.read[k] == m && c == Item(s.path, s.sid, DataKind, x, k, m);
          CarriesPush(s.path, s.sid, DataKind, s1.read, x, s.up[x], TakenUp(s, x), k, c);
        }
      }
    }
  }

  lemma EndReadKeeps(z: Sizes, s: State)
    requires Inv(z, s) && s.looping
    ensures Inv(z, EndRead(z, s))
  {
    var s1 := EndRead(z, s);
    assert SparesDown(s, s1);
    DownSpared(z, s, s1);
    EndReadUp(z, s);
    EndReadExit(z, s);
    hide EndRead, DownOk, UpOk, ExitOk, InStep, TornOk;
  }

  lemma EndReadExit(z: Sizes, s: State)
    requires Shape(s) && ExitOk(s) && s.looping
    ensures ExitOk(EndRead(z, s))
  {
    hide DownExact, Wrap, SendIf;
  }

  lemma EndReadUp(z: Sizes, s: State)
    requires Shape(s) && UpOk(s) && InStep(s)
    ensures UpOk(EndRead(z, s)) && InStep(EndRead(z, s))
  {
    hide Carries, AllAt, Wrap, Upward, DownExact;
    var s1, x := EndRead(z, s), Last(s);
    forall j | 0 <= j < |s.path|
      ensures InStepAt(s, j) ==> InStepAt(s1, j)
    {
      if InStepAt(s, j) {
        NoDataPushed(s.path, s.sid, s.read, j, s.up[j], SendIf(z, true, End(s.sid)), TakenUp(s, j), OfferedUp(s, j));
      }
    }
    forall j, c | 0 <= j < |s.path| && c in s1.up[j]
      ensures UpCell(s1, j, c)
    {
      assert c in s.up[j] || c == End(s.sid);
      assert c in s.up[j] ==> UpCell(s, j, c);
    }
  }

  lemma ReadKeeps(z: Sizes, s: State, m: Msg)
    requires Inv(z, s) && s.looping
    ensures Inv(z, Read(z, s, m))
  {
    hide DownOk, ExitOk, UpOk, InStep;
    ReadDown(z, s, m);
    ReadUp(z, s, m);
    ReadInStep(z, s, m);
  }

  // ---- the client receives ----

  /** The upward counters while one cell is being opened: the first `h` have moved on. */
  function Moving(n: nat, h: nat, k: nat): seq<uint64> {
    var now, next := Wrap(k), Wrap(k + 1);
    seq(n, i requires 0 <= i < n => if i < h then next else now)
  }

  /** The client's loop at hop `h`, and at its end. */
  lemma OpenStep(path: Path, h: nat, k: nat, b: Blob)
    requires h < |path|
    ensures OpenFrom(Keys(path), Bases(path), Moving(|path|, h, k), h, b)
      == match AESOpen(path[h].key, CounterNonce(path[h].base, Wrap(k)), b)
         case None => (Moving(|path|, h + 1, k), None)
         case Some(dec) => OpenFrom(Keys(path), Bases(path), Moving(|path|, h + 1, k), h + 1, dec)
  {
    var ctrs := Moving(|path|, h, k);
    IncWrap(k);
    assert ctrs[h := Inc(ctrs[h])] == Moving(|path|, h + 1, k);
    hide CounterNonce;
  }

  lemma OpenEnd(path: Path, k: nat, b: Blob)
    ensures OpenFrom(Keys(path), Bases(path), Moving(|path|, |path|, k), |path|, b) == (AllAt(|path|, k + 1), Some(b))
  {
    assert Moving(|path|, |path|, k) == AllAt(|path|, k + 1);
  }

  /** Whatever comes up the chain, the client's `k`-th opened cell can only hold the exit's `k`-th chunk. */
  lemma {:induction false} OpensOnlyNext(path: Path, read: seq<Msg>, h: nat, k: nat, b: Blob)
    requires DistinctKeys(path) && h < |path| && Upward(path, read, h, b)
    requires k <= |read| < TWO_TO_64
    ensures var r := OpenFrom(Keys(path), Bases(path), Moving(|path|, h, k), h, b);
      r.1.Some? ==> k < |read| && r.1.value == Plain(read[k]) && r.0 == AllAt(|path|, k + 1)
    decreases |path| - h
  {
    hide OpenFrom, Moving, Keys, Bases, CounterNonce, AllAt;
    OpenStep(path, h, k, b);
    if AESOpen(path[h].key, CounterNonce(path[h].base, Wrap(k)), b).Some? {
      if h == |path| - 1 {
        var j :| 0 <= j < |read| && b == AESSeal(path[h].key, CounterNonce(path[h].base, Wrap(j)), Plain(read[j]));
        CounterNonceInjective(path[h].base, Wrap(j), Wrap(k));
        OpenEnd(path, k, b.inner);
      } else if Upward(path, read, h + 1, b.inner) {
        OpensOnlyNext(path, read, h + 1, k, b.inner);
      } else {
        assert path[h].key != path[h + 1].key;
        OpenStep(path, h + 1, k, b.inner);
      }
    }
  }

  /** The client opens the `k`-th upward onion when its counters are at `k`. */
  lemma {:induction false} OpensNext(path: Path, h: nat, k: nat, m: Msg)
    requires h <= |path|
    ensures OpenFrom(Keys(path), Bases(path), Moving(|path|, h, k), h, Layers(path, h, k, m)) == (AllAt(|path|, k + 1), Some(Plain(m)))
    decreases |path| - h
  {
    hide OpenFrom, Moving, Keys, Bases, CounterNonce, AllAt, Wrap;
    if h == |path| {
      OpenEnd(path, k, Plain(m));
    } else {
      OpenStep(path, h, k, Layers(path, h, k, m));
      OpensNext(path, h + 1, k, m);
    }
  }

  lemma TakeUp(z: Sizes, s: State)
    requires Shape(s) && DistinctKeys(s.path) && ClientOk(z, s) && UpOk(s) && InStep(s) && s.listening && s.up[0] != []
    ensures UpOk(Take(s))
  {
    TakeFrame(s);
    hide Upward, DownExact, InStep, Take, ClientUpOk, ClientOk;
    var s1 := Take(s);
    if DownExact(s.hist) && UpExact(s.read, s.lost) {
      TakeReceived(z, s);
    }
    forall j, d | 0 <= j < |s.path| && d in s1.up[j]
      ensures UpCell(s1, j, d)
      ensures DownExact(s1.hist) && d.Data? ==> Upward(s1.path, s1.read, j, d.blob)
    {
      assert d in s.up[j];
      assert UpCell(s, j, d);
    }
  }

  lemma TakeReceived(z: Sizes, s: State)
    requires Shape(s) && DistinctKeys(s.path) && ClientOk(z, s) && UpOk(s) && InStep(s) && s.listening && s.up[0] != []
    requires DownExact(s.hist) && UpExact(s.read, s.lost)
    ensures ClientUpOk(Take(s))
  {
    hide Wrap, Upward, OpenFrom, DownExact;
    var c, k := s.up[0][0], |s.received|;
    assert c in s.up[0];
    if c.Data? {
      assert Moving(|s.path|, 0, k) == AllAt(|s.path|, k);
      if s.lost {
        OpensOnlyNext(s.path, s.read, 0, k, c.blob);
      } else {
        TakeNext(z, s);
      }
    }
  }

  /** In step, the next upward DATA cell is the client's next chunk. */
  lemma TakeNext(z: Sizes, s: State)
    requires Shape(s) && ClientOk(z, s) && UpOk(s) && InStep(s) && s.listening && s.up[0] != [] && !s.lost && s.up[0][0].Data?
    ensures && Take(s).listening && |s.received| < |s.read| && Take(s).received == s.received + [Plain(s.read[|s.received|])]
            && Take(s).client.up == AllAt(|s.path|, |s.received| + 1)
  {
    hide Wrap, OpenFrom, Carries, Layers, DownExact, Rising;
    var c, k := s.up[0][0], |s.received|;
    InStepExact(s);
    assert InStepAt(s, 0);
    CarriesPop(s.path, s.sid, DataKind, s.read, 0, s.up[0], k, OfferedUp(s, 0));
    ItemIs(s.path, s.sid, k, s.read[k]);
    assert Moving(|s.path|, 0, k) == AllAt(|s.path|, k);
    OpensNext(s.path, 0, k, s.read[k]);
  }

  lemma TakeInStep(z: Sizes, s: State)
    requires Shape(s) && ClientOk(z, s) && UpOk(s) && InStep(s) && s.listening && s.up[0] != []
    ensures InStep(Take(s))
  {
    TakeFrame(s);
    if !s.lost {
      var s1, c, k := Take(s), s.up[0][0], |s.received|;
      if c.Data? {
        TakeNext(z, s);
      } else {
        TakeOther(s);
      }
      hide Wrap, Carries, DownExact, UpOk, Take, ClientOk;
      assert InStepAt(s, 0);
      CarriesPop(s.path, s.sid, DataKind, s.read, 0, s.up[0], k, OfferedUp(s, 0));
      forall j | 0 <= j < |s.path|
        ensures InStepAt(s1, j)
      {
        assert InStepAt(s, j);
        assert j > 0 ==> s1.up[j] == s.up[j] && TakenUp(s1, j) == TakenUp(s, j);
        assert OfferedUp(s1, j) == OfferedUp(s, j);
      }
    }
  }

  lemma TakeOther(s: State)
    requires Shape(s) && s.up[0] != [] && !s.up[0][0].Data?
    ensures Take(s).received == s.received && Take(s).client == s.client
  {
  }

  lemma TakeKeeps(z: Sizes, s: State)
    requires Inv(z, s) && s.listening && s.up[0] != []
    ensures Inv(z, Take(s))
  {
    TakeUp(z, s);
    TakeInStep(z, s);
    TakeFrame(s);
    hide Take, UpOk, InStep, LinkOk, HopOk, ClientOk, TornOk, DownExact;
    DownSpared(z, s, Take(s));
  }

  lemma ExpireKeeps(z: Sizes, s: State, i: nat)
    requires Inv(z, s) && i < |s.path|
    ensures Inv(z, s.(hops := s.hops[i := s.hops[i].(alive := false)], hist := s.hist[i := s.hist[i].(expired := true)]))
  {
    var s1 := s.(hops := s.hops[i := s.hops[i].(alive := false)], hist := s.hist[i := s.hist[i].(expired := true)]);
    hide DownOk, TornOk, DownExact, UpOk, InStep;
    DownSpared(z, s, s1);
    UpSpared(z, s, s1);
    hide SparesDown, SparesUp;
    ExitExpires(s, i);
  }

  lemma ExitExpires(s: State, i: nat)
    requires Shape(s) && i < |s.path| && ExitOk(s)
    ensures ExitOk(s.(hops := s.hops[i := s.hops[i].(alive := false)], hist := s.hist[i := s.hist[i].(expired := true)]))
  {
    hide DownExact;
    ExpiryExact(s.hist, s.hist[i := s.hist[i].(expired := true)]);
  }

  lemma ExpiryExact(before: seq<Hist>, after: seq<Hist>)
    requires |before| == |after|
    requires forall j :: 0 <= j < |before| ==> after[j] == before[j].(expired := after[j].expired)
    ensures DownExact(after) == DownExact(before)
  {
  }
}

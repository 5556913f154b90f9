/** Which nonces a run uses. Each hop has one key and one base nonce, and three counters over them: nothing keeps the nonces of
    one counter apart from those of another. */
module ChainNonces {
  import opened MachineInts
  import opened Nonces
  import opened Wrappers
  import opened Onion
  import opened RelaySpec
  import opened ClientSpec
  import opened Chain
  import opened ChainLinks
  import opened ChainInvariant
  import opened ChainEnds
  import opened ChainFrames
  import opened ChainRuns
  import opened ChainTheorems

  /** The key and the nonce of a blob's layer number `i`, from the outside. */
  function LayerAt(b: Blob, i: nat): Option<(Key, Nonce)>
    decreases i
  {
    if !b.Sealed? then None else if i == 0 then Some((b.key, b.nonce)) else LayerAt(b.inner, i - 1)
  }

  lemma {:induction false} LayersAt(path: Path, from: nat, j: nat, m: Msg, i: nat)
    requires from + i < |path|
    ensures LayerAt(Layers(path, from, j, m), i) == Some((path[from + i].key, CounterNonce(path[from + i].base, Wrap(j))))
    decreases i
  {
    hide CounterNonce;
    if i > 0 {
      LayersAt(path, from + 1, j, m, i - 1);
    }
  }

  /** The onion a cell carries. */
  function OnionOf(c: Cell): Blob
    requires c.Data? || IsRequest(c)
  {
    match c
    case Data(_, blob) => blob
    case Begin(request) => request
    case Connect(request) => request
  }

  /** The cell the client sends in a step, END cells aside, which are not sealed. */
  function Sends(z: Sizes, s: State, step: Step): Option<Cell>
    requires Shape(s)
  {
    match step
    case AskConnect(target) => SendRequest(z, s.client, ConnectMsg(target)).cell
    case AskBegin(target) => SendRequest(z, s.client, BeginDto(s.sid, target)).cell
    case SendChunk(bytes) => SendData(z, s.client, s.sid, Raw(bytes)).cell
    case _ => None
  }

  /** All sealed cells the client sends in a run. */
  function Sealings(z: Sizes, s: State, steps: seq<Step>, t: State): seq<Cell>
    requires Shape(s) && Reaches(z, s, steps, t)
    decreases |steps|
  {
    if steps == [] then []
    else
      var c := Sends(z, s, steps[0]);
      (if c.Some? then [c.value] else []) + Sealings(z, Apply(z, s, steps[0]), steps[1..], t)
  }

  /** Logs only grow, and nothing is sent before a request. */
  ghost predicate Grows(s: State, t: State) {
    s.requested <= t.requested && s.sent <= t.sent && t.path == s.path && t.sid == s.sid
  }

  ghost predicate Asked(s: State) {
    s.sent != [] || s.phase == Streaming ==> s.requested != []
  }

  /** What one step sends is the next entry of its log under the next number. */
  lemma SendsNext(z: Sizes, s: State, step: Step)
    requires Inv(z, s) && Enabled(s, step)
    ensures var c, t := Sends(z, s, step), Apply(z, s, step);
      && Grows(s, t) && (Asked(s) ==> Asked(t))
      && (c == None ==> t.requested == s.requested && t.sent == s.sent)
      && (c.Some? && step.SendChunk? ==>
            |t.sent| == |s.sent| + 1 && t.requested == s.requested && c.value == Item(s.path, s.sid, DataKind, 0, |s.sent|, t.sent[|s.sent|]))
      && (c.Some? && !step.SendChunk? ==>
            && |t.requested| == |s.requested| + 1 && t.sent == s.sent
            && c.value == Item(s.path, s.sid, RequestKind, 0, |s.requested|, t.requested[|s.requested|]))
  {
    hide DownOk, ExitOk, UpOk, InStep, TornOk, Ask, Chunk, Item, SendRequest, SendData;
    if step.AskConnect? {
      AskSends(z, s, ConnectMsg(step.target), Connected);
    } else if step.AskBegin? {
      AskSends(z, s, BeginDto(s.sid, step.target), Streaming);
    } else if step.SendChunk? {
      ChunkSends(z, s, Raw(step.bytes));
    } else {
      StepFrame(z, s, step);
      hide Apply;
    }
  }

  lemma AskSends(z: Sizes, s: State, m: Msg, next: Phase)
    requires Inv(z, s) && (s.phase == Idle || s.phase == Connected)
    ensures var t, c := Ask(z, s, m, next), SendRequest(z, s.client, m).cell;
      && t.path == s.path && t.sid == s.sid && t.sent == s.sent == [] && t.requested == (if c.Some? then s.requested + [m] else s.requested)
      && (c == None ==> t.phase == Closed)
      && (c.Some? ==> c.value == Item(s.path, s.sid, RequestKind, 0, |s.requested|, m))
  {
    hide HopOk, LinkOk, ExitOk, UpOk, InStep, TornOk;
    AskIs(z, s, m, next);
    ClientSeals(s.path, |s.requested|, m);
    ItemIs(s.path, s.sid, |s.requested|, m);
    hide Ask, SealLayers, NoncesAt, Layers, AllAt, Item;
  }

  lemma ChunkSends(z: Sizes, s: State, m: Msg)
    requires Inv(z, s) && s.phase == Streaming
    ensures var t, c := Chunk(z, s, m), SendData(z, s.client, s.sid, m).cell;
      && t.path == s.path && t.sid == s.sid && t.requested == s.requested && t.sent == (if c.Some? then s.sent + [m] else s.sent)
      && (t.phase == Streaming || t.phase == Refused)
      && (c.Some? ==> c.value == Item(s.path, s.sid, DataKind, 0, |s.sent|, m))
  {
    hide HopOk, LinkOk, ExitOk, UpOk, InStep, TornOk;
    ClientSeals(s.path, |s.sent|, m);
    ItemIs(s.path, s.sid, |s.sent|, m);
    hide SealLayers, NoncesAt, Layers, AllAt, Item;
  }

  /** One more cell in front. */
  lemma CarriesFront(path: Path, sid: uint16, kind: Kind, log: seq<Msg>, q: seq<Cell>, from: nat, to: nat, c: Cell)
    ensures !OfKind(kind, c) && Carries(path, sid, kind, log, 0, q, from, to) ==> Carries(path, sid, kind, log, 0, [c] + q, from, to)
    ensures from < |log| && OfKind(kind, c) && c == Item(path, sid, kind, 0, from, log[from]) && Carries(path, sid, kind, log, 0, q, from + 1, to)
      ==> Carries(path, sid, kind, log, 0, [c] + q, from, to)
  {
    hide Item;
    SelectAppend(kind, [c], q);
    assert [c][1..] == [];
  }

  /** What the client seals in a run are the entries of its two logs, each kind numbered from 0 on. */
  lemma {:induction false} SealingsAre(z: Sizes, s: State, steps: seq<Step>, t: State)
    requires Inv(z, s) && z.Valid() && Reaches(z, s, steps, t)
    ensures Grows(s, t) && (Asked(s) ==> Asked(t))
    ensures Carries(s.path, s.sid, RequestKind, t.requested, 0, Sealings(z, s, steps, t), |s.requested|, |t.requested|)
    ensures Carries(s.path, s.sid, DataKind, t.sent, 0, Sealings(z, s, steps, t), |s.sent|, |t.sent|)
    decreases |steps|
  {
    if steps != [] {
      var s1, c := Apply(z, s, steps[0]), Sends(z, s, steps[0]);
      StepKeeps(z, s, steps[0]);
      SendsNext(z, s, steps[0]);
      hide Apply, Enabled, Inv, Sends, Item, Carries, Asked, Select;
      SealingsAre(z, s1, steps[1..], t);
      FrontOf(z, s, steps[0], t, Sealings(z, s1, steps[1..], t));
    }
  }

  /** The step's cell in front of what the rest of the run seals. */
  lemma FrontOf(z: Sizes, s: State, step: Step, t: State, rest: seq<Cell>)
    requires Inv(z, s) && Enabled(s, step) && Grows(Apply(z, s, step), t)
    requires var s1 := Apply(z, s, step);
      && Carries(s.path, s.sid, RequestKind, t.requested, 0, rest, |s1.requested|, |t.requested|)
      && Carries(s.path, s.sid, DataKind, t.sent, 0, rest, |s1.sent|, |t.sent|)
    ensures var c := Sends(z, s, step); var q := (if c.Some? then [c.value] else []) + rest;
      && Carries(s.path, s.sid, RequestKind, t.requested, 0, q, |s.requested|, |t.requested|)
      && Carries(s.path, s.sid, DataKind, t.sent, 0, q, |s.sent|, |t.sent|)
  {
    SendsNext(z, s, step);
    hide Apply, Inv, Enabled, Sends, Item, Carries, Select;
    var c := Sends(z, s, step);
    if c.Some? {
      CarriesFront(s.path, s.sid, RequestKind, t.requested, rest, |s.requested|, |t.requested|, c.value);
      CarriesFront(s.path, s.sid, DataKind, t.sent, rest, |s.sent|, |t.sent|, c.value);
      KindOfItem(s.path, s.sid, |s.requested|, t.requested);
      KindOfItem(s.path, s.sid, |s.sent|, t.sent);
    } else {
      assert [] + rest == rest;
    }
  }

  lemma KindOfItem(path: Path, sid: uint16, j: nat, log: seq<Msg>)
    ensures j < |log| ==>
      && IsRequest(Item(path, sid, RequestKind, 0, j, log[j])) && !Item(path, sid, RequestKind, 0, j, log[j]).Data?
      && Item(path, sid, DataKind, 0, j, log[j]).Data? && !IsRequest(Item(path, sid, DataKind, 0, j, log[j]))
  {
  }

  lemma {:induction false} Selected(kind: Kind, q: seq<Cell>, c: Cell)
    requires c in Select(kind, q)
    ensures c in q && OfKind(kind, c)
  {
    if !(OfKind(kind, q[0]) && c == q[0]) {
      Selected(kind, q[1..], c);
    }
  }

  /** Nonces are shared across the counters. A run seals its j-th request and its k-th DATA at every hop under the hop's one
      key, and under the same nonce exactly if j and k are the same number modulo 2^64. */
  lemma RequestAndDataShareNonces(z: Sizes, path: Path, sid: uint16, steps: seq<Step>, t: State, j: nat, k: nat, i: nat)
    requires Run(z, path, sid, steps, t) && j < |t.requested| && k < |t.sent| && i < |path|
    ensures var a, b := Item(path, sid, RequestKind, 0, j, t.requested[j]), Item(path, sid, DataKind, 0, k, t.sent[k]);
      var sealed := Sealings(z, Fresh(path, sid), steps, t);
      && a in sealed && b in sealed && IsRequest(a) && b.Data?
      && LayerAt(OnionOf(a), i).Some? && LayerAt(OnionOf(b), i).Some?
      && LayerAt(OnionOf(a), i).value.0 == LayerAt(OnionOf(b), i).value.0 == path[i].key
      && (LayerAt(OnionOf(a), i) == LayerAt(OnionOf(b), i) <==> Wrap(j) == Wrap(k))
  {
    FreshInv(z, path, sid);
    SealingsAre(z, Fresh(path, sid), steps, t);
    hide Reaches, Sealings, Inv, Carries, LayerAt, Item, Wrap;
    Carried(path, sid, RequestKind, t.requested, Sealings(z, Fresh(path, sid), steps, t), j);
    Carried(path, sid, DataKind, t.sent, Sealings(z, Fresh(path, sid), steps, t), k);
    ItemsShare(path, sid, j, t.requested[j], k, t.sent[k], i);
  }

  lemma Carried(path: Path, sid: uint16, kind: Kind, log: seq<Msg>, q: seq<Cell>, j: nat)
    requires Carries(path, sid, kind, log, 0, q, 0, |log|) && j < |log|
    ensures Item(path, sid, kind, 0, j, log[j]) in q
  {
    hide Item;
    assert Select(kind, q)[j] == Item(path, sid, kind, 0, j, log[j]);
    Selected(kind, q, Select(kind, q)[j]);
  }

  lemma ItemsShare(path: Path, sid: uint16, j: nat, request: Msg, k: nat, chunk: Msg, i: nat)
    requires i < |path|
    ensures var a, b := Item(path, sid, RequestKind, 0, j, request), Item(path, sid, DataKind, 0, k, chunk);
      && IsRequest(a) && b.Data? && LayerAt(OnionOf(a), i).Some? && LayerAt(OnionOf(b), i).Some?
      && LayerAt(OnionOf(a), i).value.0 == LayerAt(OnionOf(b), i).value.0 == path[i].key
      && (LayerAt(OnionOf(a), i) == LayerAt(OnionOf(b), i) <==> Wrap(j) == Wrap(k))
  {
    hide CounterNonce, Layers, LayerAt, Wrap;
    LayersAt(path, 0, j, request, i);
    LayersAt(path, 0, k, chunk, i);
    CounterNonceInjective(path[i].base, Wrap(j), Wrap(k));
  }

  /** So the client cannot send DATA without using every hop's key twice under one nonce: for BEGIN or CONNECT number 0 and
      for DATA number 0. */
  lemma TalkingReusesNonces(z: Sizes, path: Path, sid: uint16, steps: seq<Step>, t: State, i: nat)
    requires Run(z, path, sid, steps, t) && t.sent != [] && i < |path|
    ensures var sealed := Sealings(z, Fresh(path, sid), steps, t);
      exists a, b ::
        && a in sealed && b in sealed && IsRequest(a) && b.Data?
        && LayerAt(OnionOf(a), i).Some? && LayerAt(OnionOf(a), i) == LayerAt(OnionOf(b), i)
  {
    FreshInv(z, path, sid);
    SealingsAre(z, Fresh(path, sid), steps, t);
    hide Reaches, Sealings, Inv, Carries, LayerAt, Item;
    RequestAndDataShareNonces(z, path, sid, steps, t, 0, 0, i);
  }

  /** The third counter too: the exit seals its next upward chunk under the nonce of the client's k-th DATA cell, and of its
      k-th request, exactly if it has read k chunks modulo 2^64. */
  lemma UpwardSharesNonces(z: Sizes, path: Path, sid: uint16, steps: seq<Step>, t: State, m: Msg, k: nat)
    requires Run(z, path, sid, steps, t) && DownExact(t.hist)
    ensures |t.hops| == |path| && var x := |path| - 1; var c := UpwardCell(t.hops[x], sid, m);
      && (k < |t.sent| ==>
            (LayerAt(c.blob, 0) == LayerAt(Item(path, sid, DataKind, 0, k, t.sent[k]).blob, x) <==> Wrap(|t.read|) == Wrap(k)))
      && (k < |t.requested| ==>
            (LayerAt(c.blob, 0) == LayerAt(OnionOf(Item(path, sid, RequestKind, 0, k, t.requested[k])), x) <==> Wrap(|t.read|) == Wrap(k)))
  {
    hide Reaches, LinkOk, ClientOk, UpOk, InStep, TornOk, DownExact, CounterNonce;
    RunInv(z, path, sid, steps, t);
    SamePath(z, Fresh(path, sid), steps, t);
    var x := |path| - 1;
    assert HopOk(t, x);
    hide Inv, HopOk, Layers;
    CounterNonceInjective(path[x].base, Wrap(|t.read|), Wrap(k));
    if k < |t.sent| {
      LayersAt(path, 0, k, t.sent[k], x);
    }
    if k < |t.requested| {
      LayersAt(path, 0, k, t.requested[k], x);
    }
  }
}

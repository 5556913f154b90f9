/** Sizes over whole runs: a chunk too big for the entry relay never arrives, and ends the stream. */
module ChainSizes {
  import opened MachineInts
  import opened Nonces
  import opened Wrappers
  import opened Onion
  import opened RelaySpec
  import opened ClientSpec
  import opened Chain
  import opened ChainFrames
  import opened ChainLinks
  import opened ChainInvariant
  import opened ChainRuns
  import opened ChainTheorems

  /** Whatever is on a link upwards has passed the encoder. */
  ghost predicate Fitting(z: Sizes, s: State)
    requires Shape(s)
  {
    forall l, c :: 0 <= l < |s.path| && c in s.up[l] ==> Fits(z, c)
  }

  /** Whatever the client has opened was small enough to come with all its tags. */
  ghost predicate ReceivedFit(z: Sizes, s: State)
    requires Shape(s)
  {
    forall b :: b in s.received ==> z.data(s.sid, BlobLen(z, b) + TAG_SIZE * |s.path|) <= MAX_PAYLOAD_SIZE
  }

  lemma HandleFits(z: Sizes, h: Hop, c: Cell, env: Env)
    ensures forall d :: d in Handle(z, h, c, env).up ==> Fits(z, d)
  {
    Woken(z, h, c, env);
    OneEvent(z, h, c, env);
    hide Handle;
  }

  lemma RelayFits(z: Sizes, s: State, step: Step)
    requires Shape(s) && Enabled(s, step) && ByRelay(step) && Fitting(z, s)
    ensures Fitting(z, Apply(z, s, step))
  {
    if step.FromAbove? {
      HandleFits(z, s.hops[step.i], s.down[step.i][0], EnvOf(s, step.i, step.dialOk));
    } else if step.FromBelow? {
      HandleFits(z, s.hops[step.i], s.up[step.i + 1][0], EnvOf(s, step.i, step.dialOk));
      RestIn(s.up[step.i + 1]);
    }
    hide Handle, Fits, Opens;
  }

  lemma FarFits(z: Sizes, s: State, step: Step)
    requires Shape(s) && Enabled(s, step) && !ByClient(step) && !ByRelay(step) && Fitting(z, s)
    ensures Fitting(z, Apply(z, s, step))
  {
    hide Fits, UpwardCell;
  }

  lemma ClientFits(z: Sizes, s: State, step: Step)
    requires Shape(s) && Enabled(s, step) && ByClient(step) && Fitting(z, s)
    ensures Fitting(z, Apply(z, s, step))
  {
    hide Ask, Chunk, Take, Fits, SendIf;
    if step.AskConnect? {
      AskFrame(z, s, ConnectMsg(step.target), Connected);
    } else if step.AskBegin? {
      AskFrame(z, s, BeginDto(s.sid, step.target), Streaming);
    } else if step.SendChunk? {
      ChunkFrame(z, s, Raw(step.bytes));
    } else if step.Receive? {
      TakeFrame(s);
      RestIn(s.up[0]);
    }
  }

  /** Opening takes off a tag at every hop. */
  lemma {:induction false} OpenedLength(z: Sizes, keys: seq<Key>, bases: seq<Nonce>, ctrs: seq<uint64>, h: nat, b: Blob)
    requires |keys| == |bases| == |ctrs| && h <= |keys|
    ensures var r := OpenFrom(keys, bases, ctrs, h, b); r.1.Some? ==> BlobLen(z, b) == BlobLen(z, r.1.value) + TAG_SIZE * (|keys| - h)
    decreases |keys| - h
  {
    hide CounterNonce;
    if h < |keys| && AESOpen(keys[h], CounterNonce(bases[h], ctrs[h]), b).Some? {
      OpenedLength(z, keys, bases, ctrs[h := Inc(ctrs[h])], h + 1, b.inner);
    }
  }

  /** What the client opens is shorter by a tag for every hop. */
  lemma TakenLength(z: Sizes, s: State)
    requires Shape(s) && s.up[0] != []
    ensures var c, t := s.up[0][0], Take(s);
      t.received == s.received
      || (c.Data? && exists b :: t.received == s.received + [b] && BlobLen(z, c.blob) == BlobLen(z, b) + TAG_SIZE * |s.path|)
  {
    var c := s.up[0][0];
    if c.Data? {
      OpenedLength(z, s.client.keys, s.client.bases, s.client.up, 0, c.blob);
      hide OpenFrom;
      var d := Decrypt(s.client, c.blob).1;
      if d.Some? {
        assert Take(s).received == s.received + [d.value];
      }
    }
  }

  lemma TakeFits(z: Sizes, s: State)
    requires Inv(z, s) && Enabled(s, Receive) && Fitting(z, s) && ReceivedFit(z, s)
    ensures ReceivedFit(z, Take(s))
  {
    TakeFrame(s);
    FrontFits(z, s);
    TakenLength(z, s);
    hide DownOk, ExitOk, UpOk, InStep, TornOk, Fitting, Take, DistinctKeys;
  }

  lemma FrontFits(z: Sizes, s: State)
    requires Inv(z, s) && s.up[0] != [] && Fitting(z, s)
    ensures s.up[0][0].Data? ==> z.data(s.sid, BlobLen(z, s.up[0][0].blob)) <= MAX_PAYLOAD_SIZE
  {
    assert s.up[0][0] in s.up[0];
    assert UpCell(s, 0, s.up[0][0]) && Fits(z, s.up[0][0]);
  }

  lemma {:induction false} FitAlways(z: Sizes, s: State, steps: seq<Step>, t: State)
    requires Inv(z, s) && z.Valid() && Reaches(z, s, steps, t) && Fitting(z, s) && ReceivedFit(z, s)
    ensures Shape(t) && Fitting(z, t) && ReceivedFit(z, t)
    decreases |steps|
  {
    if steps != [] {
      var s1 := Apply(z, s, steps[0]);
      StepKeeps(z, s, steps[0]);
      StepFits(z, s, steps[0]);
      hide Apply, Enabled, Inv, Fitting, ReceivedFit;
      FitAlways(z, s1, steps[1..], t);
    }
  }

  lemma StepFits(z: Sizes, s: State, step: Step)
    requires Inv(z, s) && Enabled(s, step) && Fitting(z, s) && ReceivedFit(z, s)
    ensures Fitting(z, Apply(z, s, step)) && ReceivedFit(z, Apply(z, s, step))
  {
    StepFrame(z, s, step);
    if step.Receive? {
      TakeFits(z, s);
    }
    hide DownOk, ExitOk, UpOk, InStep, TornOk, Fitting;
    if ByClient(step) {
      ClientFits(z, s, step);
    } else if ByRelay(step) {
      RelayFits(z, s, step);
    } else {
      FarFits(z, s, step);
    }
    hide Ask, Chunk, Take, HandleAbove, HandleBelow, Read, EndRead, SendIf;
  }

  /** In every run the client gets nothing from the first chunk on that does not fit with a tag for every hop: a chunk over the
      budget is the end of the stream, whatever is read and relayed afterwards. */
  lemma OverBudgetEndsTheStream(z: Sizes, path: Path, sid: uint16, steps: seq<Step>, t: State, k: nat)
    requires Run(z, path, sid, steps, t) && DownExact(t.hist) && UpExact(t.read, t.lost) && k < |t.read|
    ensures z.data(sid, MsgLen(z, t.read[k]) + TAG_SIZE * |path|) > MAX_PAYLOAD_SIZE ==> |t.received| <= k
  {
    var s := Fresh(path, sid);
    FreshInv(z, path, sid);
    FitAlways(z, s, steps, t);
    SamePath(z, s, steps, t);
    ClientReceivesPrefix(z, path, sid, steps, t);
    hide Inv, Reaches, DownExact, Fitting;
    if k < |t.received| {
      assert t.received[k] in t.received;
    }
  }
}

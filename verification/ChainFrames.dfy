/** What each kind of step leaves alone. */
module ChainFrames {
  import opened MachineInts
  import opened Nonces
  import opened Wrappers
  import opened Onion
  import opened RelaySpec
  import opened ClientSpec
  import opened Chain

  lemma AskFrame(z: Sizes, s: State, m: Msg, next: Phase)
    requires Shape(s)
    ensures var s1 := Ask(z, s, m, next);
      s1 == s.(client := s.client.(begin := s1.client.begin), phase := s1.phase, down := s1.down, requested := s1.requested)
  {
  }

  lemma ChunkFrame(z: Sizes, s: State, m: Msg)
    requires Shape(s)
    ensures var s1 := Chunk(z, s, m);
      && s1 == s.(client := s.client.(data := s1.client.data), phase := s1.phase, down := s1.down, sent := s1.sent)
      && |s.sent| <= |s1.sent| && s1.sent[..|s.sent|] == s.sent
  {
  }

  /** What a request changes, field by field. */
  lemma AskIs(z: Sizes, s: State, m: Msg, next: Phase)
    requires Shape(s)
    ensures var s1, o := Ask(z, s, m, next), SendRequest(z, s.client, m);
      && s1.client == o.client && s1.path == s.path && s1.sid == s.sid && s1.sent == s.sent && s1.hist == s.hist && s1.hops == s.hops
      && s1.phase == (if o.cell.Some? then next else Closed)
      && s1.requested == (if o.cell.Some? then s.requested + [m] else s.requested)
      && s1.down == (if o.cell.Some? then s.down[0 := s.down[0] + [o.cell.value]] else s.down)
  {
    hide SendRequest;
    var o := SendRequest(z, s.client, m);
    if o.cell == None {
      assert Ask(z, s, m, next) == s.(client := o.client, phase := Closed);
    } else {
      assert Ask(z, s, m, next).down == s.down[0 := s.down[0] + [o.cell.value]];
    }
  }

  lemma ChunkIs(z: Sizes, s: State, m: Msg)
    requires Shape(s)
    ensures var s1, o := Chunk(z, s, m), SendData(z, s.client, s.sid, m);
      && s1.client == o.client && s1.path == s.path && s1.sid == s.sid && s1.requested == s.requested && s1.hist == s.hist
      && s1.hops == s.hops && s1.phase == (if o.cell.Some? then s.phase else Refused)
      && s1.sent == (if o.cell.Some? then s.sent + [m] else s.sent)
      && s1.down == (if o.cell.Some? then s.down[0 := s.down[0] + [o.cell.value]] else s.down)
  {
    hide SendData;
    var o := SendData(z, s.client, s.sid, m);
    if o.cell == None {
      assert Chunk(z, s, m) == s.(client := o.client, phase := Refused);
    } else {
      assert Chunk(z, s, m).down == s.down[0 := s.down[0] + [o.cell.value]];
    }
  }

  lemma TakeFrame(s: State)
    requires Shape(s) && s.up[0] != []
    ensures var s1 := Take(s);
      && s1 == s.(client := s.client.(up := s1.client.up), listening := s1.listening, up := s1.up, received := s1.received)
      && s1.up == s.up[0 := s.up[0][1..]]
  {
    hide Decrypt;
    var c, rest := s.up[0][0], s.up[0 := s.up[0][1..]];
    if c.Data? {
      var d := Decrypt(s.client, c.blob);
      if d.1 == None {
        assert Take(s) == s.(up := rest, client := d.0, listening := false);
      } else {
        assert Take(s) == s.(up := rest, client := d.0, received := s.received + [d.1.value]);
      }
    } else {
      assert Take(s) == s.(up := rest, listening := !IsKill(c) && !c.Malformed?);
    }
  }

  lemma AboveFrame(z: Sizes, s: State, i: nat, dialOk: bool)
    requires Shape(s) && i < |s.path| && s.down[i] != []
    ensures var t := HandleAbove(z, s, i, dialOk);
      && t == s.(hops := t.hops, up := t.up, down := t.down, stray := t.stray, written := t.written, looping := t.looping,
                 hist := t.hist, lost := t.lost, discarded := t.discarded)
      && t.hops == s.hops[i := ReplyAbove(z, s, i, dialOk).hop] && t.hist == s.hist[i := t.hist[i]] && (s.lost ==> t.lost)
      && t.hist[i].fromBelow == s.hist[i].fromBelow
      && t.hist[i].peeled == s.hist[i].peeled + (if Opens(s.hops[i], s.down[i][0]) then 1 else 0)
  {
    hide Handle, Opens;
  }

  lemma BelowFrame(z: Sizes, s: State, i: nat, dialOk: bool)
    requires Shape(s) && i + 1 < |s.path| && s.up[i + 1] != []
    ensures var t := HandleBelow(z, s, i, dialOk);
      && t == s.(hops := t.hops, up := t.up, down := t.down, stray := t.stray, written := t.written, looping := t.looping,
                 hist := t.hist, lost := t.lost)
      && t.hops == s.hops[i := ReplyBelow(z, s, i, dialOk).hop] && t.hist == s.hist[i := t.hist[i]] && (s.lost ==> t.lost)
      && s.hist[i].fromBelow <= t.hist[i].fromBelow && t.hist[i].peeled == s.hist[i].peeled
  {
    hide Handle;
  }

  lemma BelowUps(z: Sizes, s: State, i: nat, dialOk: bool, l: nat)
    requires Shape(s) && i + 1 < |s.path| && s.up[i + 1] != [] && l < |s.path|
    ensures HandleBelow(z, s, i, dialOk).up[l]
      == if l == i then s.up[i] + ReplyBelow(z, s, i, dialOk).up else if l == i + 1 then s.up[l][1..] else s.up[l]
  {
    hide Handle;
  }

  lemma AboveUps(z: Sizes, s: State, i: nat, dialOk: bool, l: nat)
    requires Shape(s) && i < |s.path| && s.down[i] != [] && l < |s.path|
    ensures HandleAbove(z, s, i, dialOk).up[l] == if l == i then s.up[i] + ReplyAbove(z, s, i, dialOk).up else s.up[l]
  {
    hide Handle, Opens;
  }

  lemma ReadFrame(z: Sizes, s: State, m: Msg)
    requires Shape(s)
    ensures var t := Read(z, s, m);
      && t == s.(hops := t.hops, up := t.up, read := s.read + [m], lost := t.lost) && (s.lost ==> t.lost)
      && t.hops == s.hops[|s.path| - 1 := t.hops[|s.path| - 1]]
  {
    hide UpwardCell, SendIf;
  }

  lemma EndReadFrame(z: Sizes, s: State)
    requires Shape(s)
    ensures var t := EndRead(z, s);
      && t == s.(hops := t.hops, up := t.up, looping := false, sinkOk := false)
      && t.hops == s.hops[|s.path| - 1 := t.hops[|s.path| - 1]]
  {
    hide SendIf;
  }

  predicate ByClient(step: Step) {
    step.AskConnect? || step.AskBegin? || step.SendChunk? || step.CloseStream? || step.Receive? || step.LinkEnds?
  }

  predicate ByRelay(step: Step) {
    step.FromAbove? || step.FromBelow? || step.Expire?
  }

  /** Steps never change the path and the stream, and the rest of the state only where they must. */
  ghost predicate Framed(s: State, step: Step, t: State) {
    && t.path == s.path && t.sid == s.sid && (s.lost ==> t.lost)
    && (t.lost == s.lost || step.FromAbove? || step.FromBelow? || step.ReadChunk?)
    && (t.discarded == s.discarded || step.FromAbove?)
    && t.read == (if step.ReadChunk? then s.read + [Raw(step.bytes)] else s.read)
    && ((t.received == s.received && t.listening == s.listening) || step.Receive? || step.LinkEnds?)
    && (t.phase == s.phase || step.AskConnect? || step.AskBegin? || step.SendChunk? || step.CloseStream?)
    && (t.requested == s.requested || step.AskConnect? || step.AskBegin?)
    && (t.sent == s.sent || step.SendChunk?)
    && (step.CloseStream? ==> t.phase == Closed)
    && (t.hist == s.hist || ByRelay(step))
    && (t.sinkOk == s.sinkOk || step.ReadEnd? || step.SinkBreaks?)
  }

  lemma StepFrame(z: Sizes, s: State, step: Step)
    requires Shape(s) && Enabled(s, step)
    ensures Framed(s, step, Apply(z, s, step))
  {
    if ByClient(step) {
      ClientFramed(z, s, step);
    } else if ByRelay(step) {
      RelayFramed(z, s, step);
    } else {
      FarFramed(z, s, step);
    }
  }

  lemma ClientFramed(z: Sizes, s: State, step: Step)
    requires Shape(s) && Enabled(s, step) && ByClient(step)
    ensures Framed(s, step, Apply(z, s, step)) && Apply(z, s, step).hops == s.hops
  {
    hide Ask, Chunk, Take, SendIf;
    if step.AskConnect? {
      AskFrame(z, s, ConnectMsg(step.target), Connected);
    } else if step.AskBegin? {
      AskFrame(z, s, BeginDto(s.sid, step.target), Streaming);
    } else if step.SendChunk? {
      ChunkFrame(z, s, Raw(step.bytes));
    } else if step.Receive? {
      TakeFrame(s);
    }
  }

  lemma RelayFramed(z: Sizes, s: State, step: Step)
    requires Shape(s) && Enabled(s, step) && ByRelay(step)
    ensures Framed(s, step, Apply(z, s, step))
  {
    hide HandleAbove, HandleBelow, Opens;
    if step.FromAbove? {
      AboveFrame(z, s, step.i, step.dialOk);
    } else if step.FromBelow? {
      BelowFrame(z, s, step.i, step.dialOk);
    }
  }

  lemma FarFramed(z: Sizes, s: State, step: Step)
    requires Shape(s) && Enabled(s, step) && !ByClient(step) && !ByRelay(step)
    ensures Framed(s, step, Apply(z, s, step))
    ensures var t, x := Apply(z, s, step), |s.path| - 1; t.hops == s.hops[x := t.hops[x]]
  {
    hide Read, EndRead;
    if step.ReadChunk? {
      ReadFrame(z, s, Raw(step.bytes));
    } else if step.ReadEnd? {
      EndReadFrame(z, s);
    }
  }

  /** What happens at relay `i`, to its state and to its history. */
  ghost predicate FramedAt(z: Sizes, s: State, step: Step, t: State, i: nat)
    requires Shape(s) && Shape(t) && Enabled(s, step) && i < |s.path| == |t.path|
  {
    && ((t.hops[i] == s.hops[i] && t.hist[i] == s.hist[i]) || (ByRelay(step) && step.i == i)
        || ((step.ReadChunk? || step.ReadEnd?) && i == |s.path| - 1))
    && s.hist[i].fromBelow <= t.hist[i].fromBelow
    && t.hist[i].peeled == s.hist[i].peeled + (if step.FromAbove? && step.i == i && Opens(s.hops[i], s.down[i][0]) then 1 else 0)
    && (step.FromAbove? && step.i == i ==> t.hops[i] == ReplyAbove(z, s, i, step.dialOk).hop)
    && (step.FromBelow? && step.i == i ==> t.hops[i] == ReplyBelow(z, s, i, step.dialOk).hop)
  }

  lemma RelayFrame(z: Sizes, s: State, step: Step, i: nat)
    requires Shape(s) && Enabled(s, step) && i < |s.path|
    ensures FramedAt(z, s, step, Apply(z, s, step), i)
  {
    hide Handle, Opens, ReplyAbove, ReplyBelow, HandleAbove, HandleBelow;
    if ByClient(step) {
      ClientFramed(z, s, step);
      hide Apply;
    } else if !ByRelay(step) {
      FarFramed(z, s, step);
      hide Apply;
    } else if step.FromAbove? {
      AboveFrame(z, s, step.i, step.dialOk);
    } else if step.FromBelow? {
      BelowFrame(z, s, step.i, step.dialOk);
    }
  }
}

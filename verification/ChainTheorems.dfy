/** Delivery, drift, and staying in step: what holds in every run of a freshly built circuit. */
module ChainTheorems {
  import opened MachineInts
  import opened Nonces
  import opened Wrappers
  import opened Onion
  import opened RelaySpec
  import opened ClientSpec
  import opened Chain
  import opened ChainLinks
  import opened ChainInvariant
  import opened ChainAbove
  import opened ChainBelow
  import opened ChainEnds
  import opened ChainFrames
  import opened ChainAboveKeeps
  import opened ChainRuns

  /** A circuit the client may have built: at least one relay, distinct hop keys, a stream id that is not the reserved 0. */
  ghost predicate Buildable(path: Path, sid: uint16) {
    |path| >= 1 && DistinctKeys(path) && sid != 0
  }

  /** `t` is reachable; as every reachable state it is of the circuit's shape (SamePath). */
  ghost predicate Run(z: Sizes, path: Path, sid: uint16, steps: seq<Step>, t: State) {
    && z.Valid() && Buildable(path, sid) && Reaches(z, Fresh(path, sid), steps, t)
    && Shape(t) && |t.path| == |path|
  }

  lemma RunInv(z: Sizes, path: Path, sid: uint16, steps: seq<Step>, t: State)
    requires Run(z, path, sid, steps, t)
    ensures Inv(z, t)
  {
    FreshInv(z, path, sid);
    RunKeeps(z, Fresh(path, sid), steps, t);
  }

  lemma {:induction false} SamePath(z: Sizes, s: State, steps: seq<Step>, t: State)
    requires Shape(s) && Reaches(z, s, steps, t)
    ensures t.path == s.path && t.sid == s.sid && Shape(t)
    decreases |steps|
  {
    if steps != [] {
      hide Apply, Enabled;
      SamePath(z, Apply(z, s, steps[0]), steps[1..], t);
    }
  }

  /** With DATA flowing both ways in any interleaving, the exit writes an in-order prefix of what was sent. */
  lemma ExitWritesPrefix(z: Sizes, path: Path, sid: uint16, steps: seq<Step>, t: State)
    requires Run(z, path, sid, steps, t) && DownExact(t.hist)
    ensures |t.written| <= |t.sent|
    ensures forall k :: 0 <= k < |t.written| ==> t.written[k] == Plain(t.sent[k])
  {
    hide Reaches, DownOk, UpOk, InStep, TornOk, DownExact;
    RunInv(z, path, sid, steps, t);
  }

  /** Likewise the client opens an in-order prefix of what the exit read. */
  lemma ClientReceivesPrefix(z: Sizes, path: Path, sid: uint16, steps: seq<Step>, t: State)
    requires Run(z, path, sid, steps, t) && DownExact(t.hist) && UpExact(t.read, t.lost)
    ensures |t.received| <= |t.read|
    ensures forall k :: 0 <= k < |t.received| ==> t.received[k] == Plain(t.read[k])
  {
    hide Reaches, DownOk, ExitOk, InStep, TornOk, DownExact;
    RunInv(z, path, sid, steps, t);
  }

  /** What is on the links. In every run the link to relay `i` holds as many DATA cells as lie between the counts of its two
      ends, each one of the client's chunks under the layers of relays i to the exit; as long as DATA is exact they are
      exactly the chunks of those numbers, in order. While nothing is lost the same holds upwards: the j-th cell leaving
      relay `i` has the layers of relays i to the exit, each sealed under upward number j. */
  lemma LinksCarryLayers(z: Sizes, path: Path, sid: uint16, steps: seq<Step>, t: State, i: nat)
    requires Run(z, path, sid, steps, t) && i < |path|
    ensures |Select(DataKind, t.down[i])| + t.hist[i].fromAbove == (if i == 0 then |t.sent| else t.hist[i - 1].peeled)
    ensures forall c :: c in t.down[i] && c.Data? ==> SomeItem(path, sid, t.sent, i, c)
    ensures DownExact(t.hist) ==>
      Carries(path, sid, DataKind, t.sent, i, t.down[i], t.hist[i].fromAbove, if i == 0 then |t.sent| else t.hist[i - 1].peeled)
    ensures !t.lost ==>
      && DownExact(t.hist)
      && Carries(path, sid, DataKind, t.read, i, t.up[i],
                 if i == 0 then |t.received| else t.hist[i - 1].fromBelow, if i == |path| - 1 then |t.read| else t.hist[i].fromBelow)
  {
    hide Reaches, Carries, HopOk, ExitOk, UpOk, TornOk, ClientOk, SomeItem, DownExact;
    RunInv(z, path, sid, steps, t);
    SamePath(z, Fresh(path, sid), steps, t);
    assert LinkOk(t, i);
    if !t.lost {
      InStepExact(t);
      assert InStepAt(t, i);
    }
  }

  /** The drift law. In every run the downward counter of a relay has moved once for every DATA cell it handled, from either
      side. So as long as DATA is exact, the next DATA from above opens exactly if the relay has handled a multiple of 2^64
      cells from below. If it does not open, a middle relay seals it again and sends it back up. */
  lemma DriftLaw(z: Sizes, path: Path, sid: uint16, steps: seq<Step>, t: State, i: nat, dialOk: bool)
    requires Run(z, path, sid, steps, t) && i < |path|
    ensures t.hops[i].data == Wrap(t.hist[i].fromAbove + t.hist[i].fromBelow)
    ensures Handles(t, i) && t.down[i][0].Data? && DownExact(t.hist) ==>
      (Opens(t.hops[i], t.down[i][0]) <==> t.hist[i].fromBelow % TWO_TO_64 == 0)
    ensures Handles(t, i) && t.down[i][0].Data? && !Opens(t.hops[i], t.down[i][0]) && i + 1 < |path| ==>
      && ReplyAbove(z, t, i, dialOk).down == []
      && ReplyAbove(z, t, i, dialOk).up
         == SendIf(z, true, Data(sid, AESSeal(t.hops[i].key, CounterNonce(t.hops[i].base, t.hops[i].up), t.down[i][0].blob)))
  {
    hide Handle, ReplyAbove, Reaches, ExitOk, UpOk, InStep, TornOk, LinkOk, ClientOk, DownExact;
    RunInv(z, path, sid, steps, t);
    SamePath(z, Fresh(path, sid), steps, t);
    assert HopOk(t, i);
    if Handles(t, i) && t.down[i][0].Data? {
      var _ := NextData(z, t, i);
      if i < Last(t) {
        var _ := MiddleData(z, t, i, dialOk);
      }
    }
  }

  /** Once a relay has relayed one DATA cell upwards, no DATA cell from above ever passes it again. */
  lemma {:induction false} OvertakenStaysShut(z: Sizes, s: State, steps: seq<Step>, t: State, i: nat)
    requires Inv(z, s) && z.Valid() && Reaches(z, s, steps, t)
    requires i < |s.path| == |t.hist| && 0 < s.hist[i].fromBelow && t.hist[i].fromBelow < TWO_TO_64 && DownExact(t.hist)
    ensures t.hist[i].peeled == s.hist[i].peeled
    decreases |steps|
  {
    if steps != [] {
      var s1 := Apply(z, s, steps[0]);
      RunLater(z, s, steps, t);
      RunExact(z, s, steps, t);
      StepKeeps(z, s, steps[0]);
      StepLater(z, s, steps[0]);
      PeeledAt(z, s, steps[0], i);
      hide Apply, Enabled, Inv, DownExact;
      OvertakenStaysShut(z, s1, steps[1..], t, i);
    }
  }

  lemma PeeledAt(z: Sizes, s: State, step: Step, i: nat)
    requires Inv(z, s) && Enabled(s, step) && i < |s.path| && 0 < s.hist[i].fromBelow < TWO_TO_64 && DownExact(s.hist)
    ensures Apply(z, s, step).hist[i].peeled == s.hist[i].peeled
  {
    RelayFrame(z, s, step, i);
    hide Apply, DownOk, ExitOk, UpOk, InStep, TornOk, DownExact;
    if step.FromAbove? && step.i == i && s.down[i][0].Data? {
      var _ := NextData(z, s, i);
    }
  }

  /** No matter what DATA flows, BEGIN and CONNECT stay in step: each relay's counter is the number it handled, each one
      that is due opens at every relay, and none is lost on the way. */
  lemma RequestsStayInStep(z: Sizes, path: Path, sid: uint16, steps: seq<Step>, t: State, i: nat)
    requires Run(z, path, sid, steps, t) && i < |path|
    ensures t.hops[i].begin == Wrap(t.hist[i].requests)
    ensures Carries(path, sid, RequestKind, t.requested, i, t.down[i], t.hist[i].requests,
                    if i == 0 then |t.requested| else t.hist[i - 1].requests)
    ensures Handles(t, i) && IsRequest(t.down[i][0]) ==>
      AESOpen(t.hops[i].key, CounterNonce(t.hops[i].base, t.hops[i].begin), t.down[i][0].request).Some?
  {
    hide Reaches, Carries, ExitOk, UpOk, InStep, TornOk, DownExact, SomeItem;
    RunInv(z, path, sid, steps, t);
    SamePath(z, Fresh(path, sid), steps, t);
    assert HopOk(t, i) && LinkOk(t, i);
    if Handles(t, i) && IsRequest(t.down[i][0]) {
      NextRequest(z, t, i);
    }
  }

  /** The upward counter the exit starts afresh at CONNECT agrees with the client's, because nothing was read before. */
  lemma ConnectPrecedesReading(z: Sizes, path: Path, sid: uint16, steps: seq<Step>, t: State)
    requires Run(z, path, sid, steps, t)
    ensures DownExact(t.hist) ==> t.hops[|path| - 1].up == Wrap(|t.read|)
    ensures Handles(t, |path| - 1) && IsRequest(t.down[|path| - 1][0]) ==>
      t.read == [] && t.written == [] && (DownExact(t.hist) ==> t.received == [])
  {
    hide Handle, Reaches, InStep, TornOk, DownExact;
    RunInv(z, path, sid, steps, t);
    SamePath(z, Fresh(path, sid), steps, t);
    if Handles(t, Last(t)) && IsRequest(t.down[Last(t)][0]) {
      NoDataBeforeRequest(z, t, Last(t));
      assert HopOk(t, Last(t));
    }
  }

  /** A middle relay tells the two directions apart by trial decryption alone, in every reachable state. */
  lemma DirectionIsSound(z: Sizes, path: Path, sid: uint16, steps: seq<Step>, t: State, i: nat)
    requires Run(z, path, sid, steps, t) && i + 1 < |path|
    ensures Relays(t, i) && t.up[i + 1][0].Data? ==> !Opens(t.hops[i], t.up[i + 1][0])
  {
    RunInv(z, path, sid, steps, t);
    SamePath(z, Fresh(path, sid), steps, t);
    if Relays(t, i) && t.up[i + 1][0].Data? {
      NeverOpensFromBelow(z, t, i, true);
    }
  }

  /** The upward loop over a piece at the front and the rest, instead of the last piece. */
  lemma {:induction false} UpstreamFront(z: Sizes, h: Hop, sid: uint16, chunks: seq<seq<byte>>)
    requires chunks != []
    ensures var rest := Upstream(z, h.(up := Inc(h.up)), true, sid, chunks[1..]);
      Upstream(z, h, true, sid, chunks) == (rest.0, SendIf(z, true, UpwardCell(h, sid, Raw(chunks[0]))) + rest.1)
    decreases |chunks|
  {
    hide UpwardCell, SendIf;
    var front := chunks[..|chunks| - 1];
    if front == [] {
      assert chunks[1..] == [];
      var sent := SendIf(z, true, UpwardCell(h, sid, Raw(chunks[0])));
      assert Upstream(z, h, true, sid, front) == (h, []);
      assert [] + sent == sent && sent + [] == sent;
    } else {
      UpstreamFront(z, h, sid, front);
      var tail, k := chunks[1..], |chunks| - 1;
      assert front[1..] == tail[..k - 1] && tail[k - 1] == chunks[k];
      var mid := Upstream(z, h.(up := Inc(h.up)), true, sid, front[1..]);
      var first, last := SendIf(z, true, UpwardCell(h, sid, Raw(chunks[0]))), SendIf(z, true, UpwardCell(mid.0, sid, Raw(chunks[k])));
      assert (first + mid.1) + last == first + (mid.1 + last);
    }
  }

  lemma UpstreamNone(z: Sizes, h: Hop, sid: uint16)
    ensures Upstream(z, h, true, sid, []) == (h, [])
  {
  }

  lemma ReadStep(z: Sizes, s: State, m: Msg)
    requires Shape(s)
    ensures var x, t := |s.path| - 1, Read(z, s, m); var h := s.hops[x];
      && t.hops[x] == h.(up := Inc(h.up)) && t.up[x] == s.up[x] + SendIf(z, true, UpwardCell(h, s.sid, m)) && |t.read| == |s.read| + 1
      && Shape(t) && t.path == s.path && t.sid == s.sid
  {
    hide UpwardCell, SendIf;
  }

  /** The relay's upward loop is a run of reading steps: same state of the exit, same cells on its link. */
  lemma {:induction false} UpwardLoopIsSteps(z: Sizes, s: State, steps: seq<Step>, chunks: seq<seq<byte>>, t: State)
    requires Shape(s) && Reaches(z, s, steps, t)
    requires |steps| == |chunks| && forall k :: 0 <= k < |steps| ==> steps[k] == ReadChunk(chunks[k])
    ensures Shape(t) && t.path == s.path && |t.read| == |s.read| + |chunks|
    ensures var x := |s.path| - 1; var r := Upstream(z, s.hops[x], true, s.sid, chunks);
      t.hops[x] == r.0 && t.up[x] == s.up[x] + r.1
    decreases |chunks|
  {
    hide UpwardCell, SendIf, Upstream;
    if chunks == [] {
      UpstreamNone(z, s.hops[|s.path| - 1], s.sid);
    } else {
      var x, s1 := |s.path| - 1, Apply(z, s, steps[0]);
      assert s1 == Read(z, s, Raw(chunks[0]));
      ReadStep(z, s, Raw(chunks[0]));
      hide Read, Apply, Enabled;
      UpwardLoopIsSteps(z, s1, steps[1..], chunks[1..], t);
      UpstreamFront(z, s.hops[x], s.sid, chunks);
    }
  }
}

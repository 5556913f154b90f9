/** The client of a run is the client: every step of a run that is the client's is what its use cases and its receiving loop do
    with the circuit's counters, the table of local connections and the link to the entry relay. */
module ChainClient {
  import opened MachineInts
  import opened Wrappers
  import opened Onion
  import opened RelaySpec
  import opened ClientSpec
  import opened Sockets
  import opened RelayHandlers
  import opened ClientUseCases
  import opened Receiving
  import opened Chain
  import opened ChainInvariant
  import opened ChainFrames
  import opened ChainRuns
  import opened ChainTheorems

  /** The client as far as one circuit goes: what its receiving loop can touch, and its open streams. */
  datatype Side = Side(box: Inbox, active: set<uint16>)

  /** A cell goes out if it was accepted and the link is open. */
  function Posted(b: Inbox, link: ConnId, cid: CircuitId, o: Outcome): Inbox {
    b.(client := o.client, log := if o.cell.Some? && link !in b.closed then b.log + [CellOut(link, cid, o.cell.value)] else b.log)
  }

  /** Closing a stream: END for it, and the control END if it was the last one open. */
  function Ended(b: Inbox, link: ConnId, cid: CircuitId, sid: uint16, last: bool): Inbox {
    if link in b.closed then b
    else b.(log := b.log + if last then [CellOut(link, cid, End(sid)), CellOut(link, cid, End(0))] else [CellOut(link, cid, End(sid))])
  }

  /** What the client itself does while the run takes a step. A stream that is not open sends nothing. */
  function Follow(z: Sizes, s: State, a: Side, link: ConnId, cid: CircuitId, step: Step): Side
    requires Shape(s) && Enabled(s, step) && a.box.client.Valid()
  {
    match step
    case AskConnect(target) => a.(box := Posted(a.box, link, cid, SendRequest(z, a.box.client, ConnectMsg(target))))
    case AskBegin(target) =>
      if s.sid !in a.active then a
      else a.(box := Posted(a.box, link, cid, SendSpec(z, a.box.client, s.sid, SendsBegin, BeginDto(s.sid, target))))
    case SendChunk(bytes) =>
      if s.sid !in a.active then a
      else a.(box := Posted(a.box, link, cid, SendSpec(z, a.box.client, s.sid, SendsData, Raw(bytes))))
    case CloseStream(_) => Side(Ended(a.box, link, cid, s.sid, a.active - {s.sid} == {}), a.active - {s.sid})
    case Receive => a.(box := Received(a.box, s.up[0][0]).0)
    case LinkEnds => a.(box := CloseEvery(a.box))
    case _ => a
  }

  /** The client has the counters of the run, the stream is open until it is closed, and the link to the entry relay is open and
      no local connection. */
  ghost predicate Matches(s: State, a: Side, link: ConnId)
    requires Shape(s)
  {
    && a.box.client == s.client && (s.phase != Closed ==> s.sid in a.active)
    && link !in a.box.closed && link !in a.box.conns.Values
  }

  /** The run closes the stream as the last one exactly if it is. */
  predicate PlaysAlong(s: State, a: Side, step: Step) {
    step.CloseStream? ==> (step.last <==> a.active - {s.sid} == {})
  }

  lemma FollowMatches(z: Sizes, s: State, a: Side, link: ConnId, cid: CircuitId, step: Step)
    requires Shape(s) && Enabled(s, step) && Matches(s, a, link) && PlaysAlong(s, a, step)
    ensures Matches(Apply(z, s, step), Follow(z, s, a, link, cid, step), link)
  {
    hide SealLayers, NoncesAt, Decrypt, Bump;
    StepFrame(z, s, step);
    match step
    case AskConnect(target) => AskIs(z, s, ConnectMsg(target), Connected);
    case AskBegin(target) => AskIs(z, s, BeginDto(s.sid, target), Streaming);
    case SendChunk(bytes) => ChunkIs(z, s, Raw(bytes));
    case Receive => ReceivedMatches(s, a, link);
    case FromAbove(i, dialOk) => AboveFrame(z, s, i, dialOk);
    case FromBelow(i, dialOk) => BelowFrame(z, s, i, dialOk);
    case ReadChunk(bytes) => ReadFrame(z, s, Raw(bytes));
    case ReadEnd => EndReadFrame(z, s);
    case _ =>
  }

  /** Receiving closes none but registered connections, and registers none. */
  lemma ReceivedSpares(b: Inbox, c: Cell, link: ConnId)
    requires b.client.Valid() && link !in b.closed && link !in b.conns.Values
    ensures var r := Received(b, c).0; link !in r.closed && link !in r.conns.Values
  {
    hide Decrypt;
    if c.End? {
      assert forall x :: x in (b.conns - {c.sid}).Values ==> x in b.conns.Values;
    }
  }

  lemma ReceivedMatches(s: State, a: Side, link: ConnId)
    requires Shape(s) && s.up[0] != [] && Matches(s, a, link)
    ensures Matches(Take(s), a.(box := Received(a.box, s.up[0][0]).0), link)
  {
    TakeFrame(s);
    ReceivedSpares(a.box, s.up[0][0], link);
    var c, b := s.up[0][0], a.box;
    assert Received(b, c).0.client == if c.Data? then Decrypt(b.client, c.blob).0 else b.client;
    hide Decrypt, Received;
  }

  /** The cells a request, DATA or END puts on the first link in the run are the ones the client writes, in order; nothing else
      is written. */
  lemma SendingIsHandled(z: Sizes, s: State, a: Side, link: ConnId, cid: CircuitId, step: Step)
    requires Shape(s) && s.sid != 0 && z.Valid() && Enabled(s, step) && Matches(s, a, link) && PlaysAlong(s, a, step)
    requires step.AskConnect? || step.AskBegin? || step.SendChunk? || step.CloseStream?
    ensures var t := Apply(z, s, step);
      && s.down[0] <= t.down[0] && t.down == s.down[0 := t.down[0]]
      && Follow(z, s, a, link, cid, step).box.log == a.box.log + Outs(link, cid, t.down[0][|s.down[0]|..])
  {
    hide SealLayers, NoncesAt, Bump;
    var t := Apply(z, s, step);
    match step
    case AskConnect(target) => AskIs(z, s, ConnectMsg(target), Connected);
    case AskBegin(target) => AskIs(z, s, BeginDto(s.sid, target), Streaming);
    case SendChunk(bytes) => ChunkIs(z, s, Raw(bytes));
    case CloseStream(last) =>
      assert t.down[0] == s.down[0] + if last then [End(s.sid), End(0)] else [End(s.sid)];
  }

  /** A cell the run's client takes off its link is what the receiving loop makes of it: DATA that opens is written to the
      connection of its stream, if it has one that is open; the loop goes on exactly if the run's client still listens. */
  lemma ReceivingIsHandled(s: State, a: Side, link: ConnId)
    requires Shape(s) && s.listening && s.up[0] != [] && Matches(s, a, link)
    ensures var c, t, r := s.up[0][0], Take(s), Received(a.box, s.up[0][0]);
      && (t.listening <==> r.1)
      && (if c.Data? && t.received != s.received then
            && t.received == s.received + [t.received[|s.received|]]
            && r.0.log == (if c.sid in a.box.conns && a.box.conns[c.sid] !in a.box.closed
                           then a.box.log + [BytesOut(a.box.conns[c.sid], t.received[|s.received|])] else a.box.log)
          else r.0.log == a.box.log)
  {
    hide Decrypt;
  }

  // ---- over whole runs ----

  function FollowAll(z: Sizes, s: State, a: Side, link: ConnId, cid: CircuitId, steps: seq<Step>, t: State): Side
    requires Shape(s) && Reaches(z, s, steps, t) && Matches(s, a, link) && AllPlayAlong(z, s, a, link, cid, steps, t)
    decreases |steps|
  {
    if steps == [] then a else
    FollowMatches(z, s, a, link, cid, steps[0]);
    FollowAll(z, Apply(z, s, steps[0]), Follow(z, s, a, link, cid, steps[0]), link, cid, steps[1..], t)
  }

  ghost predicate AllPlayAlong(z: Sizes, s: State, a: Side, link: ConnId, cid: CircuitId, steps: seq<Step>, t: State)
    requires Shape(s) && Reaches(z, s, steps, t) && Matches(s, a, link)
    decreases |steps|
  {
    steps != [] ==>
      && PlaysAlong(s, a, steps[0])
      && (FollowMatches(z, s, a, link, cid, steps[0]);
          AllPlayAlong(z, Apply(z, s, steps[0]), Follow(z, s, a, link, cid, steps[0]), link, cid, steps[1..], t))
  }

  lemma {:induction false} FollowsRun(z: Sizes, s: State, a: Side, link: ConnId, cid: CircuitId, steps: seq<Step>, t: State)
    requires Shape(s) && Reaches(z, s, steps, t) && Matches(s, a, link) && AllPlayAlong(z, s, a, link, cid, steps, t)
    ensures Shape(t) && Matches(t, FollowAll(z, s, a, link, cid, steps, t), link)
    decreases |steps|
  {
    if steps != [] {
      FollowMatches(z, s, a, link, cid, steps[0]);
      hide Apply, Enabled, Follow, Matches, PlaysAlong;
      FollowsRun(z, Apply(z, s, steps[0]), Follow(z, s, a, link, cid, steps[0]), link, cid, steps[1..], t);
    }
  }

  /** In every run the client is where the run says: one that starts with the counters the build leaves, and has since done what its
      use cases and its receiving loop do, has the run's counters and an open stream until it closes it. */
  lemma ClientFollowsRuns(z: Sizes, path: Path, sid: uint16, steps: seq<Step>, t: State, a: Side, link: ConnId, cid: CircuitId)
    requires Run(z, path, sid, steps, t)
    requires Matches(Fresh(path, sid), a, link) && AllPlayAlong(z, Fresh(path, sid), a, link, cid, steps, t)
    ensures Matches(t, FollowAll(z, Fresh(path, sid), a, link, cid, steps, t), link)
  {
    hide Matches, AllPlayAlong, FollowAll, Reaches;
    FollowsRun(z, Fresh(path, sid), a, link, cid, steps, t);
  }
}

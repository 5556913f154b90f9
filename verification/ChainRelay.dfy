/** The relays of a run are relays: every step of a run at a relay is what its handlers do over its tables, and a relay that
    goes through the run that way stays where the run says it is. */
module ChainRelay {
  import opened MachineInts
  import opened Nonces
  import opened Wrappers
  import opened Onion
  import opened RelaySpec
  import opened Sockets
  import opened Repository
  import opened RelayWorld
  import opened RelayHandlers
  import opened Chain
  import opened ChainInvariant
  import opened ClientSpec
  import opened ChainEnds
  import opened ChainFrames
  import ChainRuns
  import opened ChainTheorems

  /** The entry matches relay `i` of the chain: the same state, the links of a live circuit open, and behind the exit a local
      connection, or one to a hidden service, that takes bytes exactly if the run says so. */
  ghost predicate EntryMatches(s: State, i: nat, v: View, cid: CircuitId)
    requires Shape(s) && i < |s.path|
  {
    && v.entry.hop == s.hops[i] && v.entry.up !in v.closed && v.entry.down != Some(v.entry.up)
    && (v.entry.down.Some? ==> (v.entry.down.value !in v.closed <==> (i < Last(s) || s.sinkOk)))
    && (i == Last(s) && s.sid in OpenIds(v.streams, cid) ==> (v.streams[cid][s.sid] !in v.closed <==> s.sinkOk))
  }

  /** A relay's table holds the circuit exactly as long as it is alive in the run, and then as the run has it. */
  ghost predicate Matches(s: State, i: nat, w: World, cid: CircuitId)
    requires Shape(s) && i < |s.path|
  {
    && Consistent(w) && SoundWorld(w)
    && (cid in w.table <==> s.hops[i].alive)
    && (cid in w.table ==> EntryMatches(s, i, ViewOf(w, cid), cid))
  }

  /** What the invariant of runs says of the relay's state. */
  ghost predicate Placed(s: State, i: nat)
    requires Shape(s) && i < |s.path|
  {
    var h := s.hops[i];
    && h.hasDown == (i < Last(s) || h.hidden) && (h.hidden ==> i == Last(s)) && (i == Last(s) ==> h.streams <= {s.sid})
  }

  lemma InvPlaces(z: Sizes, s: State, i: nat)
    requires Inv(z, s) && i < |s.path|
    ensures Placed(s, i)
  {
    hide LinkOk, ClientOk, UpOk, InStep, TornOk, DownExact;
    assert HopOk(s, i);
  }

  /** What the two descriptions of the surroundings may differ in makes no difference to the reply. */
  lemma SameReply(z: Sizes, s: State, i: nat, w: World, cid: CircuitId, c: Cell, dialled: Option<ConnId>)
    requires Shape(s) && i < |s.path| && cid in w.table && Matches(s, i, w, cid) && Placed(s, i)
    ensures Handle(z, s.hops[i], c, EnvFor(ViewOf(w, cid), cid, c, dialled)) == Handle(z, s.hops[i], c, EnvOf(s, i, dialled.Some?))
  {
    hide CounterNonce;
  }

  /** A cell closes no connection of a circuit that stays but those of its streams. */
  lemma ClosedAfter(z: Sizes, v: View, cid: CircuitId, c: Cell, dialled: Option<ConnId>)
    ensures var t := StepOne(z, v, cid, c, dialled).value;
      t.entry.hop.alive ==> v.closed <= t.closed <= v.closed + ConnsOf(v.streams, cid)
  {
    hide Handle, EnvFor, Logged, Flatten, CounterNonce, ConnsOf, ConnOf;
    var shut := ClosesStream(v.entry.hop, Handle(z, v.entry.hop, c, EnvFor(v, cid, c, dialled)), c);
    if shut.Some? {
      StreamConn(v.streams, cid, shut.value);
    }
  }

  /** The only stream after a cell: just opened, or there before and its connection untouched. */
  lemma StreamAfter(z: Sizes, v: View, cid: CircuitId, c: Cell, dialled: Option<ConnId>, sid: uint16)
    requires v.entry.hop.alive && OpenIds(v.streams, cid) <= {sid}
    ensures var t := StepOne(z, v, cid, c, dialled).value;
      t.entry.hop.alive && sid in OpenIds(t.streams, cid) ==>
        && t.closed == v.closed
        && ((dialled.Some? && t.streams[cid][sid] == dialled.value)
            || (sid in OpenIds(v.streams, cid) && t.streams[cid][sid] == v.streams[cid][sid]))
  {
    hide Handle, EnvFor, Logged, Flatten, CounterNonce;
    FlatAt(v.streams, (cid, sid));
    var shut := ClosesStream(v.entry.hop, Handle(z, v.entry.hop, c, EnvFor(v, cid, c, dialled)), c);
    if shut.Some? {
      FlatAt(v.streams, (cid, shut.value));
    }
  }

  /** A cell handled by the relay and in the run: they still match. */
  lemma HandledMatches(z: Sizes, s: State, i: nat, w: World, cid: CircuitId, c: Cell, dialled: Option<ConnId>, t: State)
    requires Shape(s) && i < |s.path| && cid in w.table && Matches(s, i, w, cid) && Placed(s, i) && NewConn(w, cid, dialled)
    requires dialled.Some? ==> (dialled.value !in w.closed <==> s.sinkOk)
    requires Shape(t) && |t.path| == |s.path| && t.sid == s.sid && t.sinkOk == s.sinkOk && Placed(t, i)
    requires t.hops[i] == Handle(z, s.hops[i], c, EnvOf(s, i, dialled.Some?)).hop
    ensures Matches(t, i, RelayWorld.Step(z, w, cid, c, dialled).value, cid)
  {
    SameReply(z, s, i, w, cid, c, dialled);
    StepKeeps(z, w, cid, c, dialled);
    StepKeepsSound(z, w, cid, c, dialled);
    EntryAfter(z, w, cid, c, dialled);
    EntryAfterOne(z, ViewOf(w, cid), cid, c, dialled);
    if t.hops[i].alive {
      HandledEntry(z, s, i, w, cid, c, dialled, t);
    }
    hide Handle, EnvFor, StepOne, Consistent, SoundWorld, EntryMatches, Placed;
  }

  lemma HandledEntry(z: Sizes, s: State, i: nat, w: World, cid: CircuitId, c: Cell, dialled: Option<ConnId>, t: State)
    requires Shape(s) && i < |s.path| && cid in w.table && Matches(s, i, w, cid) && Placed(s, i) && NewConn(w, cid, dialled)
    requires dialled.Some? ==> (dialled.value !in w.closed <==> s.sinkOk)
    requires Shape(t) && |t.path| == |s.path| && t.sid == s.sid && t.sinkOk == s.sinkOk && Placed(t, i)
    requires t.hops[i] == Handle(z, s.hops[i], c, EnvFor(ViewOf(w, cid), cid, c, dialled)).hop && t.hops[i].alive
    requires var down := StepOne(z, ViewOf(w, cid), cid, c, dialled).value.entry.down; t.hops[i].hasDown == down.Some?
    ensures EntryMatches(t, i, StepOne(z, ViewOf(w, cid), cid, c, dialled).value, cid)
  {
    var v := ViewOf(w, cid);
    assert SoundEntry(v.entry, v.streams, cid) && v.entry.hop.streams == OpenIds(v.streams, cid) && v.entry.hop.alive;
    assert v.entry.hop.hasDown == v.entry.down.Some?;
    hide Consistent, SoundWorld;
    ClosedAfter(z, v, cid, c, dialled);
    EntryAfterOne(z, v, cid, c, dialled);
    HopAfterOne(z, v, cid, c, dialled);
    if i == Last(s) {
      StreamAfter(z, v, cid, c, dialled, s.sid);
    }
    hide Handle, StepOne, OpenIds, ConnsOf, EnvFor;
  }

  lemma HopAfterOne(z: Sizes, v: View, cid: CircuitId, c: Cell, dialled: Option<ConnId>)
    ensures StepOne(z, v, cid, c, dialled).value.entry.hop == Handle(z, v.entry.hop, c, EnvFor(v, cid, c, dialled)).hop
  {
    hide Handle, EnvFor, Logged, Flatten, ConnsOf, ConnOf, OpensStream, ClosesStream, WithStream, WithoutStream;
  }

  /** What the world contributes to a step: the connection a dial gives, and the connection an upward loop reads. */
  datatype Outside = Outside(dialled: Option<ConnId>, local: ConnId)

  /** The connections behind the exit. */
  function Behind(w: World, cid: CircuitId): set<ConnId> {
    if cid !in w.table then {}
    else ConnsOf(w.streams, cid) + if w.table[cid].hop.hidden && w.table[cid].down.Some? then {w.table[cid].down.value} else {}
  }

  /** Relay `i` itself, while the run takes a step. */
  function Follow(z: Sizes, s: State, w: World, i: nat, cid: CircuitId, step: Chain.Step, o: Outside): World
    requires Shape(s) && i < |s.path| && Chain.Enabled(s, step)
  {
    match step
    case FromAbove(j, _) => if j == i then RelayWorld.Step(z, w, cid, s.down[i][0], o.dialled).value else w
    case FromBelow(j, _) => if j == i then RelayWorld.Step(z, w, cid, s.up[i + 1][0], o.dialled).value else w
    case ReadChunk(bytes) => if i == Last(s) && cid in w.table then LoopTurn(z, w, cid, s.sid, bytes) else w
    case ReadEnd => if i == Last(s) && cid in w.table then LoopOver(z, w, cid, s.sid, w.table[cid].up, o.local) else w
    case SinkBreaks => if i == Last(s) then w.(closed := w.closed + Behind(w, cid)) else w
    case Expire(j) =>
      if j == i && cid in w.table then w.(table := w.table - {cid}, closed := w.closed + LinksOf(w.table[cid])) else w
    case _ => w
  }

  /** The world plays along: a dial succeeds exactly if the run says so, and gives a connection that is new and broken only if
      the run says so; the loop reads the connection behind the exit. */
  ghost predicate PlaysAlong(s: State, w: World, i: nat, cid: CircuitId, step: Chain.Step, o: Outside)
    requires Shape(s) && i < |s.path|
  {
    && (step.FromAbove? && step.i == i ==> step.dialOk == o.dialled.Some?)
    && (step.FromBelow? && step.i == i ==> step.dialOk == o.dialled.Some?)
    && NewConn(w, cid, o.dialled)
    && (o.dialled.Some? ==> (o.dialled.value !in w.closed <==> s.sinkOk))
    && (step.ReadEnd? && i == Last(s) && cid in w.table ==>
          var e := w.table[cid];
          && o.local != e.up && (e.hop.hidden ==> e.down == Some(o.local))
          && (s.sid in OpenIds(w.streams, cid) ==> w.streams[cid][s.sid] == o.local))
  }

  /** Steps elsewhere leave the relay as it is. */
  lemma SameMatches(s: State, t: State, i: nat, w: World, cid: CircuitId)
    requires Shape(s) && Shape(t) && i < |s.path| == |t.path| && Matches(s, i, w, cid)
    requires t.hops[i] == s.hops[i] && t.sid == s.sid && (t.sinkOk == s.sinkOk || i < Last(s))
    ensures Matches(t, i, w, cid)
  {
  }

  lemma TurnMatches(z: Sizes, s: State, w: World, cid: CircuitId, bytes: seq<byte>)
    requires Shape(s) && s.hops[Last(s)].alive && Matches(s, Last(s), w, cid)
    ensures Matches(Read(z, s, Raw(bytes)), Last(s), LoopTurn(z, w, cid, s.sid, bytes), cid)
  {
    hide OpenIds, ConnsOf, Send, UpwardCell;
  }

  lemma LoopEndMatches(z: Sizes, s: State, w: World, cid: CircuitId, o: Outside)
    requires Shape(s) && s.sid != 0 && s.hops[Last(s)].alive && Matches(s, Last(s), w, cid) && Placed(s, Last(s))
    requires PlaysAlong(s, w, Last(s), cid, ReadEnd, o)
    ensures Matches(EndRead(z, s), Last(s), LoopOver(z, w, cid, s.sid, w.table[cid].up, o.local), cid)
  {
    LoopOverConsistent(z, w, cid, s.sid, w.table[cid].up, o.local);
    LoopOverSound(z, w, cid, s.sid, w.table[cid].up, o.local);
    LoopEndEntry(z, s, w, cid, o);
    hide Consistent, SoundWorld, EntryMatches, ConnOf, WithoutStream, Send, SendIf;
  }

  lemma LoopEndEntry(z: Sizes, s: State, w: World, cid: CircuitId, o: Outside)
    requires Shape(s) && s.sid != 0 && s.hops[Last(s)].alive && Matches(s, Last(s), w, cid) && Placed(s, Last(s))
    requires PlaysAlong(s, w, Last(s), cid, ReadEnd, o)
    ensures var t := LoopOver(z, w, cid, s.sid, w.table[cid].up, o.local);
      cid in t.table && EntryMatches(EndRead(z, s), Last(s), ViewOf(t, cid), cid)
  {
    var e, t := w.table[cid], LoopOver(z, w, cid, s.sid, w.table[cid].up, o.local);
    OpenIdsWithout(w.streams, cid, s.sid);
    LoopOverIs(z, w, cid, s.sid, e.up, o.local);
    EndReadIs(z, s);
    UpStaysOpen(w, cid, s.sid);
    assert s.sid !in OpenIds(t.streams, cid);
    assert e.hop.hasDown == e.down.Some?;
    hide LoopOver, EndRead, Consistent, SoundWorld, OpenIds, NewConn, ConnOf, WithoutStream;
    EndedMatches(s, EndRead(z, s), ViewOf(w, cid), ViewOf(t, cid), cid, o.local);
  }

  lemma UpStaysOpen(w: World, cid: CircuitId, sid: uint16)
    requires SoundWorld(w) && cid in w.table && w.table[cid].up !in w.closed
    ensures w.table[cid].up !in w.closed + ConnOf(w.streams, cid, sid)
  {
    assert SoundEntry(w.table[cid], w.streams, cid);
    StreamConn(w.streams, cid, sid);
    hide ConnsOf, ConnOf;
  }

  lemma EndedMatches(s: State, t: State, v: View, u: View, cid: CircuitId, local: ConnId)
    requires Shape(s) && Shape(t) && |t.path| == |s.path| && !t.sinkOk && t.sid == s.sid
    requires v.entry.hop == s.hops[Last(s)] && v.entry.hop.hasDown == v.entry.down.Some? && v.entry.hop.hasDown == v.entry.hop.hidden
    requires v.entry.hop.hidden ==> v.entry.down == Some(local)
    requires t.hops[Last(s)] == s.hops[Last(s)].(streams := s.hops[Last(s)].streams - {s.sid}) && u.entry == Emptied(v.entry, s.sid)
    requires u.entry.up !in u.closed && local in u.closed && v.entry.down != Some(v.entry.up) && s.sid !in OpenIds(u.streams, cid)
    ensures EntryMatches(t, Last(s), u, cid)
  {
    hide OpenIds;
  }

  lemma LoopOverIs(z: Sizes, w: World, cid: CircuitId, sid: uint16, up: ConnId, local: ConnId)
    requires cid in w.table && sid != 0
    ensures var t := LoopOver(z, w, cid, sid, up, local);
      && cid in t.table && t.table[cid] == Emptied(w.table[cid], sid) && t.closed == w.closed + ConnOf(w.streams, cid, sid) + {local}
      && t.streams == WithoutStream(w.streams, cid, sid)
  {
    hide WithoutStream, ConnOf, Send, Emptied;
  }

  lemma EndReadIs(z: Sizes, s: State)
    requires Shape(s)
    ensures var t := EndRead(z, s);
      && t.hops[Last(s)] == s.hops[Last(s)].(streams := s.hops[Last(s)].streams - {s.sid})
      && !t.sinkOk && t.sid == s.sid && t.path == s.path
  {
    hide SendIf;
  }

  lemma BreakMatches(s: State, w: World, cid: CircuitId)
    requires Shape(s) && Matches(s, Last(s), w, cid) && Placed(s, Last(s))
    ensures Matches(s.(sinkOk := false), Last(s), w.(closed := w.closed + Behind(w, cid)), cid)
  {
    if cid in w.table {
      assert SoundEntry(w.table[cid], w.streams, cid);
    }
  }

  lemma ExpiryMatches(s: State, i: nat, w: World, cid: CircuitId, t: State)
    requires Shape(s) && i < |s.path| && cid in w.table && Matches(s, i, w, cid)
    requires Shape(t) && |t.path| == |s.path| && !t.hops[i].alive
    ensures Matches(t, i, w.(table := w.table - {cid}, closed := w.closed + LinksOf(w.table[cid])), cid)
  {
    hide OpenIds, NoEmptyMaps, ConnsOf;
  }

  /** The steps that involve relay `i`. */
  predicate Involves(s: State, step: Chain.Step, i: nat)
    requires Shape(s) && i < |s.path|
  {
    match step
    case FromAbove(j, _) => j == i
    case FromBelow(j, _) => j == i
    case Expire(j) => j == i
    case ReadChunk(_) => i == Last(s)
    case ReadEnd => i == Last(s)
    case SinkBreaks => i == Last(s)
    case _ => false
  }

  lemma Elsewhere(z: Sizes, s: State, step: Chain.Step, i: nat)
    requires Shape(s) && Chain.Enabled(s, step) && i < |s.path| && !Involves(s, step, i)
    ensures var t := Apply(z, s, step); t.hops[i] == s.hops[i] && t.sid == s.sid && (t.sinkOk == s.sinkOk || i < Last(s))
  {
    StepFrame(z, s, step);
    RelayFrame(z, s, step, i);
    hide Apply;
  }

  predicate HandlesAt(step: Chain.Step, i: nat) {
    (step.FromAbove? || step.FromBelow?) && step.i == i
  }

  /** The cell relay `i` handles. */
  function Handled(s: State, i: nat, step: Chain.Step): Cell
    requires Shape(s) && Chain.Enabled(s, step) && HandlesAt(step, i)
  {
    if step.FromAbove? then s.down[i][0] else s.up[i + 1][0]
  }

  lemma HandledIs(z: Sizes, s: State, i: nat, step: Chain.Step)
    requires Shape(s) && i < |s.path| && Chain.Enabled(s, step) && HandlesAt(step, i)
    ensures var t := Apply(z, s, step);
      && t.hops[i] == Handle(z, s.hops[i], Handled(s, i, step), EnvOf(s, i, step.dialOk)).hop && t.sinkOk == s.sinkOk && t.sid == s.sid
  {
    StepFrame(z, s, step);
    RelayFrame(z, s, step, i);
    hide Apply, Handle;
  }

  lemma HandlingMatches(z: Sizes, s: State, w: World, i: nat, cid: CircuitId, step: Chain.Step, o: Outside)
    requires Inv(z, s) && z.Valid() && Chain.Enabled(s, step) && i < |s.path| && Matches(s, i, w, cid) && PlaysAlong(s, w, i, cid, step, o)
    requires HandlesAt(step, i)
    ensures Matches(Apply(z, s, step), i, Follow(z, s, w, i, cid, step, o), cid)
  {
    ChainRuns.StepKeeps(z, s, step);
    InvPlaces(z, s, i);
    InvPlaces(z, Apply(z, s, step), i);
    HandledIs(z, s, i, step);
    hide Inv, Apply, Handle, RelayWorld.Step, EntryMatches, SoundWorld, Consistent, NewConn, Placed;
    HandledMatches(z, s, i, w, cid, Handled(s, i, step), o.dialled, Apply(z, s, step));
  }

  /** The loop reads or ends, the connection behind the exit breaks, the sweep comes. */
  lemma BesidesMatches(z: Sizes, s: State, w: World, i: nat, cid: CircuitId, step: Chain.Step, o: Outside)
    requires Shape(s) && s.sid != 0 && Chain.Enabled(s, step) && i < |s.path| && Matches(s, i, w, cid) && PlaysAlong(s, w, i, cid, step, o)
    requires Placed(s, i) && Involves(s, step, i) && !HandlesAt(step, i)
    ensures Matches(Apply(z, s, step), i, Follow(z, s, w, i, cid, step, o), cid)
  {
    hide Read, EndRead, LoopOver, LoopTurn, EntryMatches, SoundWorld, Consistent, NewConn, Behind, Placed;
    match step
    case ReadChunk(bytes) => TurnMatches(z, s, w, cid, bytes);
    case ReadEnd => LoopEndMatches(z, s, w, cid, o);
    case SinkBreaks => BreakMatches(s, w, cid);
    case Expire(j) => ExpiryMatches(s, i, w, cid, Apply(z, s, step));
  }

  /** One step: the relay and the run still match. */
  lemma FollowMatches(z: Sizes, s: State, w: World, i: nat, cid: CircuitId, step: Chain.Step, o: Outside)
    requires Inv(z, s) && z.Valid() && Chain.Enabled(s, step) && i < |s.path| && Matches(s, i, w, cid) && PlaysAlong(s, w, i, cid, step, o)
    ensures Matches(Apply(z, s, step), i, Follow(z, s, w, i, cid, step, o), cid)
  {
    if HandlesAt(step, i) {
      HandlingMatches(z, s, w, i, cid, step, o);
    } else {
      InvPlaces(z, s, i);
      assert s.sid != 0;
      hide Inv, Apply, PlaysAlong, Placed, EntryMatches, Consistent, SoundWorld;
      if Involves(s, step, i) {
        BesidesMatches(z, s, w, i, cid, step, o);
      } else {
        Elsewhere(z, s, step, i);
        SameMatches(s, Apply(z, s, step), i, w, cid);
      }
    }
  }

  /** Relay `i` through a run. */
  function FollowAll(z: Sizes, s: State, w: World, i: nat, cid: CircuitId, steps: seq<Chain.Step>, os: seq<Outside>, t: State): World
    requires Shape(s) && i < |s.path| && |os| == |steps| && Chain.Reaches(z, s, steps, t)
    decreases |steps|
  {
    if steps == [] then w
    else FollowAll(z, Apply(z, s, steps[0]), Follow(z, s, w, i, cid, steps[0], os[0]), i, cid, steps[1..], os[1..], t)
  }

  ghost predicate AllPlayAlong(z: Sizes, s: State, w: World, i: nat, cid: CircuitId, steps: seq<Chain.Step>, os: seq<Outside>, t: State)
    requires Shape(s) && i < |s.path| && |os| == |steps| && Chain.Reaches(z, s, steps, t)
    decreases |steps|
  {
    steps != [] ==>
      && PlaysAlong(s, w, i, cid, steps[0], os[0])
      && AllPlayAlong(z, Apply(z, s, steps[0]), Follow(z, s, w, i, cid, steps[0], os[0]), i, cid, steps[1..], os[1..], t)
  }

  lemma {:induction false} FollowsRun(z: Sizes, s: State, w: World, i: nat, cid: CircuitId, steps: seq<Chain.Step>, os: seq<Outside>, t: State)
    requires Inv(z, s) && z.Valid() && i < |s.path| && |os| == |steps| && Chain.Reaches(z, s, steps, t) && Matches(s, i, w, cid)
    requires AllPlayAlong(z, s, w, i, cid, steps, os, t)
    ensures Shape(t) && i < |t.path| && Matches(t, i, FollowAll(z, s, w, i, cid, steps, os, t), cid)
    decreases |steps|
  {
    if steps != [] {
      ChainRuns.StepKeeps(z, s, steps[0]);
      FollowMatches(z, s, w, i, cid, steps[0], os[0]);
      hide Inv, Apply, Chain.Enabled, Follow, PlaysAlong, Matches;
      FollowsRun(z, Apply(z, s, steps[0]), Follow(z, s, w, i, cid, steps[0], os[0]), i, cid, steps[1..], os[1..], t);
    }
  }

  /** A relay that has answered EXTEND matches the freshly built circuit. */
  lemma FreshMatches(path: Path, sid: uint16, i: nat, w: World, from: ConnId, cid: CircuitId, dialled: Option<ConnId>)
    requires |path| >= 1 && i < |path| && Consistent(w) && NoOrphans(w) && SoundWorld(w) && cid !in w.table
    requires from !in w.closed && (i + 1 < |path| ==> dialled.Some? && dialled.value !in w.closed + {from})
    ensures Shape(Fresh(path, sid))
    ensures Matches(Fresh(path, sid), i, StepExtend(w, from, cid, Extension(Some(path[i]), i + 1 < |path|), dialled, false).value, cid)
  {
    var a := Arrival(cid, Extending(Extension(Some(path[i]), i + 1 < |path|)), dialled, false);
    assert cid !in w.streams;
    assert OpenIds(w.streams, cid) == {} && ConnsOf(w.streams, cid) == {};
    ExtendKeeps(w, from, a, a.what.ext);
    hide Consistent, SoundWorld, NoOrphans;
  }

  /** In every run, every relay is where the run says: one that answered EXTEND and has since done with its tables what its
      handlers, its upward loop and its sweeper do, is in the state the run has for it. */
  lemma RelaysFollowRuns(z: Sizes, path: Path, sid: uint16, steps: seq<Chain.Step>, os: seq<Outside>, t: State,
      i: nat, w: World, cid: CircuitId)
    requires Run(z, path, sid, steps, t) && i < |path| && |os| == |steps|
    requires Matches(Fresh(path, sid), i, w, cid) && AllPlayAlong(z, Fresh(path, sid), w, i, cid, steps, os, t)
    ensures Matches(t, i, FollowAll(z, Fresh(path, sid), w, i, cid, steps, os, t), cid)
  {
    FreshInv(z, path, sid);
    hide Inv, Matches, AllPlayAlong, FollowAll, Chain.Reaches;
    FollowsRun(z, Fresh(path, sid), w, i, cid, steps, os, t);
  }

  /** The relay's handling of a cell from above is the run's: the same reply, all of it in the log, on the right connection. */
  lemma AboveIsHandled(z: Sizes, s: State, i: nat, w: World, cid: CircuitId, dialled: Option<ConnId>)
    requires Inv(z, s) && i < |s.path| && s.down[i] != [] && cid in w.table && Matches(s, i, w, cid)
    ensures var r, e := ReplyAbove(z, s, i, dialled.Some?), w.table[cid];
      var after := RelayWorld.Step(z, w, cid, s.down[i][0], dialled).value;
      && (forall d :: d in r.up ==> after.log == w.log + [CellOut(e.up, cid, d)])
      && (forall d :: d in r.down && e.down.Some? ==> after.log == w.log + [CellOut(e.down.value, cid, d)])
      && (r.wrote.Some? ==> exists conn :: conn in Behind(w, cid) && after.log == w.log + [BytesOut(conn, r.wrote.value)])
      && (r.up == [] && r.down == [] && r.wrote == None ==> after.log == w.log)
  {
    Delivers(z, s, i, w, cid, s.down[i][0], dialled);
  }

  lemma BelowIsHandled(z: Sizes, s: State, i: nat, w: World, cid: CircuitId, dialled: Option<ConnId>)
    requires Inv(z, s) && i + 1 < |s.path| && s.up[i + 1] != [] && cid in w.table && Matches(s, i, w, cid)
    ensures var r, e := ReplyBelow(z, s, i, dialled.Some?), w.table[cid];
      var after := RelayWorld.Step(z, w, cid, s.up[i + 1][0], dialled).value;
      && (forall d :: d in r.up ==> after.log == w.log + [CellOut(e.up, cid, d)])
      && (forall d :: d in r.down && e.down.Some? ==> after.log == w.log + [CellOut(e.down.value, cid, d)])
      && (r.up == [] && r.down == [] && r.wrote == None ==> after.log == w.log)
  {
    Delivers(z, s, i, w, cid, s.up[i + 1][0], dialled);
  }

  /** What the exit's upward loop writes, turn by turn and at its end, is what the run's steps put on the exit's upward link. */
  lemma LoopIsHandled(z: Sizes, s: State, w: World, cid: CircuitId, bytes: seq<byte>, local: ConnId)
    requires Shape(s) && s.sid != 0 && z.Valid() && cid in w.table && Matches(s, Last(s), w, cid)
    ensures var up, x := w.table[cid].up, Last(s);
      && (var sent := SendIf(z, true, UpwardCell(s.hops[x], s.sid, Raw(bytes)));
          && Read(z, s, Raw(bytes)).up == s.up[x := s.up[x] + sent]
          && LoopTurn(z, w, cid, s.sid, bytes).log == w.log + Outs(up, cid, sent))
      && EndRead(z, s).up == s.up[x := s.up[x] + [End(s.sid)]]
      && LoopOver(z, w, cid, s.sid, up, local).log == w.log + [CellOut(up, cid, End(s.sid))]
  {
    UpStaysOpen(w, cid, s.sid);
    hide CounterNonce, ConnOf, ConnsOf, Consistent, SoundWorld;
  }

  lemma Delivers(z: Sizes, s: State, i: nat, w: World, cid: CircuitId, c: Cell, dialled: Option<ConnId>)
    requires Inv(z, s) && i < |s.path| && cid in w.table && Matches(s, i, w, cid)
    ensures var r, e := Handle(z, s.hops[i], c, EnvOf(s, i, dialled.Some?)), w.table[cid];
      var after := RelayWorld.Step(z, w, cid, c, dialled).value;
      && (forall d :: d in r.up ==> after.log == w.log + [CellOut(e.up, cid, d)])
      && (forall d :: d in r.down && e.down.Some? ==> after.log == w.log + [CellOut(e.down.value, cid, d)])
      && (r.wrote.Some? ==> exists conn :: conn in Behind(w, cid) && after.log == w.log + [BytesOut(conn, r.wrote.value)])
      && (r.up == [] && r.down == [] && r.wrote == None ==> after.log == w.log)
  {
    InvPlaces(z, s, i);
    SameReply(z, s, i, w, cid, c, dialled);
    hide Inv;
    var env, sink := EnvFor(ViewOf(w, cid), cid, c, dialled), Sink(ViewOf(w, cid), cid, c);
    LoggedIsAll(z, w.log, w.table[cid], sink, cid, s.hops[i], c, env);
    WrittenBehind(z, s, i, w, cid, c, dialled);
    hide Handle, Logged, Behind, Sink, EnvFor;
  }

  /** Plaintext goes only to a connection behind the exit. */
  lemma WrittenBehind(z: Sizes, s: State, i: nat, w: World, cid: CircuitId, c: Cell, dialled: Option<ConnId>)
    requires Shape(s) && i < |s.path| && cid in w.table && Matches(s, i, w, cid)
    ensures var sink := Sink(ViewOf(w, cid), cid, c);
      Handle(z, s.hops[i], c, EnvFor(ViewOf(w, cid), cid, c, dialled)).wrote.Some? ==> sink.Some? && sink.value in Behind(w, cid)
  {
    hide CounterNonce;
  }
}

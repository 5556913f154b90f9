/** A whole relay: its tables, its connections, and the handlers, proved against the specification of one circuit. */
module RelayWorld {
  import opened MachineInts
  import opened Nonces
  import opened Wrappers
  import opened Onion
  import opened RelaySpec
  import opened Sockets
  import opened Repository

  /** One circuit in the table: its state and the connections it runs over. */
  datatype Entry = Entry(hop: Hop, up: ConnId, down: Option<ConnId>)

  /** Everything a relay holds, as a value. */
  datatype World = World(table: map<CircuitId, Entry>, streams: StreamMaps, closed: set<ConnId>, log: seq<Event>)

  /** What handling a cell of one circuit can touch. */
  datatype View = View(entry: Entry, streams: StreamMaps, closed: set<ConnId>, log: seq<Event>)

  /** The connection plaintext of the circuit would go to. */
  function Sink(v: View, cid: CircuitId, c: Cell): Option<ConnId> {
    if v.entry.hop.hasDown then v.entry.down
    else if c.Data? && cid in v.streams && c.sid in v.streams[cid] then Some(v.streams[cid][c.sid])
    else None
  }

  function EnvFor(v: View, cid: CircuitId, c: Cell, dialled: Option<ConnId>): Env {
    var e, sink := v.entry, Sink(v, cid, c);
    Env(e.up !in v.closed, e.down.Some? && e.down.value !in v.closed, sink.Some? && sink.value !in v.closed, dialled.Some?)
  }

  /** The stream a cell opens at this relay, if the dial succeeds. */
  function OpensStream(h: Hop, c: Cell): Option<uint16> {
    if c.Begin? && !h.hasDown then
      match AESOpen(h.key, CounterNonce(h.base, h.begin), c.request)
      case Some(Plain(BeginDto(sid, _))) => if sid != 0 then Some(sid) else None
      case _ => None
    else None
  }

  /** The stream a cell closes at this relay: by END, or because the local connection is broken. */
  function ClosesStream(h: Hop, r: Reply, c: Cell): Option<uint16> {
    if c.End? && c.sid != 0 then Some(c.sid)
    else if c.Data? && !h.hasDown && c.sid in h.streams && c.sid !in r.hop.streams then Some(c.sid)
    else None
  }

  /** The log after a reply. A reply never holds more than one cell or write. */
  function Logged(log: seq<Event>, e: Entry, sink: Option<ConnId>, cid: CircuitId, r: Reply): seq<Event> {
    if r.up != [] then log + [CellOut(e.up, cid, r.up[0])]
    else if r.down != [] && e.down.Some? then log + [CellOut(e.down.value, cid, r.down[0])]
    else if r.wrote.Some? && sink.Some? then log + [BytesOut(sink.value, r.wrote.value)]
    else log
  }

  /** Nothing of a reply is missing from the log. */
  lemma LoggedIsAll(z: Sizes, log: seq<Event>, e: Entry, sink: Option<ConnId>, cid: CircuitId, h: Hop, c: Cell, env: Env)
    ensures var r := Handle(z, h, c, env); var after := Logged(log, e, sink, cid, r);
      && (forall d :: d in r.up ==> after == log + [CellOut(e.up, cid, d)])
      && (forall d :: d in r.down && e.down.Some? ==> after == log + [CellOut(e.down.value, cid, d)])
      && (r.wrote.Some? && sink.Some? ==> after == log + [BytesOut(sink.value, r.wrote.value)])
      && (r.up == [] && r.down == [] && r.wrote == None ==> after == log)
  {
    OneEvent(z, h, c, env);
    hide Handle;
  }

  datatype Result<T> = Result(value: T, loop: Option<uint16>, ok: bool)

  /** One circuit of a relay after one cell: the specification's reply, put into effect. */
  function StepOne(z: Sizes, v: View, cid: CircuitId, c: Cell, dialled: Option<ConnId>): Result<View> {
    var e := v.entry;
    var r := Handle(z, e.hop, c, EnvFor(v, cid, c, dialled));
    var log := Logged(v.log, e, Sink(v, cid, c), cid, r);
    if !r.hop.alive then
      Result(View(Entry(r.hop, e.up, e.down), v.streams - {cid}, v.closed + LinksOf(e) + ConnsOf(v.streams, cid), log), r.loop, r.ok)
    else
      var down := if r.hop.hidden && !e.hop.hidden then dialled else e.down;
      var begun, shut := OpensStream(e.hop, c), ClosesStream(e.hop, r, c);
      var streams :=
        if begun.Some? && dialled.Some? then WithStream(v.streams, cid, begun.value, dialled.value)
        else if shut.Some? then WithoutStream(v.streams, cid, shut.value)
        else v.streams;
      var closed := if shut.Some? then v.closed + ConnOf(v.streams, cid, shut.value) else v.closed;
      Result(View(Entry(r.hop, e.up, down), streams, closed, log), r.loop, r.ok)
  }

  function LinksOf(e: Entry): set<ConnId> {
    {e.up} + if e.down.Some? then {e.down.value} else {}
  }

  /** The connection of one stream, as a set of at most one. */
  function ConnOf(streams: StreamMaps, cid: CircuitId, sid: uint16): set<ConnId> {
    if (cid, sid) in Flatten(streams) then {Flatten(streams)[(cid, sid)]} else {}
  }

  function ViewOf(w: World, cid: CircuitId): View
    requires cid in w.table
  {
    View(w.table[cid], w.streams, w.closed, w.log)
  }

  /** The relay after one cell. */
  function Step(z: Sizes, w: World, cid: CircuitId, c: Cell, dialled: Option<ConnId>): Result<World> {
    if cid !in w.table then Result(w, None, c.End?) else
    var o := StepOne(z, ViewOf(w, cid), cid, c, dialled);
    var v := o.value;
    Result(World(if v.entry.hop.alive then w.table[cid := v.entry] else w.table - {cid}, v.streams, v.closed, v.log), o.loop, o.ok)
  }

  // ---- EXTEND ----

  /** An EXTEND cell: the key and base nonce the key exchange gives, unless the payload or the exchange is refused, and whether
      it names a next hop. */
  datatype Extension = Extension(id: Option<Ident>, hasNext: bool)

  /** The entry EXTEND creates. Streams that a sweep left behind under the same id become the new circuit's. */
  function NewEntry(streams: StreamMaps, from: ConnId, cid: CircuitId, id: Ident, down: Option<ConnId>): Entry {
    Entry(FreshHop(id.key, id.base, down.Some?).(streams := OpenIds(streams, cid)), from, down)
  }

  function Answered(log: seq<Event>, closed: set<ConnId>, up: ConnId, cid: CircuitId): seq<Event> {
    if up !in closed then log + [CreatedOut(up, cid)] else log
  }

  /** EXTEND: a relay that does not know the circuit dials the next hop, stores a fresh state and answers; one that does passes
      the cell on, waits for the answer from below, and passes that up. `answered` says whether one comes. */
  function StepExtend(w: World, from: ConnId, cid: CircuitId, ext: Extension, dialled: Option<ConnId>, answered: bool): Result<World> {
    if cid !in w.table then
      if ext.id == None || (ext.hasNext && dialled == None) then Result(w, None, false)
      else
        var e := NewEntry(w.streams, from, cid, ext.id.value, if ext.hasNext then dialled else None);
        Result(w.(table := w.table[cid := e], log := Answered(w.log, w.closed, from, cid)), None, from !in w.closed)
    else
      var e := w.table[cid];
      if e.down == None || e.down.value in w.closed then Result(w, None, false)
      else
        var log := w.log + [ExtendOut(e.down.value, cid)];
        if !answered then Result(w.(log := log), None, false)
        else Result(w.(log := Answered(log, w.closed, e.up, cid)), None, e.up !in w.closed)
  }

  // ---- everything that happens at a relay ----

  datatype Incoming = Ordinary(cell: Cell) | Extending(ext: Extension)

  /** A cell as it arrives, the connection a dial would give, and whether the relay below would answer an EXTEND. */
  datatype Arrival = Arrival(cid: CircuitId, what: Incoming, dialled: Option<ConnId>, answered: bool)

  function Arrive(z: Sizes, w: World, from: ConnId, a: Arrival): Result<World> {
    match a.what
    case Ordinary(c) => Step(z, w, a.cid, c, a.dialled)
    case Extending(ext) => StepExtend(w, from, a.cid, ext, a.dialled, a.answered)
  }

  /** One turn of an upward loop: a piece of the stream sealed under the next upward nonce and sent up. */
  function LoopTurn(z: Sizes, w: World, cid: CircuitId, sid: uint16, bytes: seq<byte>): World
    requires cid in w.table
  {
    var e := w.table[cid];
    w.(table := w.table[cid := e.(hop := e.hop.(up := Inc(e.hop.up)))],
       log := Send(z, w.log, w.closed, e.up, cid, UpwardCell(e.hop, sid, Raw(bytes))))
  }

  /** The end of an upward loop, which runs beside the handlers: the stream is removed, END sent, the connection closed. The
      circuit may be gone by then. */
  function LoopOver(z: Sizes, w: World, cid: CircuitId, sid: uint16, up: ConnId, local: ConnId): World {
    var closed := w.closed + (if sid != 0 then ConnOf(w.streams, cid, sid) else {});
    World(if cid in w.table && sid != 0 then w.table[cid := Emptied(w.table[cid], sid)] else w.table,
          if sid != 0 then WithoutStream(w.streams, cid, sid) else w.streams,
          closed + {local}, Send(z, w.log, closed, up, cid, End(sid)))
  }

  function Emptied(e: Entry, sid: uint16): Entry {
    e.(hop := e.hop.(streams := e.hop.streams - {sid}))
  }

  /** A cell on any of the relay's connections, or the end of an upward loop. */
  datatype Happening =
    | Arrives(from: ConnId, a: Arrival)
    | LoopEnds(cid: CircuitId, sid: uint16, up: ConnId, local: ConnId)

  function Happen(z: Sizes, w: World, h: Happening): World {
    match h
    case Arrives(from, a) => Arrive(z, w, from, a).value
    case LoopEnds(cid, sid, up, local) => LoopOver(z, w, cid, sid, up, local)
  }

  /** The relay after anything that can happen, for any circuits, from any side. */
  function Serve(z: Sizes, w: World, hs: seq<Happening>): World
    decreases |hs|
  {
    if hs == [] then w else Serve(z, Happen(z, w, hs[0]), hs[1..])
  }

  /** A dial gives a connection that is not in use for the circuit, and EXTEND comes in on one that is not. */
  ghost predicate Admits(w: World, from: ConnId, a: Arrival) {
    match a.what
    case Ordinary(_) => NewConn(w, a.cid, a.dialled)
    case Extending(_) =>
      a.cid !in w.table ==> ConnsOf(w.streams, a.cid) !! {from} + (if a.dialled.Some? then {a.dialled.value} else {})
  }

  ghost predicate DialsNew(z: Sizes, w: World, hs: seq<Happening>)
    decreases |hs|
  {
    hs != [] ==>
      && (hs[0].Arrives? ==> Admits(w, hs[0].from, hs[0].a))
      && DialsNew(z, Happen(z, w, hs[0]), hs[1..])
  }

  /** The tables agree: the specification's set of open streams is what the stream table holds. */
  ghost predicate Consistent(w: World) {
    && NoEmptyMaps(w.streams)
    && forall cid :: cid in w.table ==>
         && w.table[cid].hop.alive
         && w.table[cid].hop.streams == OpenIds(w.streams, cid)
         && w.table[cid].hop.hasDown == w.table[cid].down.Some?
         && (w.table[cid].hop.hidden ==> w.table[cid].hop.hasDown)
  }

  /** Every circuit with streams is a known circuit. */
  ghost predicate NoOrphans(w: World) {
    w.streams.Keys <= w.table.Keys
  }

  /** The links of a circuit and its local connections are different connections. */
  ghost predicate SoundEntry(e: Entry, streams: StreamMaps, cid: CircuitId) {
    (e.hop.hidden ==> e.down.Some?) && ConnsOf(streams, cid) !! LinksOf(e)
  }

  ghost predicate SoundWorld(w: World) {
    forall cid :: cid in w.table ==> SoundEntry(w.table[cid], w.streams, cid)
  }

  /** A dial gives a connection the circuit does not use yet. */
  ghost predicate NewConn(w: World, cid: CircuitId, dialled: Option<ConnId>) {
    dialled.Some? && cid in w.table ==> dialled.value !in ConnsOf(w.streams, cid) + LinksOf(w.table[cid])
  }

  lemma OpenIdsWith(streams: StreamMaps, cid: CircuitId, sid: uint16, conn: ConnId)
    ensures var plus := WithStream(streams, cid, sid, conn);
      && (NoEmptyMaps(streams) ==> NoEmptyMaps(plus)) && plus.Keys == streams.Keys + {cid}
      && forall other :: OpenIds(plus, other) == if other == cid then OpenIds(streams, cid) + {sid} else OpenIds(streams, other)
  {
    FlatAdd(streams, cid, sid, conn);
  }

  lemma OpenIdsWithout(streams: StreamMaps, cid: CircuitId, sid: uint16)
    ensures var minus := WithoutStream(streams, cid, sid);
      && (NoEmptyMaps(streams) ==> NoEmptyMaps(minus)) && minus.Keys <= streams.Keys
      && forall other :: OpenIds(minus, other) == if other == cid then OpenIds(streams, cid) - {sid} else OpenIds(streams, other)
  {
    FlatRemove(streams, cid, sid);
    var minus := WithoutStream(streams, cid, sid);
    if cid in streams {
      var rest := streams[cid] - {sid};
      assert rest.Keys == streams[cid].Keys - {sid};
      if rest == map[] {
        assert rest.Keys == {};
      }
    }
  }

  /** How one cell changes the set of open streams, as the specification has it. */
  lemma StreamsOf(z: Sizes, h: Hop, c: Cell, env: Env)
    requires h.alive && (h.hidden ==> h.hasDown)
    ensures var r := Handle(z, h, c, env);
      r.hop.alive ==>
        && r.hop.streams == (if OpensStream(h, c).Some? && env.dialOk then h.streams + {OpensStream(h, c).value}
                             else if ClosesStream(h, r, c).Some? then h.streams - {ClosesStream(h, r, c).value}
                             else h.streams)
        && r.hop.hasDown == (h.hasDown || (r.hop.hidden && !h.hidden)) && (r.hop.hidden ==> r.hop.hasDown)
        && (r.hop.hidden && !h.hidden ==> env.dialOk)
  {
  }

  /** The stream table after a cell, circuit by circuit. */
  lemma StreamsAfter(z: Sizes, w: World, cid: CircuitId, c: Cell, dialled: Option<ConnId>)
    requires Consistent(w) && cid in w.table
    ensures var e, t := w.table[cid], Step(z, w, cid, c, dialled).value;
      var r := Handle(z, e.hop, c, EnvFor(ViewOf(w, cid), cid, c, dialled));
      && NoEmptyMaps(t.streams) && t.streams.Keys <= w.streams.Keys + (if r.hop.alive then {cid} else {})
      && OpenIds(t.streams, cid) == (if r.hop.alive then r.hop.streams else {})
      && forall other :: other != cid ==> OpenIds(t.streams, other) == OpenIds(w.streams, other)
  {
    hide Handle, WithStream, WithoutStream, Flatten, NoEmptyMaps, Logged;
    var e, env := w.table[cid], EnvFor(ViewOf(w, cid), cid, c, dialled);
    StreamsOf(z, e.hop, c, env);
    var r := Handle(z, e.hop, c, env);
    if OpensStream(e.hop, c).Some? {
      OpenIdsWith(w.streams, cid, OpensStream(e.hop, c).value, if dialled.Some? then dialled.value else 0);
    }
    if ClosesStream(e.hop, r, c).Some? {
      OpenIdsWithout(w.streams, cid, ClosesStream(e.hop, r, c).value);
    }
    DropKeeps(w.streams, cid);
  }

  /** The entry of the circuit after a cell. */
  lemma EntryAfter(z: Sizes, w: World, cid: CircuitId, c: Cell, dialled: Option<ConnId>)
    requires Consistent(w) && cid in w.table
    ensures var t, r := Step(z, w, cid, c, dialled).value, Handle(z, w.table[cid].hop, c, EnvFor(ViewOf(w, cid), cid, c, dialled));
      && t.table.Keys == (if r.hop.alive then w.table.Keys else w.table.Keys - {cid})
      && (forall other :: other in w.table && other != cid ==> t.table[other] == w.table[other])
      && (r.hop.alive ==>
            && t.table[cid].hop == r.hop
            && r.hop.hasDown == t.table[cid].down.Some? && (r.hop.hidden ==> r.hop.hasDown))
  {
    hide Handle, OpensStream, ClosesStream, WithStream, WithoutStream, Flatten, NoEmptyMaps, OpenIds;
    StreamsOf(z, w.table[cid].hop, c, EnvFor(ViewOf(w, cid), cid, c, dialled));
  }

  /** Handling a cell keeps the tables in agreement, leaves no orphaned streams, and touches one circuit only. */
  lemma StepKeeps(z: Sizes, w: World, cid: CircuitId, c: Cell, dialled: Option<ConnId>)
    requires Consistent(w)
    ensures var t := Step(z, w, cid, c, dialled).value;
      && Consistent(t) && (NoOrphans(w) ==> NoOrphans(t))
      && (forall other :: other != cid ==>
            && (other in t.table <==> other in w.table) && (other in w.table ==> t.table[other] == w.table[other])
            && OpenIds(t.streams, other) == OpenIds(w.streams, other))
  {
    if cid in w.table {
      EntryAfter(z, w, cid, c, dialled);
      StreamsAfter(z, w, cid, c, dialled);
      hide Step, Handle, OpenIds, NoEmptyMaps, EnvFor;
      EachConsistent(z, w, cid, c, dialled);
    }
  }

  lemma EachConsistent(z: Sizes, w: World, cid: CircuitId, c: Cell, dialled: Option<ConnId>)
    requires Consistent(w) && cid in w.table
    ensures Consistent(Step(z, w, cid, c, dialled).value)
  {
    EntryAfter(z, w, cid, c, dialled);
    StreamsAfter(z, w, cid, c, dialled);
    hide Step, Handle, OpenIds, NoEmptyMaps, EnvFor;
    var t := Step(z, w, cid, c, dialled).value;
    forall other | other in t.table
      ensures && t.table[other].hop.alive
              && t.table[other].hop.streams == OpenIds(t.streams, other)
              && t.table[other].hop.hasDown == t.table[other].down.Some?
              && (t.table[other].hop.hidden ==> t.table[other].hop.hasDown)
    {
    }
  }

  lemma DropKeeps(streams: StreamMaps, cid: CircuitId)
    ensures NoEmptyMaps(streams) ==> NoEmptyMaps(streams - {cid})
    ensures OpenIds(streams - {cid}, cid) == {}
    ensures forall other :: other != cid ==> OpenIds(streams - {cid}, other) == OpenIds(streams, other)
  {
  }

  // ---- the specification, case by case ----

  function Send(z: Sizes, log: seq<Event>, closed: set<ConnId>, w: ConnId, cid: CircuitId, c: Cell): seq<Event> {
    if Fits(z, c) && w !in closed then log + [CellOut(w, cid, c)] else log
  }

  /** A view whose parts agree about the circuit. */
  ghost predicate Coherent(v: View, cid: CircuitId) {
    && v.entry.hop.alive && v.entry.hop.streams == OpenIds(v.streams, cid)
    && v.entry.hop.hasDown == v.entry.down.Some? && (v.entry.hop.hidden ==> v.entry.hop.hasDown)
  }

  lemma StepDataShut(z: Sizes, v: View, cid: CircuitId, sid: uint16, blob: Blob)
    requires Coherent(v, cid) && sid != 0
    requires AESOpen(v.entry.hop.key, CounterNonce(v.entry.hop.base, v.entry.hop.data), blob) == None
    ensures var e, t := v.entry, StepOne(z, v, cid, Data(sid, blob), None);
      var h, enc := e.hop, Data(sid, AESSeal(e.hop.key, CounterNonce(e.hop.base, e.hop.up), blob));
      if h.hasDown then
        t == Result(v.(entry := e.(hop := h.(data := Inc(h.data), up := Inc(h.up))), log := Send(z, v.log, v.closed, e.up, cid, enc)),
                    None, Fits(z, enc) && e.up !in v.closed)
      else
        t == Result(v.(entry := e.(hop := h.(data := Inc(h.data)))), None, false)
  {
    hide CounterNonce, Flatten, WithStream, WithoutStream;
  }

  lemma StepDataThrough(z: Sizes, v: View, cid: CircuitId, sid: uint16, blob: Blob)
    requires Coherent(v, cid) && sid != 0 && v.entry.hop.hasDown
    requires AESOpen(v.entry.hop.key, CounterNonce(v.entry.hop.base, v.entry.hop.data), blob).Some?
    ensures var e, t := v.entry, StepOne(z, v, cid, Data(sid, blob), None);
      var h, d, c := e.hop, e.down.value, Data(sid, blob.inner);
      if h.hidden then
        t == Result(v.(entry := e.(hop := h.(data := Inc(h.data))),
                       log := if d in v.closed then v.log else v.log + [BytesOut(d, blob.inner)]), None, d !in v.closed)
      else
        t == Result(v.(entry := e.(hop := h.(data := Inc(h.data), served := true)),
                       log := Send(z, v.log, v.closed, d, cid, c)), None, Fits(z, c) && d !in v.closed)
  {
    hide CounterNonce, Flatten, WithStream, WithoutStream;
  }

  lemma StepDataExit(z: Sizes, v: View, cid: CircuitId, sid: uint16, blob: Blob)
    requires Coherent(v, cid) && sid != 0 && !v.entry.hop.hasDown
    requires AESOpen(v.entry.hop.key, CounterNonce(v.entry.hop.base, v.entry.hop.data), blob).Some?
    ensures var e, t, k := v.entry, StepOne(z, v, cid, Data(sid, blob), None), (cid, sid);
      var h, flat, answer := e.hop.(data := Inc(e.hop.data)), Flatten(v.streams), Send(z, v.log, v.closed, e.up, cid, Destroy);
      if k in flat && flat[k] !in v.closed then
        t == Result(v.(entry := e.(hop := h), log := v.log + [BytesOut(flat[k], blob.inner)]), None, true)
      else if k in flat then
        t == Result(v.(entry := e.(hop := h.(streams := h.streams - {sid})),
                       streams := WithoutStream(v.streams, cid, sid), log := answer), None, false)
      else
        t == Result(v.(entry := e.(hop := h), log := answer), None, true)
  {
    FlatAt(v.streams, (cid, sid));
    hide CounterNonce, Flatten, WithStream, WithoutStream;
    if (cid, sid) in Flatten(v.streams) && Flatten(v.streams)[(cid, sid)] in v.closed {
      assert v.closed + ConnOf(v.streams, cid, sid) == v.closed;
    }
  }

  /** DATA for stream 0, and cells without meaning at a relay, change nothing; not even a counter moves. */
  lemma StepNothing(z: Sizes, v: View, cid: CircuitId, c: Cell)
    requires Coherent(v, cid) && (c.Malformed? || c.Ignored? || (c.Data? && c.sid == 0))
    ensures StepOne(z, v, cid, c, None) == Result(v, None, c.Ignored?)
  {
  }

  /** A cell of a circuit the relay does not know changes nothing and is an error, but for END. */
  lemma StepUnknown(z: Sizes, w: World, cid: CircuitId, c: Cell, dialled: Option<ConnId>)
    requires cid !in w.table
    ensures Step(z, w, cid, c, dialled) == Result(w, None, c.End?)
  {
  }

  /** BEGIN_ACK is passed up. */
  lemma StepAck(z: Sizes, v: View, cid: CircuitId)
    requires Coherent(v, cid)
    ensures var up := v.entry.up;
      StepOne(z, v, cid, BeginAck, None)
        == Result(v.(log := if up in v.closed then v.log else v.log + [CellOut(up, cid, BeginAck)]), None, up !in v.closed)
  {
  }

  /** BEGIN: its nonce is used up in any case. A relay with a relay below passes it on; a hidden one starts the upward loop and
      then acknowledges; an exit dials, and starts the loop once the acknowledgement is out. */
  lemma StepBegin(z: Sizes, v: View, cid: CircuitId, request: Blob, dialled: Option<ConnId>)
    requires Coherent(v, cid)
    ensures var e, t := v.entry, StepOne(z, v, cid, Begin(request), dialled);
      var h, dec := e.hop.(begin := Inc(e.hop.begin)), AESOpen(e.hop.key, CounterNonce(e.hop.base, e.hop.begin), request);
      var open, moved := e.up !in v.closed, v.(entry := e.(hop := h));
      var acked := if open then v.log + [CellOut(e.up, cid, BeginAck)] else v.log;
      if dec == None then t == Result(moved, None, false)
      else if h.hasDown && !h.hidden then
        var d, c := e.down.value, Begin(dec.value);
        t == Result(v.(entry := e.(hop := h.(served := true)), log := Send(z, v.log, v.closed, d, cid, c)),
                    None, Fits(z, c) && d !in v.closed)
      else match dec.value
        case Plain(BeginDto(sid, _)) =>
          if sid == 0 then t == Result(moved, None, false)
          else if h.hidden then t == Result(moved.(log := acked), Some(sid), open)
          else if dialled == None then t == Result(moved.(log := Send(z, v.log, v.closed, e.up, cid, Destroy)), None, false)
          else
            t == Result(View(e.(hop := h.(streams := h.streams + {sid})), WithStream(v.streams, cid, sid, dialled.value), v.closed, acked),
                        if open then Some(sid) else None, open)
        case _ => t == Result(moved, None, false)
  {
    hide CounterNonce, Flatten, WithStream, WithoutStream;
  }

  /** CONNECT at a relay with a connection below: the reader there is started even if the layer does not open. */
  lemma StepConnectThrough(z: Sizes, v: View, cid: CircuitId, request: Blob, dialled: Option<ConnId>)
    requires Coherent(v, cid) && v.entry.hop.hasDown
    ensures var e, t := v.entry, StepOne(z, v, cid, Connect(request), dialled);
      var moved, d := v.(entry := e.(hop := e.hop.(begin := Inc(e.hop.begin), served := true))), e.down.value;
      match AESOpen(e.hop.key, CounterNonce(e.hop.base, e.hop.begin), request)
      case None => t == Result(moved, None, false)
      case Some(dec) =>
        t == Result(moved.(log := Send(z, v.log, v.closed, d, cid, Connect(dec))), None, Fits(z, Connect(dec)) && d !in v.closed)
  {
    hide CounterNonce, Flatten, WithStream, WithoutStream;
  }


  /** END, for one stream or for all, is passed down whatever its id. END for one stream closes that stream, END for stream 0
      the circuit with its links and all its streams. */
  lemma StepEnd(z: Sizes, v: View, cid: CircuitId, sid: uint16)
    requires Coherent(v, cid) && z.data(sid, 0) <= MAX_PAYLOAD_SIZE
    ensures var e, t := v.entry, StepOne(z, v, cid, End(sid), None);
      && t.value.log == (if e.down.Some? && e.down.value !in v.closed then v.log + [CellOut(e.down.value, cid, End(sid))] else v.log)
      && t.loop == None && t.value.entry.up == e.up && t.value.entry.down == e.down
      && if sid == 0 then
           && t.ok && !t.value.entry.hop.alive && t.value.entry.hop.streams == {} && t.value.streams == v.streams - {cid}
           && t.value.closed == v.closed + {e.up} + (if e.down.Some? then {e.down.value} else {}) + ConnsOf(v.streams, cid)
         else
           && t.ok == (e.down.Some? ==> e.down.value !in v.closed)
           && t.value.entry.hop == e.hop.(served := e.hop.served || e.down.Some?, streams := e.hop.streams - {sid})
           && t.value.streams == WithoutStream(v.streams, cid, sid)
           && t.value.closed == v.closed + ConnOf(v.streams, cid, sid)
  {
    hide CounterNonce, Flatten, WithStream, WithoutStream, ConnsOf, ConnOf;
  }

  /** DESTROY is passed down too, and takes the circuit with everything of it, but starts no reader. */
  lemma StepDestroy(z: Sizes, v: View, cid: CircuitId)
    requires Coherent(v, cid)
    ensures var e, t := v.entry, StepOne(z, v, cid, Destroy, None);
      && t.value.log == (if e.down.Some? && e.down.value !in v.closed then v.log + [CellOut(e.down.value, cid, Destroy)] else v.log)
      && t.loop == None && t.ok && !t.value.entry.hop.alive && t.value.streams == v.streams - {cid}
      && t.value.closed == v.closed + {e.up} + (if e.down.Some? then {e.down.value} else {}) + ConnsOf(v.streams, cid)
  {
    hide CounterNonce, Flatten, WithStream, WithoutStream, ConnsOf, ConnOf;
  }

  /** EXTEND is answered: for a circuit that is new, upwards on the connection it came on, as soon as the circuit is stored; for a
      known one it goes down as it is, and the answer from below goes up. Where the key exchange or a dial fails, or nothing is
      below, nothing is written and nothing changes. */
  lemma ExtendIsAnswered(w: World, from: ConnId, cid: CircuitId, ext: Extension, dialled: Option<ConnId>, answered: bool)
    ensures var t := StepExtend(w, from, cid, ext, dialled, answered);
      t.loop == None &&
      if cid !in w.table then
        if ext.id == None || (ext.hasNext && dialled == None) then t.value == w && !t.ok
        else
          var down, id := if ext.hasNext then dialled else None, ext.id.value;
          && t.ok == (from !in w.closed)
          && t.value.log == (if from in w.closed then w.log else w.log + [CreatedOut(from, cid)])
          && t.value == w.(log := t.value.log, table := w.table[cid :=
               Entry(Hop(id.key, id.base, 0, 0, 0, ext.hasNext, false, false, true, OpenIds(w.streams, cid)), from, down)])
      else
        var up, down := w.table[cid].up, w.table[cid].down;
        if down == None || down.value in w.closed then t.value == w && !t.ok
        else
          && t.ok == (answered && up !in w.closed) && t.value == w.(log := t.value.log)
          && t.value.log == w.log + [ExtendOut(down.value, cid)] + if answered && up !in w.closed then [CreatedOut(up, cid)] else []
  {
  }

  /** Whether the last relay can act on a CONNECT: the layer opens, the request decodes, and the dial succeeds. */
  predicate Connects(z: Sizes, h: Hop, request: Blob, dialled: Option<ConnId>) {
    && var dec := AESOpen(h.key, CounterNonce(h.base, h.begin), request);
    && dec.Some? && !(BlobLen(z, dec.value) > 0 && !(dec.value.Plain? && dec.value.msg.ConnectDto?))
    && dialled.Some?
  }

  lemma StepConnectExit(z: Sizes, v: View, cid: CircuitId, request: Blob, dialled: Option<ConnId>)
    requires Coherent(v, cid) && !v.entry.hop.hasDown && !v.entry.hop.hidden
    ensures var e, t := v.entry, StepOne(z, v, cid, Connect(request), dialled); var h := e.hop;
      if Connects(z, h, request, dialled) then
        t == Result(v.(entry := Entry(h.(begin := Inc(h.begin), up := 0, hasDown := true, hidden := true, served := false), e.up, dialled),
                       log := Send(z, v.log, v.closed, e.up, cid, BeginAck)), None, e.up !in v.closed)
      else
        t == Result(v.(entry := e.(hop := h.(begin := Inc(h.begin)))), None, false)
  {
    hide CounterNonce, Flatten, WithStream, WithoutStream;
  }

  /** The sweeper drops circuits but not their streams: it leaves orphans exactly if it drops a circuit with an open stream. */
  lemma SweepOrphans(w: World, ids: set<CircuitId>)
    requires Consistent(w) && NoOrphans(w)
    ensures NoOrphans(w.(table := w.table - ids)) <==> forall cid :: cid in ids && cid in w.table ==> w.table[cid].hop.streams == {}
  {
    forall cid | cid in w.streams
      ensures w.table[cid].hop.streams != {}
    {
      assert cid in w.table && w.streams[cid] != map[];
      var sid :| sid in w.streams[cid];
      assert sid in OpenIds(w.streams, cid);
    }
  }
}

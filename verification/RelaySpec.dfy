/** What one relay does with one cell of one circuit, as a function of the relay's state for that circuit. */
module RelaySpec {
  import opened MachineInts
  import opened Nonces
  import opened Wrappers
  import opened Onion

  /** The cells of an established circuit. `Malformed` is a DATA cell, or an END cell of a known circuit, whose payload does
      not decode; `Ignored` has a command the dispatcher drops. */
  datatype Cell =
    | Data(sid: uint16, blob: Blob)
    | Begin(request: Blob)
    | Connect(request: Blob)
    | BeginAck
    | End(sid: uint16)
    | Destroy
    | Malformed
    | Ignored

  function PayloadLen(z: Sizes, c: Cell): nat {
    match c
    case Data(sid, blob) => z.data(sid, BlobLen(z, blob))
    case Begin(request) => BlobLen(z, request)
    case Connect(request) => BlobLen(z, request)
    case End(sid) => z.data(sid, 0)
    case _ => 0
  }

  predicate Fits(z: Sizes, c: Cell) {
    PayloadLen(z, c) <= MAX_PAYLOAD_SIZE
  }

  /** The state of one circuit at one relay. `streams` are the circuit's ids in the relay's stream table;
      a circuit the table no longer holds is not `alive`. */
  datatype Hop = Hop(
    key: Key, base: Nonce,
    begin: uint64, data: uint64, up: uint64,
    hasDown: bool, hidden: bool, served: bool,
    alive: bool, streams: set<uint16>)

  function FreshHop(key: Key, base: Nonce, hasDown: bool): Hop {
    Hop(key, base, 0, 0, 0, hasDown, false, false, true, {})
  }

  /** How the world outside answers while one cell is handled: whether the two links and the local connection
      still take bytes, and whether a dial succeeds. */
  datatype Env = Env(upOpen: bool, downOpen: bool, writeOk: bool, dialOk: bool)

  /** The new state, the cells put on the link towards the client and on the downward link, the plaintext written
      to the local connection, the stream an upward loop was started for, and whether the handler returned no error. */
  datatype Reply = Reply(hop: Hop, up: seq<Cell>, down: seq<Cell>, wrote: Option<Blob>, loop: Option<uint16>, ok: bool)

  /** Sending a cell: a payload over the bound is refused by the encoder, a closed link by the write. */
  function SendIf(z: Sizes, open: bool, c: Cell): seq<Cell> {
    if Fits(z, c) && open then [c] else []
  }

  function HandleData(z: Sizes, h: Hop, sid: uint16, blob: Blob, env: Env): Reply {
    if sid == 0 then Reply(h, [], [], None, None, false) else
    var h1 := h.(data := Inc(h.data));
    match AESOpen(h.key, CounterNonce(h.base, h.data), blob)
    case None =>
      if h.hasDown then
        var enc := AESSeal(h.key, CounterNonce(h.base, h.up), blob);
        var sent := SendIf(z, env.upOpen, Data(sid, enc));
        Reply(h1.(up := Inc(h.up)), sent, [], None, None, sent != [])
      else
        Reply(h1, [], [], None, None, false)
    case Some(dec) =>
      if h.hidden then
        Reply(h1, [], [], if env.writeOk then Some(dec) else None, None, env.writeOk)
      else if h.hasDown then
        var sent := SendIf(z, env.downOpen, Data(sid, dec));
        Reply(h1.(served := true), [], sent, None, None, sent != [])
      else if sid !in h.streams then
        Reply(h1, SendIf(z, env.upOpen, Destroy), [], None, None, true)
      else if env.writeOk then
        Reply(h1, [], [], Some(dec), None, true)
      else
        Reply(h1.(streams := h.streams - {sid}), SendIf(z, env.upOpen, Destroy), [], None, None, false)
  }

  function HandleBegin(z: Sizes, h: Hop, request: Blob, env: Env): Reply {
    var h1 := h.(begin := Inc(h.begin));
    match AESOpen(h.key, CounterNonce(h.base, h.begin), request)
    case None => Reply(h1, [], [], None, None, false)
    case Some(dec) =>
      if h.hasDown && !h.hidden then
        var sent := SendIf(z, env.downOpen, Begin(dec));
        Reply(h1.(served := true), [], sent, None, None, sent != [])
      else if !dec.Plain? || !dec.msg.BeginDto? || dec.msg.sid == 0 then
        Reply(h1, [], [], None, None, false)
      else if h.hidden then
        var ack := SendIf(z, env.upOpen, BeginAck);
        Reply(h1, ack, [], None, Some(dec.msg.sid), ack != [])
      else if !env.dialOk then
        Reply(h1, SendIf(z, env.upOpen, Destroy), [], None, None, false)
      else
        var ack := SendIf(z, env.upOpen, BeginAck);
        Reply(h1.(streams := h.streams + {dec.msg.sid}), ack, [], None,
              if ack != [] then Some(dec.msg.sid) else None, ack != [])
  }

  function HandleConnect(z: Sizes, h: Hop, request: Blob, env: Env): Reply {
    var h1 := h.(begin := Inc(h.begin), served := h.served || h.hasDown);
    match AESOpen(h.key, CounterNonce(h.base, h.begin), request)
    case None => Reply(h1, [], [], None, None, false)
    case Some(dec) =>
      if h.hasDown then
        var sent := SendIf(z, env.downOpen, Connect(dec));
        Reply(h1, [], sent, None, None, sent != [])
      else if (BlobLen(z, dec) > 0 && !(dec.Plain? && dec.msg.ConnectDto?)) || !env.dialOk then
        Reply(h1, [], [], None, None, false)
      else
        // a new state replaces the old one: it keeps two of the counters and starts the upward one at 0
        var h2 := Hop(h.key, h.base, h1.begin, h1.data, 0, true, true, false, true, h.streams);
        var ack := SendIf(z, env.upOpen, BeginAck);
        Reply(h2, ack, [], None, None, ack != [])
  }

  function HandleEnd(z: Sizes, h: Hop, sid: uint16, env: Env): Reply {
    var h1 := h.(served := h.served || h.hasDown);
    var sent := if h.hasDown then SendIf(z, env.downOpen, End(sid)) else [];
    if sid == 0 then
      Reply(h1.(alive := false, streams := {}), [], sent, None, None, true)
    else
      Reply(h1.(streams := h.streams - {sid}), [], sent, None, None, h.hasDown ==> sent != [])
  }

  function HandleDestroy(z: Sizes, h: Hop, env: Env): Reply {
    Reply(h.(alive := false, streams := {}), [], if h.hasDown then SendIf(z, env.downOpen, Destroy) else [], None, None, true)
  }

  /** The cell the upward loop makes of a piece of the stream. */
  function UpwardCell(h: Hop, sid: uint16, m: Msg): Cell {
    Data(sid, AESSeal(h.key, CounterNonce(h.base, h.up), Plain(m)))
  }

  /** The upward loop over successive pieces: the state it leaves, and the cells that went out. The nonce of a piece is
      used up even if its cell is refused. */
  function Upstream(z: Sizes, h: Hop, open: bool, sid: uint16, chunks: seq<seq<byte>>): (Hop, seq<Cell>) {
    if chunks == [] then (h, []) else
    var before := Upstream(z, h, open, sid, chunks[..|chunks| - 1]);
    (before.0.(up := Inc(before.0.up)),
     before.1 + SendIf(z, open, UpwardCell(before.0, sid, Raw(chunks[|chunks| - 1]))))
  }

  /** The dispatcher. It is told the circuit and the cell, but not the side the cell came from. */
  function Handle(z: Sizes, h: Hop, c: Cell, env: Env): Reply {
    if !h.alive then Reply(h, [], [], None, None, c.End?) else
    match c
    case Data(sid, blob) => HandleData(z, h, sid, blob, env)
    case Begin(request) => HandleBegin(z, h, request, env)
    case Connect(request) => HandleConnect(z, h, request, env)
    case BeginAck => var sent := SendIf(z, env.upOpen, BeginAck); Reply(h, sent, [], None, None, sent != [])
    case End(sid) => HandleEnd(z, h, sid, env)
    case Destroy => HandleDestroy(z, h, env)
    case Malformed => Reply(h, [], [], None, None, false)
    case Ignored => Reply(h, [], [], None, None, true)
  }

  /** The cells that make a relay start reading cells on its downward connection. */
  predicate Wakes(c: Cell) {
    c.Begin? || c.Connect? || c.Data? || c.End?
  }

  /** A relay starts the reader on its downward connection only for one of four kinds of cells, and sends up only what fits. */
  lemma Woken(z: Sizes, h: Hop, c: Cell, env: Env)
    ensures var r := Handle(z, h, c, env);
      && (r.hop.served ==> h.served || Wakes(c))
      && (r.up != [] ==> Fits(z, r.up[0]))
  {
    hide CounterNonce;
  }

  /** Only END for stream 0 and DESTROY make a relay drop the circuit. */
  lemma HandleAlive(z: Sizes, h: Hop, c: Cell, env: Env)
    requires h.alive
    ensures Handle(z, h, c, env).hop.alive == !(c == End(0) || c.Destroy?)
  {
    hide CounterNonce;
  }

  /** A reply puts out at most one cell or one piece of plaintext. */
  lemma OneEvent(z: Sizes, h: Hop, c: Cell, env: Env)
    ensures var r := Handle(z, h, c, env); |r.up| + |r.down| + (if r.wrote.Some? then 1 else 0) <= 1
  {
    hide CounterNonce;
  }
}

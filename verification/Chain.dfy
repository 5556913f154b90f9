/** One circuit of n relays as a state machine: a client, a FIFO link in each direction between neighbours, and the
    stream behind the last relay. One step is one cell handled, one chunk read or one request of the client, so every
    interleaving of the parties is a run. */
module Chain {
  import opened MachineInts
  import opened Nonces
  import opened Wrappers
  import opened Onion
  import opened RelaySpec
  import opened ClientSpec

  /** Where the client is in its fixed order: an optional CONNECT, then BEGIN, then DATA, then END. A DATA cell the
      encoder refuses ends the sending, a refused CONNECT or BEGIN ends everything. */
  datatype Phase = Idle | Connected | Streaming | Refused | Closed

  /** What has happened so far at one relay: DATA cells handled from above, those of them that opened, DATA cells
      handled from below, BEGIN and CONNECT cells handled, and how the circuit ended here, if it did. */
  datatype Hist = Hist(fromAbove: nat, peeled: nat, fromBelow: nat, requests: nat, torn: bool, expired: bool)

  datatype State = State(
    path: Path, sid: uint16,
    client: Client, phase: Phase, listening: bool,
    hops: seq<Hop>,
    down: seq<seq<Cell>>,    // down[i] leads to relay i
    up: seq<seq<Cell>>,      // up[i] leads away from relay i, towards the client
    looping: bool,           // the exit's upward loop is running
    sinkOk: bool,            // the exit's local connection takes bytes
    stray: seq<Cell>,        // cells written to a hidden service as if it were a relay
    // history
    sent: seq<Msg>, requested: seq<Msg>, read: seq<Msg>, received: seq<Blob>, written: seq<Blob>,
    hist: seq<Hist>,
    lost: bool,              // a DATA cell was refused or turned back on the chain
    discarded: bool)         // the exit handled a DATA cell and wrote nothing for it

  datatype Step =
    | AskConnect(target: string)
    | AskBegin(target: string)
    | SendChunk(bytes: seq<byte>)
    | CloseStream(last: bool)
    | FromAbove(i: nat, dialOk: bool)
    | FromBelow(i: nat, dialOk: bool)
    | ReadChunk(bytes: seq<byte>)
    | ReadEnd
    | Receive
    | LinkEnds
    | SinkBreaks
    | Expire(i: nat)

  predicate Shape(s: State) {
    && 1 <= |s.path| == |s.hops| == |s.down| == |s.up| == |s.hist|
    && s.client.Valid()
    && |s.client.keys| == |s.path|
  }

  /** No step changes the shape of the circuit, or the path and the stream it was set up for. */
  predicate Keeps(s: State, t: State) {
    Shape(s) ==> Shape(t) && t.path == s.path && t.sid == s.sid
  }

  /** A circuit as the build leaves it. */
  function Fresh(path: Path, sid: uint16): State {
    State(path, sid, FreshClient(path), Idle, true,
          seq(|path|, i requires 0 <= i < |path| => FreshHop(path[i].key, path[i].base, i + 1 < |path|)),
          seq(|path|, _ => []), seq(|path|, _ => []),
          false, true, [],
          [], [], [], [], [],
          seq(|path|, _ => Hist(0, 0, 0, 0, false, false)), false, false)
  }

  predicate Enabled(s: State, step: Step)
    requires Shape(s)
  {
    match step
    case AskConnect(_) => s.phase == Idle
    case AskBegin(_) => s.phase == Idle || s.phase == Connected
    case SendChunk(_) => s.phase == Streaming
    case CloseStream(_) => s.phase == Streaming || s.phase == Refused
    case FromAbove(i, _) => i < |s.path| && s.hops[i].alive && s.down[i] != []
    case FromBelow(i, _) => i + 1 < |s.path| && s.hops[i].alive && s.hops[i].served && s.up[i + 1] != []
    case ReadChunk(bytes) => s.looping && s.hops[|s.path| - 1].alive && 0 < |bytes| <= MAX_PAYLOAD_SIZE
    case ReadEnd => s.looping && s.hops[|s.path| - 1].alive
    case Receive => s.listening && s.up[0] != []
    case LinkEnds => s.listening
    case SinkBreaks => true
    case Expire(i) => i < |s.path| && s.hops[i].alive
  }

  function Ask(z: Sizes, s: State, m: Msg, next: Phase): (t: State)
    requires Shape(s)
    ensures Keeps(s, t)
  {
    var o := SendRequest(z, s.client, m);
    match o.cell
    case None => s.(client := o.client, phase := Closed)
    case Some(c) => s.(client := o.client, phase := next, down := s.down[0 := s.down[0] + [c]], requested := s.requested + [m])
  }

  function Chunk(z: Sizes, s: State, m: Msg): (t: State)
    requires Shape(s)
    ensures Keeps(s, t)
  {
    var o := SendData(z, s.client, s.sid, m);
    match o.cell
    case None => s.(client := o.client, phase := Refused)
    case Some(c) => s.(client := o.client, down := s.down[0 := s.down[0] + [c]], sent := s.sent + [m])
  }

  predicate IsRequest(c: Cell) { c.Begin? || c.Connect? }

  predicate IsKill(c: Cell) { c == End(0) || c == Destroy }

  /** The reply of relay `i` put into effect: its new state, and its cells on the links. */
  function Effect(s: State, i: nat, r: Reply): (t: State)
    requires Shape(s) && i < |s.path|
    ensures Keeps(s, t)
  {
    s.(hops := s.hops[i := r.hop],
       up := s.up[i := s.up[i] + r.up],
       down := if i + 1 < |s.path| then s.down[i + 1 := s.down[i + 1] + r.down] else s.down,
       stray := if i + 1 < |s.path| then s.stray else s.stray + r.down,
       written := if r.wrote.Some? then s.written + [r.wrote.value] else s.written,
       looping := s.looping || r.loop.Some?)
  }

  /** The surroundings of relay `i`. Below the last relay there is at most the connection to a hidden service. */
  function EnvOf(s: State, i: nat, dialOk: bool): Env {
    Env(true, i + 1 < |s.path| || s.sinkOk, s.sinkOk, dialOk)
  }

  function ReplyAbove(z: Sizes, s: State, i: nat, dialOk: bool): Reply
    requires Shape(s) && i < |s.path| && s.down[i] != []
  {
    Handle(z, s.hops[i], s.down[i][0], EnvOf(s, i, dialOk))
  }

  function ReplyBelow(z: Sizes, s: State, i: nat, dialOk: bool): Reply
    requires Shape(s) && i + 1 < |s.path| && s.up[i + 1] != []
  {
    Handle(z, s.hops[i], s.up[i + 1][0], EnvOf(s, i, dialOk))
  }

  /** Whether relay `i` would find its own layer under its own next nonce. */
  predicate Opens(h: Hop, c: Cell) {
    c.Data? && AESOpen(h.key, CounterNonce(h.base, h.data), c.blob).Some?
  }

  function HandleAbove(z: Sizes, s: State, i: nat, dialOk: bool): (t: State)
    requires Shape(s) && i < |s.path| && s.down[i] != []
    ensures Keeps(s, t)
  {
    var c, was := s.down[i][0], s.hist[i];
    var r := ReplyAbove(z, s, i, dialOk);
    Effect(s.(down := s.down[i := s.down[i][1..]]), i, r).(
      hist := s.hist[i := was.(
        fromAbove := if c.Data? then was.fromAbove + 1 else was.fromAbove,
        peeled := if Opens(s.hops[i], c) then was.peeled + 1 else was.peeled,
        requests := if IsRequest(c) then was.requests + 1 else was.requests,
        torn := was.torn || IsKill(c))],
      lost := s.lost || (c.Data? && i + 1 < |s.path| && r.down == []),
      discarded := s.discarded || (c.Data? && i + 1 == |s.path| && r.wrote == None))
  }

  function HandleBelow(z: Sizes, s: State, i: nat, dialOk: bool): (t: State)
    requires Shape(s) && i + 1 < |s.path| && s.up[i + 1] != []
    ensures Keeps(s, t)
  {
    var c, was := s.up[i + 1][0], s.hist[i];
    var r := ReplyBelow(z, s, i, dialOk);
    Effect(s.(up := s.up[i + 1 := s.up[i + 1][1..]]), i, r).(
      hist := s.hist[i := was.(
        fromBelow := if c.Data? then was.fromBelow + 1 else was.fromBelow,
        requests := if IsRequest(c) then was.requests + 1 else was.requests,
        torn := was.torn || IsKill(c))],
      lost := s.lost || (c.Data? && r.up == []))
  }

  /** One turn of the exit's upward loop: the nonce is drawn before the size of the cell is known. */
  function Read(z: Sizes, s: State, m: Msg): (t: State)
    requires Shape(s)
    ensures Keeps(s, t)
  {
    var x := |s.path| - 1;
    var h := s.hops[x];
    var cells := SendIf(z, true, UpwardCell(h, s.sid, m));
    s.(hops := s.hops[x := h.(up := Inc(h.up))], up := s.up[x := s.up[x] + cells], read := s.read + [m],
       lost := s.lost || cells == [])
  }

  function EndRead(z: Sizes, s: State): (t: State)
    requires Shape(s)
    ensures Keeps(s, t)
  {
    var x := |s.path| - 1;
    s.(hops := s.hops[x := s.hops[x].(streams := s.hops[x].streams - {s.sid})],
       up := s.up[x := s.up[x] + SendIf(z, true, End(s.sid))], looping := false, sinkOk := false)
  }

  function Take(s: State): (t: State)
    requires Shape(s) && s.up[0] != []
    ensures Keeps(s, t)
  {
    var c := s.up[0][0];
    var s1 := s.(up := s.up[0 := s.up[0][1..]]);
    if c.Data? then
      var d := Decrypt(s.client, c.blob);
      if d.1 == None then s1.(client := d.0, listening := false)
      else s1.(client := d.0, received := s.received + [d.1.value])
    else s1.(listening := !IsKill(c) && !c.Malformed?)
  }

  function Apply(z: Sizes, s: State, step: Step): (t: State)
    requires Shape(s) && Enabled(s, step)
    ensures Keeps(s, t)
  {
    match step
    case AskConnect(target) => Ask(z, s, ConnectMsg(target), Connected)
    case AskBegin(target) => Ask(z, s, BeginDto(s.sid, target), Streaming)
    case SendChunk(bytes) => Chunk(z, s, Raw(bytes))
    case CloseStream(last) =>
      // with the last open stream of the circuit the control END follows at once
      s.(phase := Closed,
         down := s.down[0 := s.down[0] + SendIf(z, true, End(s.sid)) + if last then SendIf(z, true, End(0)) else []])
    case FromAbove(i, dialOk) => HandleAbove(z, s, i, dialOk)
    case FromBelow(i, dialOk) => HandleBelow(z, s, i, dialOk)
    case ReadChunk(bytes) => Read(z, s, Raw(bytes))
    case ReadEnd => EndRead(z, s)
    case Receive => Take(s)
    case LinkEnds => s.(listening := false)
    case SinkBreaks => s.(sinkOk := false)
    case Expire(i) => s.(hops := s.hops[i := s.hops[i].(alive := false)], hist := s.hist[i := s.hist[i].(expired := true)])
  }

  /** A run: each step enabled where it is taken. */
  ghost predicate Reaches(z: Sizes, s: State, steps: seq<Step>, t: State)
    requires Shape(s)
    decreases |steps|
  {
    if steps == [] then s == t else
    && Enabled(s, steps[0])
    && Reaches(z, Apply(z, s, steps[0]), steps[1..], t)
  }
}

/** The client's receiving side: one table of local connections for all circuits, and one loop per circuit. */
module Receiving {
  import opened MachineInts
  import opened Wrappers
  import opened Onion
  import opened RelaySpec
  import opened ClientSpec
  import opened Sockets
  import opened Circuits
  import opened ClientUseCases
  import opened StreamIds

  class StreamManager {
    const net: Network
    var m: map<uint16, ConnId>

    constructor (net: Network)
      ensures this.net == net && m == map[]
    {
      this.net, m := net, map[];
    }

    method Add(id: uint16, conn: ConnId)
      modifies this`m
      ensures m == old(m)[id := conn]
    {
      m := m[id := conn];
    }

    method Get(id: uint16) returns (conn: Option<ConnId>)
      ensures conn == if id in m then Some(m[id]) else None
    {
      if id in m {
        return Some(m[id]);
      }
      return None;
    }

    method Remove(id: uint16)
      modifies this`m, net`closed
      ensures m == old(m) - {id}
      ensures net.closed == old(net.closed) + if id in old(m) then {old(m)[id]} else {}
    {
      if id in m {
        net.Close(m[id]);
        m := m - {id};
      } else {
        assert m - {id} == m;
      }
    }

    method CloseAll()
      modifies this`m, net`closed
      ensures m == map[] && net.closed == old(net.closed) + old(m).Values
    {
      net.CloseAll(m.Values);
      m := map[];
    }
  }

  // ---- the loop as a function ----

  /** What the loop of one circuit can touch: the circuit's counters, the shared table, the connections. */
  datatype Inbox = Inbox(client: Client, conns: map<uint16, ConnId>, closed: set<ConnId>, log: seq<Event>)

  function CloseEvery(b: Inbox): Inbox {
    b.(conns := map[], closed := b.closed + b.conns.Values)
  }

  function Drop(b: Inbox, sid: uint16): Inbox {
    b.(conns := b.conns - {sid}, closed := b.closed + if sid in b.conns then {b.conns[sid]} else {})
  }

  function Written(b: Inbox, sid: uint16, plain: Blob): Inbox {
    if sid in b.conns && b.conns[sid] !in b.closed then b.(log := b.log + [BytesOut(b.conns[sid], plain)]) else b
  }

  /** One cell, and whether the loop goes on. */
  function Received(b: Inbox, c: Cell): (Inbox, bool)
    requires b.client.Valid()
    ensures Received(b, c).0.client.Valid()
  {
    match c
    case Data(sid, blob) =>
      var d := Decrypt(b.client, blob);
      var b1 := b.(client := d.0);
      if d.1 == None then (CloseEvery(b1), false) else (Written(b1, sid, d.1.value), true)
    case End(sid) => if sid == 0 then (CloseEvery(b), false) else (Drop(b, sid), true)
    case Destroy => (CloseEvery(b), false)
    case Malformed => (CloseEvery(b), false)
    case _ => (b, true)
  }

  /** The cells of one circuit until the loop stops, or the link ends. */
  function ReceiveAll(b: Inbox, cells: seq<Cell>): Inbox
    requires b.client.Valid()
    decreases |cells|
  {
    if cells == [] then CloseEvery(b) else
    var r := Received(b, cells[0]);
    if r.1 then ReceiveAll(r.0, cells[1..]) else r.0
  }

  class Controller {
    const node: ClientNode
    const streams: StreamManager
    const net: Network

    constructor (node: ClientNode, streams: StreamManager)
      requires node.net == streams.net
      ensures Valid() && this.node == node && this.streams == streams
    {
      this.node, this.streams, net := node, streams, streams.net;
    }

    predicate Valid() {
      node.net == net && streams.net == net
    }

    ghost function State(cir: Circuit): Inbox
      requires cir.Valid()
      reads cir, streams, net
    {
      Inbox(cir.Value(), streams.m, net.closed, net.log)
    }

    /** Opens a stream for a local connection: an id from the counter, and an entry under it in the shared table. */
    method OpenSession(cir: Circuit, counter: StreamCounter, conn: ConnId) returns (sid: uint16)
      requires Valid() && cir.Valid() && counter.Valid()
      modifies cir`stream, counter, streams`m
      ensures counter.Valid() && counter.calls == old(counter.calls) + 1
      ensures sid == NthId(old(counter.calls)) && cir.Active() == old(cir.Active()) + {sid}
      ensures State(cir) == old(State(cir)).(conns := old(streams.m)[sid := conn])
    {
      sid := cir.OpenStream(counter);
      streams.Add(sid, conn);
    }

    /** Closes the local side of a stream, whatever is registered under its id. */
    method CloseSession(cir: Circuit, sid: uint16)
      requires Valid() && cir.Valid()
      modifies streams`m, net`closed
      ensures State(cir) == Drop(old(State(cir)), sid)
    {
      streams.Remove(sid);
    }

    method ReceiveOne(cir: Circuit, cell: Cell) returns (goOn: bool)
      requires Valid() && cir.Valid()
      modifies cir`upstreamDataCounter, streams`m, net
      ensures cir.Valid() && (State(cir), goOn) == Received(old(State(cir)), cell)
    {
      hide Decrypt;
      match cell
      case Data(sid, blob) =>
        var plain := node.DecryptOnionLayers(cir, blob);
        if plain == None {
          streams.CloseAll();
          return false;
        }
        var conn := streams.Get(sid);
        if conn != None {
          var _ := net.Write(conn.value, plain.value);
        }
        return true;
      case End(sid) =>
        if sid == 0 {
          streams.CloseAll();
          return false;
        }
        streams.Remove(sid);
        return true;
      case Destroy =>
        streams.CloseAll();
        return false;
      case Malformed =>
        streams.CloseAll();
        return false;
      case _ =>
        return true;
    }

    method RecvLoop(cir: Circuit, cells: seq<Cell>)
      requires Valid() && cir.Valid()
      modifies cir`upstreamDataCounter, streams`m, net
      ensures cir.Valid() && State(cir) == ReceiveAll(old(State(cir)), cells)
    {
      hide Received;
      assert cells[0..] == cells;
      for k := 0 to |cells|
        invariant cir.Valid() && ReceiveAll(State(cir), cells[k..]) == ReceiveAll(old(State(cir)), cells)
      {
        assert cells[k..][1..] == cells[k + 1..];
        var goOn := ReceiveOne(cir, cells[k]);
        if !goOn {
          return;
        }
      }
      streams.CloseAll();
    }
  }

  // ---- what reaches a connection ----

  /** What was written on one connection. */
  function On(log: seq<Event>, conn: ConnId): seq<Blob> {
    if log == [] then [] else
    var e := log[|log| - 1];
    On(log[..|log| - 1], conn) + if e.BytesOut? && e.conn == conn then [e.bytes] else []
  }

  lemma OnWritten(b: Inbox, sid: uint16, plain: Blob, conn: ConnId)
    ensures On(Written(b, sid, plain).log, conn)
         == On(b.log, conn) + if sid in b.conns && b.conns[sid] !in b.closed && b.conns[sid] == conn then [plain] else []
  {
    var more := Written(b, sid, plain).log;
    if more != b.log {
      assert more[..|more| - 1] == b.log;
    }
  }

  /** Each stream has a connection of its own. */
  ghost predicate OneEach(conns: map<uint16, ConnId>) {
    forall a, b :: a in conns && b in conns && a != b ==> conns[a] != conns[b]
  }

  /** The plaintexts of one stream among the cells the loop handles, up to the end of that stream. */
  function Plains(cl: Client, cells: seq<Cell>, sid: uint16): seq<Blob>
    requires cl.Valid()
    decreases |cells|
  {
    if cells == [] then [] else
    match cells[0]
    case Data(s, blob) =>
      var d := Decrypt(cl, blob);
      if d.1 == None then [] else (if s == sid then [d.1.value] else []) + Plains(d.0, cells[1..], sid)
    case End(s) => if s == 0 || s == sid then [] else Plains(cl, cells[1..], sid)
    case Destroy => []
    case Malformed => []
    case _ => Plains(cl, cells[1..], sid)
  }

  /** Demultiplexing: the connection registered for a stream gets the plaintexts of that stream's DATA cells, in order,
      and nothing of any other stream; a connection that is not registered gets nothing. */
  lemma {:induction false} OnlyToItsStream(b: Inbox, cells: seq<Cell>, sid: uint16, conn: ConnId)
    requires b.client.Valid() && OneEach(b.conns)
    ensures sid in b.conns && b.conns[sid] == conn && conn !in b.closed ==>
      On(ReceiveAll(b, cells).log, conn) == On(b.log, conn) + Plains(b.client, cells, sid)
    ensures conn !in b.conns.Values || conn in b.closed ==> On(ReceiveAll(b, cells).log, conn) == On(b.log, conn)
    decreases |cells|
  {
    hide Decrypt, On;
    if cells != [] {
      var r := Received(b, cells[0]);
      if cells[0].Data? && Decrypt(b.client, cells[0].blob).1.Some? {
        var d := Decrypt(b.client, cells[0].blob);
        OnWritten(b.(client := d.0), cells[0].sid, d.1.value, conn);
        if cells[0].sid in b.conns {
          assert b.conns[cells[0].sid] in b.conns.Values;
        }
      }
      if r.1 {
        OnlyToItsStream(r.0, cells[1..], sid, conn);
      }
    }
  }

  /** The table is shared: the end of one circuit's loop closes the local connections of all circuits. */
  lemma {:induction false} LoopEndClosesEverything(b: Inbox, cells: seq<Cell>)
    requires b.client.Valid()
    ensures var end := ReceiveAll(b, cells); end.conns == map[] && b.closed + b.conns.Values <= end.closed
    decreases |cells|
  {
    hide Decrypt, Written;
    if cells != [] {
      var r := Received(b, cells[0]);
      Shrinks(b, cells[0]);
      if r.1 {
        LoopEndClosesEverything(r.0, cells[1..]);
      }
    }
  }

  lemma Shrinks(b: Inbox, c: Cell)
    requires b.client.Valid()
    ensures var r := Received(b, c);
      && b.closed <= r.0.closed && b.conns.Values <= r.0.conns.Values + r.0.closed && (!r.1 ==> r.0.conns == map[])
  {
    hide Decrypt;
    if c.End? && c.sid != 0 {
      var rest := b.conns - {c.sid};
      forall x | x in b.conns.Values
        ensures x in rest.Values || (c.sid in b.conns && x == b.conns[c.sid])
      {
        var k :| k in b.conns && b.conns[k] == x;
        if k != c.sid {
          assert rest[k] == x;
        }
      }
    }
  }
}

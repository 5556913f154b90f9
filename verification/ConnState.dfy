/** Connections, as far as a relay can observe them: what was written on each, and which are closed. */
module Sockets {
  import opened Onion
  import opened RelaySpec

  type ConnId = nat
  type CircuitId = nat

  datatype Event =
    | CellOut(conn: ConnId, cid: CircuitId, cell: Cell)
    | BytesOut(conn: ConnId, bytes: Blob)
    | CreatedOut(conn: ConnId, cid: CircuitId)
    | ExtendOut(conn: ConnId, cid: CircuitId)

  class Network {
    var closed: set<ConnId>
    var log: seq<Event>

    constructor ()
      ensures closed == {} && log == []
    {
      closed, log := {}, [];
    }

    /** Encodes and writes a cell: refused if the payload is too big or the connection is closed. */
    method ForwardCell(z: Sizes, w: ConnId, cid: CircuitId, cell: Cell) returns (ok: bool)
      modifies this`log
      ensures ok == (Fits(z, cell) && w !in closed)
      ensures log == if ok then old(log) + [CellOut(w, cid, cell)] else old(log)
    {
      if !Fits(z, cell) {
        return false;
      }
      if w in closed {
        return false;
      }
      log := log + [CellOut(w, cid, cell)];
      return true;
    }

    method ForwardExtend(w: ConnId, cid: CircuitId) returns (ok: bool)
      modifies this`log
      ensures ok == (w !in closed)
      ensures log == if ok then old(log) + [ExtendOut(w, cid)] else old(log)
    {
      ok := w !in closed;
      if ok {
        log := log + [ExtendOut(w, cid)];
      }
    }

    method SendCreated(w: ConnId, cid: CircuitId) returns (ok: bool)
      modifies this`log
      ensures ok == (w !in closed)
      ensures log == if ok then old(log) + [CreatedOut(w, cid)] else old(log)
    {
      ok := w !in closed;
      if ok {
        log := log + [CreatedOut(w, cid)];
      }
    }

    method Write(w: ConnId, bytes: Blob) returns (ok: bool)
      modifies this`log
      ensures ok == (w !in closed)
      ensures log == if ok then old(log) + [BytesOut(w, bytes)] else old(log)
    {
      ok := w !in closed;
      if ok {
        log := log + [BytesOut(w, bytes)];
      }
    }

    method Close(c: ConnId)
      modifies this`closed
      ensures closed == old(closed) + {c}
    {
      closed := closed + {c};
    }

    /** Closes connections one at a time, in no particular order. */
    method CloseAll(cs: set<ConnId>)
      modifies this`closed
      ensures closed == old(closed) + cs
    {
      var rest := cs;
      while rest != {}
        invariant rest <= cs
        invariant closed == old(closed) + (cs - rest)
        decreases rest
      {
        var c :| c in rest;
        Close(c);
        rest := rest - {c};
      }
    }
  }
}

/** The state a relay keeps for one circuit. */
module ConnStates {
  import opened MachineInts
  import opened Nonces
  import opened Wrappers
  import opened Onion
  import opened RelaySpec
  import opened Sockets

  class ConnState {
    const key: Key
    const baseNonce: Nonce
    const up: ConnId
    const down: Option<ConnId>
    var beginCounter: uint64
    var dataCounter: uint64
    var upstreamDataCounter: uint64
    var last: nat
    var hidden: bool
    var served: bool

    constructor (key: Key, nonce: Nonce, up: ConnId, down: Option<ConnId>, now: nat)
      ensures this.up == up && this.down == down && last == now
      ensures Value({}) == FreshHop(key, nonce, down.Some?)
    {
      this.key, baseNonce, this.up, this.down := key, nonce, up, down;
      beginCounter, dataCounter, upstreamDataCounter := 0, 0, 0;
      last, hidden, served := now, false, false;
    }

    /** Carries two of the three counters over; the upward one starts afresh. */
    constructor WithCounters(key: Key, nonce: Nonce, up: ConnId, down: Option<ConnId>, begin: uint64, data: uint64, now: nat)
      ensures this.up == up && this.down == down && last == now
      ensures Value({}) == FreshHop(key, nonce, down.Some?).(begin := begin, data := data)
    {
      this.key, baseNonce, this.up, this.down := key, nonce, up, down;
      beginCounter, dataCounter, upstreamDataCounter := begin, data, 0;
      last, hidden, served := now, false, false;
    }

    /** The state as a value, for a circuit whose open streams are `streams`. */
    ghost function Value(streams: set<uint16>): Hop
      reads this
    {
      Hop(key, baseNonce, beginCounter, dataCounter, upstreamDataCounter, down.Some?, hidden, served, true, streams)
    }

    method BeginNonce() returns (nonce: Nonce)
      modifies this`beginCounter
      ensures nonce == CounterNonce(baseNonce, old(beginCounter))
      ensures beginCounter == Inc(old(beginCounter))
    {
      nonce := ModifyNonceWithSequence(baseNonce, beginCounter);
      beginCounter := Inc(beginCounter);
    }

    method DataNonce() returns (nonce: Nonce)
      modifies this`dataCounter
      ensures nonce == CounterNonce(baseNonce, old(dataCounter))
      ensures dataCounter == Inc(old(dataCounter))
    {
      nonce := ModifyNonceWithSequence(baseNonce, dataCounter);
      dataCounter := Inc(dataCounter);
    }

    method UpstreamDataNonce() returns (nonce: Nonce)
      modifies this`upstreamDataCounter
      ensures nonce == CounterNonce(baseNonce, old(upstreamDataCounter))
      ensures upstreamDataCounter == Inc(old(upstreamDataCounter))
    {
      nonce := ModifyNonceWithSequence(baseNonce, upstreamDataCounter);
      upstreamDataCounter := Inc(upstreamDataCounter);
    }

    method Touch(now: nat)
      modifies this`last
      ensures last == now
    {
      last := now;
    }

    method SetHidden(v: bool)
      modifies this`hidden
      ensures hidden == v
    {
      hidden := v;
    }

    /** Starts serving the downward connection, if there is one and it is not served yet: `reader` is the connection a reader
        is started on. */
    method EnsureServeDown() returns (reader: Option<ConnId>)
      modifies this`served
      ensures served == (old(served) || down.Some?)
      ensures reader == if old(served) then None else down
    {
      if down == None || served {
        return None;
      }
      served := true;
      return down;
    }

    /** The connections this state holds. */
    function Conns(): set<ConnId> {
      {up} + if down.Some? then {down.value} else {}
    }

    method Close(net: Network)
      modifies net`closed
      ensures net.closed == old(net.closed) + {up} + if down.Some? then {down.value} else {}
    {
      net.Close(up);
      if down.Some? {
        net.Close(down.value);
      }
    }
  }
}

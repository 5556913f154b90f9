/** The sweeper over time: a ticker of its own period, uses of entries in between. Times are in nanoseconds. */
module Expiry {
  import opened Sockets

  const SECOND: nat := 1_000_000_000

  /** The ticker's period. */
  function Interval(ttl: nat): nat {
    if ttl / 2 < SECOND then SECOND else ttl / 2
  }

  datatype Event =
    | Add(cid: CircuitId, at: nat)
    | Find(cid: CircuitId, at: nat)
    | Delete(cid: CircuitId, at: nat)
    | Tick(at: nat)

  /** The table as the time of the last use of each circuit it holds, after one more event. */
  function After(ttl: nat, t: map<CircuitId, nat>, e: Event): map<CircuitId, nat> {
    match e
    case Add(cid, at) => t[cid := at]
    case Find(cid, at) => if cid in t then t[cid := at] else t
    case Delete(cid, _) => t - {cid}
    case Tick(at) => map cid | cid in t && at - t[cid] <= ttl :: t[cid]
  }

  function Table(ttl: nat, es: seq<Event>): map<CircuitId, nat> {
    if es == [] then map[] else After(ttl, Table(ttl, es[..|es| - 1]), es[|es| - 1])
  }

  ghost predicate InOrder(es: seq<Event>) {
    forall i, j :: 0 <= i < j < |es| ==> es[i].at <= es[j].at
  }

  /** Every tick due by time `end` has been served. */
  ghost predicate IdealTicker(ttl: nat, es: seq<Event>, end: nat) {
    forall k: nat :: k > 0 && Due(ttl, k) <= end ==> Tick(Due(ttl, k)) in es
  }

  function Due(ttl: nat, k: nat): nat {
    k * Interval(ttl)
  }

  /** An entry in the table has outlived every tick so far. */
  lemma {:induction false} OutlivedTicks(ttl: nat, es: seq<Event>, cid: CircuitId, i: nat)
    requires InOrder(es) && cid in Table(ttl, es) && i < |es|
    ensures Table(ttl, es)[cid] <= es[|es| - 1].at
    ensures es[i].Tick? ==> es[i].at <= Table(ttl, es)[cid] + ttl
  {
    var last, before := es[|es| - 1], es[..|es| - 1];
    if cid in Table(ttl, before) && before != [] {
      OutlivedTicks(ttl, before, cid, if i < |before| then i else 0);
      assert before[|before| - 1].at <= last.at;
    }
    assert i < |before| ==> before[i] == es[i] && es[i].at <= last.at;
  }

  /** After any moment a tick is due within one period. */
  lemma NextDue(late: nat, ttl: nat) returns (k: nat)
    ensures k > 0 && late < Due(ttl, k) <= late + Interval(ttl)
  {
    var p := Interval(ttl);
    assert p > 0;
    hide Interval;
    k := late / p + 1;
    assert k * p == (late / p) * p + p;
    assert late == (late / p) * p + late % p;
  }

  /** An idle entry is gone once its last use is a time-to-live and one period of the ticker ago: half a time-to-live, but at
      least a second. */
  lemma IdleEntryIsSwept(ttl: nat, es: seq<Event>, end: nat, cid: CircuitId)
    requires InOrder(es) && IdealTicker(ttl, es, end)
    ensures cid in Table(ttl, es) ==> end < Table(ttl, es)[cid] + ttl + (if ttl >= 2_000_000_000 then ttl / 2 else 1_000_000_000)
  {
    assert Interval(ttl) == if ttl >= 2_000_000_000 then ttl / 2 else 1_000_000_000;
    if cid in Table(ttl, es) && end >= Table(ttl, es)[cid] + ttl + Interval(ttl) {
      var k := NextDue(Table(ttl, es)[cid] + ttl, ttl);
      var i :| 0 <= i < |es| && es[i] == Tick(Due(ttl, k));
      OutlivedTicks(ttl, es, cid, i);
      assert false;
    }
  }

  /** An entry in use is safe: for a time-to-live after its use it stays, unless somebody deletes it. */
  lemma {:induction false} UsedEntryStays(ttl: nat, es: seq<Event>, u: nat, cid: CircuitId)
    requires InOrder(es) && u < |es| && (es[u] == Add(cid, es[u].at) || (es[u].Find? && es[u].cid == cid && cid in Table(ttl, es[..u])))
    requires es[|es| - 1].at <= es[u].at + ttl
    requires forall i :: u < i < |es| ==> es[i] != Delete(cid, es[i].at)
    ensures cid in Table(ttl, es) && Table(ttl, es)[cid] >= es[u].at
  {
    if u < |es| - 1 {
      var before := es[..|es| - 1];
      assert before[..u] == es[..u] && es[|before| - 1].at <= es[|es| - 1].at;
      UsedEntryStays(ttl, before, u, cid);
      assert es[u].at <= es[|es| - 1].at;
      assert es[|es| - 1] != Delete(cid, es[|es| - 1].at);
    }
  }
}

/** A relay's tables: the circuits it knows, and the local connections of their streams in a map of maps. */
module Repository {
  import opened MachineInts
  import opened Wrappers
  import opened Onion
  import opened RelaySpec
  import opened Sockets
  import opened ConnStates
  import Expiry

  type StreamKey = (CircuitId, uint16)
  type StreamMaps = map<CircuitId, map<uint16, ConnId>>

  /** The one flat table a map of maps stands for. */
  function Flatten(streams: StreamMaps): map<StreamKey, ConnId> {
    map cid, sid | cid in streams && sid in streams[cid] :: (cid, sid) := streams[cid][sid]
  }

  function OpenIds(streams: StreamMaps, cid: CircuitId): set<uint16> {
    if cid in streams then streams[cid].Keys else {}
  }

  function ConnsOf(streams: StreamMaps, cid: CircuitId): set<ConnId> {
    if cid in streams then streams[cid].Values else {}
  }

  /** Adding and removing streams, as far as the connections of a circuit go. */
  lemma ConnsAfter(streams: StreamMaps, cid: CircuitId, sid: uint16, conn: ConnId, other: CircuitId)
    ensures ConnsOf(WithStream(streams, cid, sid, conn), other) <= ConnsOf(streams, other) + {conn}
    ensures other != cid ==> ConnsOf(WithStream(streams, cid, sid, conn), other) == ConnsOf(streams, other)
    ensures ConnsOf(WithoutStream(streams, cid, sid), other) <= ConnsOf(streams, other)
    ensures ConnsOf(streams - {cid}, other) <= ConnsOf(streams, other)
  {
  }

  /** No circuit has an empty map of streams. */
  ghost predicate NoEmptyMaps(streams: StreamMaps) {
    forall cid :: cid in streams ==> streams[cid] != map[]
  }

  function WithStream(streams: StreamMaps, cid: CircuitId, sid: uint16, conn: ConnId): StreamMaps {
    var inner: map<uint16, ConnId> := if cid in streams then streams[cid] else map[];
    streams[cid := inner[sid := conn]]
  }

  function WithoutStream(streams: StreamMaps, cid: CircuitId, sid: uint16): StreamMaps {
    if cid !in streams then streams else
    var rest: map<uint16, ConnId> := streams[cid] - {sid};
    if rest == map[] then streams - {cid} else streams[cid := rest]
  }

  lemma WithoutIs(streams: StreamMaps, cid: CircuitId, sid: uint16, inner: map<uint16, ConnId>)
    requires cid in streams ==> inner == if sid in streams[cid] then streams[cid] - {sid} else streams[cid]
    ensures WithoutStream(streams, cid, sid)
         == if cid !in streams then streams else if |inner| == 0 then streams - {cid} else streams[cid := inner]
  {
    if cid in streams {
      assert inner == streams[cid] - {sid};
      assert |inner| == 0 <==> inner == map[];
    }
  }

  lemma FlatAt(streams: StreamMaps, k: StreamKey)
    ensures k in Flatten(streams) <==> k.0 in streams && k.1 in streams[k.0]
    ensures k in Flatten(streams) ==> Flatten(streams)[k] == streams[k.0][k.1]
  {
    assert k == (k.0, k.1);
  }

  /** Adding to the nested maps is adding to the flat table. */
  lemma FlatAdd(streams: StreamMaps, cid: CircuitId, sid: uint16, conn: ConnId)
    ensures Flatten(WithStream(streams, cid, sid, conn)) == Flatten(streams)[(cid, sid) := conn]
    ensures NoEmptyMaps(streams) ==> NoEmptyMaps(WithStream(streams, cid, sid, conn))
  {
    hide Flatten;
    var plus := WithStream(streams, cid, sid, conn);
    var a, b := Flatten(plus), Flatten(streams)[(cid, sid) := conn];
    assert sid in plus[cid];
    forall k: StreamKey
      ensures k in a <==> k in b
      ensures k in a ==> a[k] == b[k]
    {
      FlatAt(plus, k);
      FlatAt(streams, k);
    }
    assert a.Keys == b.Keys;
  }

  lemma FlatRemove(streams: StreamMaps, cid: CircuitId, sid: uint16)
    ensures Flatten(WithoutStream(streams, cid, sid)) == Flatten(streams) - {(cid, sid)}
    ensures NoEmptyMaps(streams) ==> NoEmptyMaps(WithoutStream(streams, cid, sid))
  {
    hide Flatten;
    var minus := WithoutStream(streams, cid, sid);
    var a, b := Flatten(minus), Flatten(streams) - {(cid, sid)};
    forall k: StreamKey
      ensures k in a <==> k in b
      ensures k in a ==> a[k] == b[k]
    {
      FlatAt(minus, k);
      FlatAt(streams, k);
      if k.0 == cid && cid in streams {
        assert k.1 in streams[cid] - {sid} <==> k.1 in streams[cid] && k.1 != sid;
      }
    }
    assert a.Keys == b.Keys;
  }

  lemma FlatDrop(streams: StreamMaps, cid: CircuitId)
    ensures Flatten(streams - {cid}) == map k | k in Flatten(streams) && k.0 != cid :: Flatten(streams)[k]
  {
    hide Flatten;
    var a, b := Flatten(streams - {cid}), map k | k in Flatten(streams) && k.0 != cid :: Flatten(streams)[k];
    forall k: StreamKey
      ensures k in a <==> k in b
      ensures k in a ==> a[k] == b[k]
    {
      FlatAt(streams - {cid}, k);
      FlatAt(streams, k);
    }
    assert a.Keys == b.Keys;
  }

  ghost predicate Separate(m: map<CircuitId, ConnState>) {
    forall a, b :: a in m && b in m && a != b ==> m[a] != m[b]
  }

  lemma SeparateWithout(m: map<CircuitId, ConnState>, ids: set<CircuitId>)
    requires Separate(m)
    ensures Separate(m - ids)
  {
  }

  class ConnStateRepository {
    const ttl: nat
    const net: Network
    var m: map<CircuitId, ConnState>
    var streams: StreamMaps

    constructor (ttl: nat, net: Network)
      ensures Valid() && this.ttl == ttl && this.net == net && m == map[] && streams == map[]
    {
      this.ttl, this.net := ttl, net;
      m, streams := map[], map[];
    }

    /** Each circuit has a state object of its own, and no inner map is empty. */
    ghost predicate Valid()
      reads this
    {
      Separate(m) && NoEmptyMaps(streams)
    }

    /** When each circuit was last used. */
    ghost function Uses(): map<CircuitId, nat>
      reads this, m.Values
    {
      map id | id in m :: m[id].last
    }

    method Add(id: CircuitId, st: ConnState, now: nat)
      requires Valid() && forall c :: c in m && c != id ==> m[c] != st
      modifies this`m, st`last
      ensures Valid() && m == old(m)[id := st] && st.last == now
      ensures Uses() == Expiry.After(ttl, old(Uses()), Expiry.Add(id, now))
    {
      st.Touch(now);
      m := m[id := st];
    }

    method Find(id: CircuitId, now: nat) returns (st: Option<ConnState>)
      requires Valid()
      modifies (if id in m then {m[id]} else {})`last
      ensures st == if id in m then Some(m[id]) else None
      ensures st.Some? ==> st.value.last == now
      ensures Uses() == Expiry.After(ttl, old(Uses()), Expiry.Find(id, now))
    {
      if id in m {
        m[id].Touch(now);
        return Some(m[id]);
      }
      return None;
    }

    /** Forgets a known circuit and closes its two links and all its streams; leaves an unknown one alone. */
    method Delete(id: CircuitId)
      requires Valid()
      modifies this, net`closed
      ensures Valid()
      ensures id !in old(m) ==> m == old(m) && streams == old(streams) && net.closed == old(net.closed)
      ensures id in old(m) ==>
        && m == old(m) - {id} && streams == old(streams) - {id}
        && net.closed == old(net.closed) + old(m)[id].Conns() + ConnsOf(old(streams), id)
      ensures forall now :: Uses() == Expiry.After(ttl, old(Uses()), Expiry.Delete(id, now))
    {
      if id in m {
        m[id].Close(net);
        m := m - {id};
        DestroyAllStreams(id);
      }
    }

    method AddStream(cid: CircuitId, sid: uint16, conn: ConnId)
      requires Valid()
      modifies this`streams
      ensures Valid() && streams == WithStream(old(streams), cid, sid, conn)
      ensures Flatten(streams) == Flatten(old(streams))[(cid, sid) := conn]
    {
      FlatAdd(streams, cid, sid, conn);
      hide Flatten, NoEmptyMaps;
      ghost var plus := WithStream(streams, cid, sid, conn);
      if cid !in streams {
        streams := streams[cid := map[]];
      }
      var inner: map<uint16, ConnId> := streams[cid];
      streams := streams[cid := inner[sid := conn]];
      assert streams == plus;
    }

    method GetStream(cid: CircuitId, sid: uint16) returns (conn: Option<ConnId>)
      ensures conn == if (cid, sid) in Flatten(streams) then Some(Flatten(streams)[(cid, sid)]) else None
    {
      if cid !in streams || sid !in streams[cid] {
        return None;
      }
      return Some(streams[cid][sid]);
    }

    /** Closes and forgets one stream, and with the last one the circuit's map. */
    method RemoveStream(cid: CircuitId, sid: uint16)
      requires Valid()
      modifies this`streams, net`closed
      ensures Valid() && streams == WithoutStream(old(streams), cid, sid)
      ensures Flatten(streams) == Flatten(old(streams)) - {(cid, sid)}
      ensures net.closed == old(net.closed) + if (cid, sid) in Flatten(old(streams)) then {Flatten(old(streams))[(cid, sid)]} else {}
    {
      FlatRemove(streams, cid, sid);
      FlatAt(streams, (cid, sid));
      hide Flatten, NoEmptyMaps, WithoutStream;
      if cid !in streams {
        WithoutIs(streams, cid, sid, map[]);
        return;
      }
      var inner: map<uint16, ConnId> := streams[cid];
      if sid in inner {
        net.Close(inner[sid]);
        inner := inner - {sid};
      }
      WithoutIs(streams, cid, sid, inner);
      if |inner| == 0 {
        streams := streams - {cid};
      } else {
        streams := streams[cid := inner];
      }
    }

    method DestroyAllStreams(cid: CircuitId)
      requires Valid()
      modifies this`streams, net`closed
      ensures Valid() && streams == old(streams) - {cid}
      ensures net.closed == old(net.closed) + ConnsOf(old(streams), cid)
    {
      if cid in streams {
        net.CloseAll(streams[cid].Values);
        streams := streams - {cid};
      } else {
        assert streams - {cid} == streams;
      }
    }

    method SweepOne(id: CircuitId, now: nat)
      requires id in m
      modifies this`m, net`closed
      ensures m == if now - old(m)[id].last > ttl then old(m) - {id} else old(m)
      ensures net.closed == if now - old(m)[id].last > ttl then old(net.closed) + old(m)[id].Conns() else old(net.closed)
    {
      if now - m[id].last > ttl {
        m[id].Close(net);
        m := m - {id};
      }
    }

    /** The circuits not used within the last `ttl`. */
    ghost function StaleIds(now: nat): set<CircuitId>
      reads this, m.Values
    {
      set id | id in m && now - m[id].last > ttl
    }

    /** One tick of the sweeper: exactly the stale entries go, with their links but not their streams. */
    method Sweep(now: nat)
      requires Valid()
      modifies this`m, net`closed
      ensures Valid() && m == old(m) - old(StaleIds(now))
      ensures Uses() == Expiry.After(ttl, old(Uses()), Expiry.Tick(now))
      ensures net.closed == old(net.closed) + ConnsIn(old(m), old(StaleIds(now)))
    {
      hide ConnsIn, NoEmptyMaps, Separate;
      var rest := m.Keys;
      ghost var all, was, stale := m, net.closed, StaleIds(now);
      NothingSwept(all, stale);
      SeparateWithout(m, stale);
      while rest != {}
        invariant rest <= all.Keys
        invariant m == all - (stale - rest)
        invariant net.closed == was + ConnsIn(all, stale - rest)
        decreases rest
      {
        var id :| id in rest;
        SweepOne(id, now);
        LookedAt(all, stale, rest, id);
        ConnsInGrow(all, stale - rest, id);
        rest := rest - {id};
      }
      assert stale - rest == stale;
      UsesSwept(all, stale, now);
    }

    lemma NothingSwept(all: map<CircuitId, ConnState>, stale: set<CircuitId>)
      requires stale <= all.Keys
      ensures stale - all.Keys == {} && all - {} == all && ConnsIn(all, {}) == {}
    {
    }

    lemma UsesSwept(all: map<CircuitId, ConnState>, stale: set<CircuitId>, now: nat)
      requires m == all - stale && stale == set id | id in all && now - all[id].last > ttl
      ensures Uses() == Expiry.After(ttl, map id | id in all :: all[id].last, Expiry.Tick(now))
    {
    }
  }

  /** The links of the circuits in `ids`. */
  ghost function ConnsIn(all: map<CircuitId, ConnState>, ids: set<CircuitId>): set<ConnId> {
    set id, c | id in ids && id in all && c in all[id].Conns() :: c
  }

  lemma LookedAt<K, V>(all: map<K, V>, some: set<K>, rest: set<K>, id: K)
    requires id in rest
    ensures some - (rest - {id}) == if id in some then (some - rest) + {id} else some - rest
    ensures id in some ==> all - (some - (rest - {id})) == (all - (some - rest)) - {id}
  {
  }

  lemma ConnsInGrow(all: map<CircuitId, ConnState>, ids: set<CircuitId>, id: CircuitId)
    requires id in all
    ensures ConnsIn(all, ids + {id}) == ConnsIn(all, ids) + all[id].Conns()
  {
  }

  // ---- every sequence of operations ----

  datatype Op =
    | AddOp(cid: CircuitId, sid: uint16, conn: ConnId)
    | RemoveOp(cid: CircuitId, sid: uint16)
    | DestroyOp(cid: CircuitId)

  datatype Streams = Streams(maps: StreamMaps, closed: set<ConnId>)

  function ApplyOp(s: Streams, op: Op): Streams {
    match op
    case AddOp(cid, sid, conn) => Streams(WithStream(s.maps, cid, sid, conn), s.closed)
    case RemoveOp(cid, sid) =>
      Streams(WithoutStream(s.maps, cid, sid),
              s.closed + if (cid, sid) in Flatten(s.maps) then {Flatten(s.maps)[(cid, sid)]} else {})
    case DestroyOp(cid) => Streams(s.maps - {cid}, s.closed + ConnsOf(s.maps, cid))
  }

  function ApplyOps(s: Streams, ops: seq<Op>): Streams {
    if ops == [] then s else ApplyOp(ApplyOps(s, ops[..|ops| - 1]), ops[|ops| - 1])
  }

  function ApplyFlat(flat: map<StreamKey, ConnId>, op: Op): map<StreamKey, ConnId> {
    match op
    case AddOp(cid, sid, conn) => flat[(cid, sid) := conn]
    case RemoveOp(cid, sid) => flat - {(cid, sid)}
    case DestroyOp(cid) => map k | k in flat && k.0 != cid :: flat[k]
  }

  function ApplyFlats(ops: seq<Op>): map<StreamKey, ConnId> {
    if ops == [] then map[] else ApplyFlat(ApplyFlats(ops[..|ops| - 1]), ops[|ops| - 1])
  }

  /** After every sequence of operations the map of maps is the flat table, and has no empty inner map. */
  lemma {:induction false} NestedRefinesFlat(ops: seq<Op>)
    ensures var s := ApplyOps(Streams(map[], {}), ops);
      NoEmptyMaps(s.maps) && Flatten(s.maps) == ApplyFlats(ops)
  {
    if ops != [] {
      NestedRefinesFlat(ops[..|ops| - 1]);
      var s, op := ApplyOps(Streams(map[], {}), ops[..|ops| - 1]), ops[|ops| - 1];
      match op
      case AddOp(cid, sid, conn) => FlatAdd(s.maps, cid, sid, conn);
      case RemoveOp(cid, sid) => FlatRemove(s.maps, cid, sid);
      case DestroyOp(cid) => FlatDrop(s.maps, cid);
    }
  }

  /** The entries an operation takes out of the table. */
  predicate Removes(op: Op, k: StreamKey) {
    match op
    case AddOp(_, _, _) => false
    case RemoveOp(cid, sid) => k == (cid, sid)
    case DestroyOp(cid) => k.0 == cid
  }

  /** The connections of the entries an operation takes out. */
  ghost function Removed(s: Streams, op: Op): set<ConnId> {
    set k | k in Flatten(s.maps) && Removes(op, k) :: Flatten(s.maps)[k]
  }

  /** An operation closes exactly the connections of the entries it takes out, and an entry stays as it is exactly unless it is
      taken out or another connection is added under its very key: that one way a connection leaves the table open. */
  lemma RemovedMeansClosed(s: Streams, op: Op)
    ensures ApplyOp(s, op).closed == s.closed + Removed(s, op)
    ensures var was, now := Flatten(s.maps), Flatten(ApplyOp(s, op).maps);
      forall k :: k in was ==>
        (k in now && now[k] == was[k] <==> !Removes(op, k) && !(op.AddOp? && k == (op.cid, op.sid) && op.conn != was[k]))
  {
    hide Flatten, WithStream, WithoutStream;
    match op
    case AddOp(cid, sid, conn) => FlatAdd(s.maps, cid, sid, conn);
    case RemoveOp(cid, sid) =>
      FlatRemove(s.maps, cid, sid);
      assert Removed(s, op) == if (cid, sid) in Flatten(s.maps) then {Flatten(s.maps)[(cid, sid)]} else {};
    case DestroyOp(cid) =>
      FlatDrop(s.maps, cid);
      DestroyedConns(s, cid);
  }

  lemma DestroyedConns(s: Streams, cid: CircuitId)
    ensures Removed(s, DestroyOp(cid)) == ConnsOf(s.maps, cid)
  {
    hide Flatten;
    var a, b := Removed(s, DestroyOp(cid)), ConnsOf(s.maps, cid);
    forall c
      ensures c in a <==> c in b
    {
      if c in a {
        var k :| k in Flatten(s.maps) && k.0 == cid && Flatten(s.maps)[k] == c;
        FlatAt(s.maps, k);
      }
      if c in b {
        var sid :| sid in s.maps[cid] && s.maps[cid][sid] == c;
        FlatAt(s.maps, (cid, sid));
        assert Removes(DestroyOp(cid), (cid, sid));
      }
    }
  }
}

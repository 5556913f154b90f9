/** The relay's handlers over its mutable state. */
module RelayHandlers {
  import opened MachineInts
  import opened Nonces
  import opened Wrappers
  import opened Onion
  import opened RelaySpec
  import opened Sockets
  import opened ConnStates
  import opened Repository
  import opened RelayWorld

  class RelayHandler {
    const z: Sizes
    const repo: ConnStateRepository
    const net: Network

    constructor (z: Sizes, repo: ConnStateRepository)
      requires repo.Valid() && repo.m == map[] && repo.streams == map[]
      ensures Valid() && this.z == z && this.repo == repo
    {
      this.z, this.repo, net := z, repo, repo.net;
    }

    ghost function EntryOf(cid: CircuitId): Entry
      requires cid in repo.m
      reads repo, repo.m[cid]
    {
      Entry(repo.m[cid].Value(OpenIds(repo.streams, cid)), repo.m[cid].up, repo.m[cid].down)
    }

    ghost function Table(): map<CircuitId, Entry>
      reads repo, repo.m.Values
    {
      map cid | cid in repo.m :: EntryOf(cid)
    }

    /** The relay as a value. */
    ghost function Snapshot(): World
      reads repo, repo.m.Values, net
    {
      World(Table(), repo.streams, net.closed, net.log)
    }

    ghost predicate Valid()
      reads repo, repo.m.Values, net
    {
      repo.Valid() && repo.net == net && SoundWorld(Snapshot())
    }

    /** The relay as far as one circuit goes. */
    ghost function Here(st: ConnState, cid: CircuitId): View
      reads st, repo, net
    {
      View(Entry(st.Value(OpenIds(repo.streams, cid)), st.up, st.down), repo.streams, net.closed, net.log)
    }

    // ---- DATA ----

    /** DATA that does not open: sealed once more and sent up, if there is a relay or a service below. */
    method TurnBack(st: ConnState, cid: CircuitId, sid: uint16, blob: Blob) returns (ok: bool)
      modifies st`upstreamDataCounter, net`log
      ensures var enc := Cell.Data(sid, AESSeal(st.key, CounterNonce(st.baseNonce, old(st.upstreamDataCounter)), blob));
        && st.upstreamDataCounter == (if st.down.Some? then Inc(old(st.upstreamDataCounter)) else old(st.upstreamDataCounter))
        && net.log == (if st.down.Some? then Send(z, old(net.log), net.closed, st.up, cid, enc) else old(net.log))
        && ok == (st.down.Some? && Fits(z, enc) && st.up !in net.closed)
    {
      if st.down == None {
        return false;
      }
      var upstreamNonce := st.UpstreamDataNonce();
      var enc := AESSeal(st.key, upstreamNonce, blob);
      ok := net.ForwardCell(z, st.up, cid, Cell.Data(sid, enc));
    }

    /** DATA that opens at the exit: written to the local stream, or answered with DESTROY. */
    method Deliver(st: ConnState, cid: CircuitId, sid: uint16, dec: Blob) returns (ok: bool)
      requires repo.Valid() && repo.net == net
      modifies repo`streams, net
      ensures repo.Valid() && net.closed == old(net.closed)
      ensures var flat, k := Flatten(old(repo.streams)), (cid, sid);
        var answer := Send(z, old(net.log), net.closed, st.up, cid, Cell.Destroy);
        && ok == (k in flat ==> flat[k] !in net.closed)
        && net.log == (if k in flat && flat[k] !in net.closed then old(net.log) + [BytesOut(flat[k], dec)] else answer)
        && repo.streams == (if k in flat && flat[k] in net.closed then WithoutStream(old(repo.streams), cid, sid) else old(repo.streams))
    {
      hide Flatten, WithoutStream, NoEmptyMaps, Separate;
      var conn := repo.GetStream(cid, sid);
      if conn == None {
        var _ := net.ForwardCell(z, st.up, cid, Cell.Destroy);
        return true;
      }
      ok := net.Write(conn.value, dec);
      if !ok {
        repo.RemoveStream(cid, sid);
        var _ := net.ForwardCell(z, st.up, cid, Cell.Destroy);
      }
    }

    method Data(st: ConnState, cid: CircuitId, sid: uint16, blob: Blob) returns (ok: bool)
      requires repo.Valid() && repo.net == net && (st.hidden ==> st.down.Some?)
      modifies st, repo`streams, net
      ensures repo.Valid() && st.last == old(st.last)
      ensures Result(Here(st, cid), None, ok) == StepOne(z, old(Here(st, cid)), cid, Cell.Data(sid, blob), None)
    {
      if sid == 0 {
        return false;
      }
      ghost var v := Here(st, cid);
      var nonce := st.DataNonce();
      var dec := AESOpen(st.key, nonce, blob);
      if dec == None {
        StepDataShut(z, v, cid, sid, blob);
        hide StepOne, CounterNonce, OpenIds;
        ok := TurnBack(st, cid, sid, blob);
      } else if st.hidden {
        StepDataThrough(z, v, cid, sid, blob);
        hide StepOne, CounterNonce, OpenIds;
        ok := net.Write(st.down.value, dec.value);
      } else if st.down.Some? {
        StepDataThrough(z, v, cid, sid, blob);
        hide StepOne, CounterNonce, OpenIds;
        var _ := st.EnsureServeDown();
        ok := net.ForwardCell(z, st.down.value, cid, Cell.Data(sid, dec.value));
      } else {
        StepDataExit(z, v, cid, sid, blob);
        OpenIdsWithout(v.streams, cid, sid);
        hide StepOne, CounterNonce, Flatten, WithoutStream, NoEmptyMaps, OpenIds;
        ok := Deliver(st, cid, sid, dec.value);
      }
    }

    // ---- BEGIN and CONNECT ----

    /** BEGIN; `dialled` is the connection the dial of the target gives, if it succeeds. `loop` is the stream an upward
        loop is started for. */
    method Begin(st: ConnState, cid: CircuitId, request: Blob, dialled: Option<ConnId>) returns (loop: Option<uint16>, ok: bool)
      requires repo.Valid() && repo.net == net && (st.hidden ==> st.down.Some?)
      modifies st, repo`streams, net
      ensures repo.Valid() && st.last == old(st.last)
      ensures Result(Here(st, cid), loop, ok) == StepOne(z, old(Here(st, cid)), cid, Cell.Begin(request), dialled)
    {
      hide CounterNonce, Flatten, WithStream, WithoutStream, NoEmptyMaps, Separate;
      loop := None;
      var nonce := st.BeginNonce();
      var dec := AESOpen(st.key, nonce, request);
      if dec == None {
        return loop, false;
      }
      if !st.hidden && st.down.Some? {
        var _ := st.EnsureServeDown();
        ok := net.ForwardCell(z, st.down.value, cid, Cell.Begin(dec.value));
        return;
      }
      if !dec.value.Plain? || !dec.value.msg.BeginDto? || dec.value.msg.sid == 0 {
        return loop, false;
      }
      var sid := dec.value.msg.sid;
      if st.hidden {
        loop := Some(sid);
        ok := net.ForwardCell(z, st.up, cid, BeginAck);
        return;
      }
      if dialled == None {
        var _ := net.ForwardCell(z, st.up, cid, Cell.Destroy);
        return loop, false;
      }
      OpenIdsWith(repo.streams, cid, sid, dialled.value);
      repo.AddStream(cid, sid, dialled.value);
      ok := net.ForwardCell(z, st.up, cid, BeginAck);
      if ok {
        loop := Some(sid);
      }
    }

    /** CONNECT; at the exit a new state takes the place of the old one. */
    method Connect(st: ConnState, cid: CircuitId, request: Blob, dialled: Option<ConnId>, now: nat) returns (ok: bool)
      requires repo.Valid() && repo.net == net && cid in repo.m && repo.m[cid] == st && (st.hidden ==> st.down.Some?)
      modifies st, repo`m, net
      ensures repo.Valid() && repo.streams == old(repo.streams) && cid in repo.m && (old(st.last) == now ==> repo.m[cid].last == now)
      ensures (repo.m[cid] == st || fresh(repo.m[cid])) && repo.m == old(repo.m)[cid := repo.m[cid]]
      ensures Result(Here(repo.m[cid], cid), None, ok) == StepOne(z, old(Here(st, cid)), cid, Cell.Connect(request), dialled)
    {
      hide CounterNonce, Flatten, WithStream, WithoutStream, NoEmptyMaps, OpenIds;
      assert repo.m == repo.m[cid := st];
      if st.down.Some? {
        var _ := st.EnsureServeDown();
        var nonce := st.BeginNonce();
        var dec := AESOpen(st.key, nonce, request);
        if dec == None {
          return false;
        }
        ok := net.ForwardCell(z, st.down.value, cid, Cell.Connect(dec.value));
        return;
      }
      ok := ConnectExit(st, cid, request, dialled, now);
    }

    method ConnectExit(st: ConnState, cid: CircuitId, request: Blob, dialled: Option<ConnId>, now: nat) returns (ok: bool)
      requires repo.Valid() && repo.net == net && cid in repo.m && repo.m[cid] == st && !st.hidden && st.down == None
      modifies st, repo`m, net
      ensures repo.Valid() && repo.streams == old(repo.streams) && cid in repo.m && (old(st.last) == now ==> repo.m[cid].last == now)
      ensures (repo.m[cid] == st || fresh(repo.m[cid])) && repo.m == old(repo.m)[cid := repo.m[cid]]
      ensures Result(Here(repo.m[cid], cid), None, ok) == StepOne(z, old(Here(st, cid)), cid, Cell.Connect(request), dialled)
    {
      StepConnectExit(z, Here(st, cid), cid, request, dialled);
      hide CounterNonce, StepOne, NoEmptyMaps, OpenIds;
      assert repo.m == repo.m[cid := st];
      var nonce := st.BeginNonce();
      var dec := AESOpen(st.key, nonce, request);
      if dec == None {
        return false;
      }
      if BlobLen(z, dec.value) > 0 && !(dec.value.Plain? && dec.value.msg.ConnectDto?) {
        return false;
      }
      if dialled == None {
        return false;
      }
      ok := BecomeHidden(st, cid, dialled.value, now);
    }

    /** A new state takes the place of the old one: two of its counters go on, the upward one starts at 0. */
    method BecomeHidden(st: ConnState, cid: CircuitId, service: ConnId, now: nat) returns (ok: bool)
      requires repo.Valid() && repo.net == net && cid in repo.m && repo.m[cid] == st
      modifies repo`m, net`log
      ensures repo.Valid() && cid in repo.m && fresh(repo.m[cid]) && repo.m == old(repo.m)[cid := repo.m[cid]]
      ensures repo.m[cid].last == now
      ensures var v := old(Here(st, cid)); var h := v.entry.hop;
        && Here(repo.m[cid], cid)
           == v.(entry := Entry(h.(up := 0, hasDown := true, hidden := true, served := false), v.entry.up, Some(service)),
                 log := Send(z, v.log, v.closed, v.entry.up, cid, BeginAck))
        && ok == (v.entry.up !in v.closed)
    {
      hide NoEmptyMaps, OpenIds;
      var newSt := new ConnState.WithCounters(st.key, st.baseNonce, st.up, Some(service), st.beginCounter, st.dataCounter, now);
      newSt.SetHidden(true);
      repo.Add(cid, newSt, now);
      ok := net.ForwardCell(z, newSt.up, cid, BeginAck);
    }

    // ---- END and DESTROY ----

    method EndStream(st: ConnState, cid: CircuitId, sid: uint16) returns (ok: bool)
      requires repo.Valid() && repo.net == net && cid in repo.m && repo.m[cid] == st
      requires SoundEntry(Here(st, cid).entry, repo.streams, cid)
      modifies st`served, repo, net
      ensures repo.Valid() && repo.m == if sid == 0 then old(repo.m) - {cid} else old(repo.m)
      ensures var t := StepOne(z, old(Here(st, cid)), cid, End(sid), None);
        && ok == t.ok && t.loop == None && t.value.entry.hop.alive == (sid != 0)
        && (sid != 0 ==> Here(st, cid) == t.value)
        && repo.streams == t.value.streams && net.closed == t.value.closed && net.log == t.value.log
    {
      hide CounterNonce, Flatten, WithStream, WithoutStream, NoEmptyMaps, Separate;
      ghost var closed, conns := net.closed, ConnsOf(repo.streams, cid);
      if sid == 0 {
        repo.DestroyAllStreams(cid);
        assert ConnsOf(repo.streams, cid) == {} && repo.streams - {cid} == repo.streams;
        if st.down.Some? {
          var _ := st.EnsureServeDown();
          var _ := net.ForwardCell(z, st.down.value, cid, End(sid));
        }
        repo.Delete(cid);
        assert net.closed == closed + st.Conns() + conns;
        return true;
      }
      StreamConn(repo.streams, cid, sid);
      OpenIdsWithout(repo.streams, cid, sid);
      repo.RemoveStream(cid, sid);
      if st.down.Some? {
        var _ := st.EnsureServeDown();
        ok := net.ForwardCell(z, st.down.value, cid, End(sid));
        return;
      }
      return true;
    }

    method Destroy(st: ConnState, cid: CircuitId) returns (ok: bool)
      requires repo.Valid() && repo.net == net && cid in repo.m && repo.m[cid] == st
      modifies repo, net
      ensures repo.Valid() && repo.m == old(repo.m) - {cid}
      ensures var t := StepOne(z, old(Here(st, cid)), cid, Cell.Destroy, None);
        && ok == t.ok && t.loop == None && !t.value.entry.hop.alive
        && repo.streams == t.value.streams && net.closed == t.value.closed && net.log == t.value.log
    {
      if st.down.Some? {
        var _ := net.ForwardCell(z, st.down.value, cid, Cell.Destroy);
      }
      repo.Delete(cid);
      return true;
    }

    // ---- EXTEND ----

    /** EXTEND for a new circuit: if the key exchange gives a key, dials the next hop, if there is one, stores a fresh state and
        answers. */
    method Extend(from: ConnId, cid: CircuitId, ext: Extension, dialled: Option<ConnId>, now: nat) returns (ok: bool)
      requires Valid() && cid !in repo.m
      requires ConnsOf(repo.streams, cid) !! {from} + (if dialled.Some? then {dialled.value} else {})
      modifies repo`m, net`log
      ensures Valid() && forall o :: o in repo.m ==> (o in old(repo.m) && repo.m[o] == old(repo.m)[o]) || fresh(repo.m[o])
      ensures UsedNow(cid, now) && repo.m - {cid} == old(repo.m) - {cid}
      ensures Result(Snapshot(), None, ok) == StepExtend(old(Snapshot()), from, cid, ext, dialled, false)
    {
      hide Table, SoundWorld, OpenIds, ConnsOf;
      KnownIds();
      if ext.id == None {
        return false;
      }
      if !ext.hasNext {
        ok := Attach(from, cid, ext.id.value, None, now);
        return;
      }
      if dialled == None {
        return false;
      }
      ok := Attach(from, cid, ext.id.value, dialled, now);
    }

    method Attach(up: ConnId, cid: CircuitId, id: Ident, down: Option<ConnId>, now: nat) returns (ok: bool)
      requires Valid() && cid !in repo.m
      requires ConnsOf(repo.streams, cid) !! {up} + (if down.Some? then {down.value} else {})
      modifies repo`m, net`log
      ensures Valid() && ok == (up !in net.closed) && UsedNow(cid, now) && repo.m - {cid} == old(repo.m) - {cid}
      ensures forall o :: o in repo.m ==> (o in old(repo.m) && repo.m[o] == old(repo.m)[o]) || fresh(repo.m[o])
      ensures var w := old(Snapshot());
        Snapshot() == w.(table := w.table[cid := NewEntry(w.streams, up, cid, id, down)], log := Answered(w.log, w.closed, up, cid))
    {
      hide OpenIds, NoEmptyMaps, Separate, ConnsOf, SoundWorld, Table;
      ghost var w := Snapshot();
      var st := new ConnState(id.key, id.base, up, down, now);
      ghost var e := Here(st, cid).entry;
      Install(st, cid, now);
      NewEntrySound(w, cid, e, Answered(w.log, w.closed, up, cid));
      ok := net.SendCreated(up, cid);
    }

    /** EXTEND for a known circuit: passed on, and the answer from below passed up. While it waits, `answered` tells how that
        ends, nothing else is read from the connection EXTEND came on. */
    method ForwardExtend(st: ConnState, cid: CircuitId, answered: bool) returns (ok: bool)
      modifies net`log
      ensures var e, log, closed := Here(st, cid).entry, old(net.log), net.closed;
        if e.down == None || e.down.value in closed then !ok && net.log == log
        else
          && ok == (answered && e.up !in closed)
          && net.log == if answered then Answered(log + [ExtendOut(e.down.value, cid)], closed, e.up, cid)
                        else log + [ExtendOut(e.down.value, cid)]
    {
      if st.down == None {
        return false;
      }
      ok := net.ForwardExtend(st.down.value, cid);
      if !ok {
        return;
      }
      if !answered {
        return false;
      }
      ok := net.SendCreated(st.up, cid);
    }

    /** If the circuit is in the table, it counts as used at this moment. */
    ghost predicate UsedNow(cid: CircuitId, now: nat)
      reads repo, repo.m.Values
    {
      cid in repo.m ==> repo.m[cid].last == now
    }

    lemma KnownIds()
      ensures Table().Keys == repo.m.Keys
      ensures forall cid :: cid in repo.m ==> Table()[cid] == EntryOf(cid)
    {
    }

    /** A new state object becomes the entry of a circuit, and no other entry changes. */
    method Install(st: ConnState, cid: CircuitId, now: nat)
      requires repo.Valid() && repo.net == net && forall c :: c in repo.m ==> repo.m[c] != st
      modifies repo`m, st`last
      ensures repo.Valid() && repo.m == old(repo.m)[cid := st] && st.last == now
      ensures Snapshot() == old(Snapshot()).(table := old(Table())[cid := old(Here(st, cid)).entry])
    {
      hide OpenIds, NoEmptyMaps, Separate;
      ghost var entries, e := Table(), Here(st, cid).entry;
      repo.Add(cid, st, now);
      TableIs(entries[cid := e]);
    }

    // ---- the dispatcher ----

    method Dispatch(st: ConnState, cid: CircuitId, c: Cell, dialled: Option<ConnId>, now: nat)
      returns (loop: Option<uint16>, ok: bool)
      requires repo.Valid() && repo.net == net && cid in repo.m && repo.m[cid] == st
      requires SoundEntry(Here(st, cid).entry, repo.streams, cid) && st.last == now
      modifies st, repo, net
      ensures repo.Valid() && UsedNow(cid, now)
      ensures var t := StepOne(z, old(Here(st, cid)), cid, c, dialled);
        && loop == t.loop && ok == t.ok
        && repo.streams == t.value.streams && net.closed == t.value.closed && net.log == t.value.log
        && if t.value.entry.hop.alive then
             cid in repo.m && (repo.m[cid] == st || fresh(repo.m[cid])) && repo.m == old(repo.m)[cid := repo.m[cid]]
             && Here(repo.m[cid], cid) == t.value
           else
             repo.m == old(repo.m) - {cid}
    {
      loop := None;
      assert repo.m == repo.m[cid := st];
      StaysAlive(z, Here(st, cid), cid, c, dialled);
      hide StepOne, OpenIds, CounterNonce, Separate, NoEmptyMaps;
      match c
      case Begin(request) => loop, ok := Begin(st, cid, request, dialled);
      case BeginAck => ok := Acknowledge(st, cid);
      case End(sid) => ok := EndStream(st, cid, sid);
      case Destroy => ok := Destroy(st, cid);
      case Connect(request) => ok := Connect(st, cid, request, dialled, now);
      case Data(sid, blob) => ok := Data(st, cid, sid, blob);
      case Malformed => ok := Drop(st, cid, Malformed);
      case Ignored => ok := Drop(st, cid, Ignored);
    }

    /** One cell from a connection, whichever side it came from: the whole relay moves as the specification says. The circuit
        counts as used now, whatever becomes of the cell, and no other circuit does. */
    method HandleCell(from: ConnId, a: Arrival, now: nat) returns (loop: Option<uint16>, ok: bool)
      requires Valid() && Admits(Snapshot(), from, a)
      modifies repo, repo.m.Values, net
      ensures Valid() && UsedNow(a.cid, now)
      ensures forall o :: o in repo.m && o != a.cid ==> o in old(repo.m) && repo.m[o].last == old(repo.m[o].last)
      ensures Result(Snapshot(), loop, ok) == Arrive(z, old(Snapshot()), from, a)
      ensures forall o :: o in repo.m ==> (o in old(repo.m) && repo.m[o] == old(repo.m)[o]) || fresh(repo.m[o])
    {
      hide Step, StepExtend, SoundWorld, NewConn, ConnsOf;
      KnownIds();
      ghost var m := repo.m;
      var found := FindEntry(a.cid, now);
      match a.what {
        case Ordinary(c) =>
          loop, ok := HandleOrdinary(found, a.cid, c, a.dialled, now);
        case Extending(ext) =>
          loop := None;
          ok := HandleExtending(found, from, a, ext, now);
      }
      OldOrNew(repo.m, m, a.cid);
    }

    method HandleOrdinary(found: Option<ConnState>, cid: CircuitId, c: Cell, dialled: Option<ConnId>, now: nat)
      returns (loop: Option<uint16>, ok: bool)
      requires Valid() && NewConn(Snapshot(), cid, dialled) && found == (if cid in repo.m then Some(repo.m[cid]) else None)
      requires UsedNow(cid, now)
      modifies repo, if cid in repo.m then {repo.m[cid]} else {}, net
      ensures Valid() && UsedNow(cid, now) && repo.m - {cid} == old(repo.m) - {cid}
      ensures Result(Snapshot(), loop, ok) == Step(z, old(Snapshot()), cid, c, dialled)
      ensures forall o :: o in repo.m ==> (o in old(repo.m) && repo.m[o] == old(repo.m)[o]) || fresh(repo.m[o])
    {
      SnapshotConsistent();
      StepKeepsSound(z, Snapshot(), cid, c, dialled);
      hide Step, SoundWorld, NewConn, Consistent;
      if found == None {
        loop, ok := HandleUnknown(cid, c, dialled);
      } else {
        ghost var m := repo.m;
        loop, ok := HandleKnown(found.value, cid, c, dialled, now);
        OldOrNew(repo.m, m, cid);
      }
    }

    method HandleExtending(found: Option<ConnState>, from: ConnId, a: Arrival, ext: Extension, now: nat) returns (ok: bool)
      requires Valid() && a.what == Extending(ext) && Admits(Snapshot(), from, a)
      requires found == (if a.cid in repo.m then Some(repo.m[a.cid]) else None) && UsedNow(a.cid, now)
      modifies repo`m, net`log
      ensures Valid() && UsedNow(a.cid, now) && repo.m - {a.cid} == old(repo.m) - {a.cid}
      ensures forall o :: o in repo.m ==> (o in old(repo.m) && repo.m[o] == old(repo.m)[o]) || fresh(repo.m[o])
      ensures Result(Snapshot(), None, ok) == StepExtend(old(Snapshot()), from, a.cid, ext, a.dialled, a.answered)
    {
      hide SoundWorld, ConnsOf, OpenIds, Table, NoEmptyMaps, Separate;
      KnownIds();
      ghost var w := Snapshot();
      if found == None {
        ok := Extend(from, a.cid, ext, a.dialled, now);
      } else {
        ok := ForwardExtend(found.value, a.cid, a.answered);
        LogOnlyKeeps(w, net.log);
      }
    }

    /** The frames of one connection, one after the other, until one is not a cell (None) or the connection ends; then it is
        closed. */
    method ServeConn(conn: ConnId, frames: seq<Option<Arrival>>, now: nat)
      requires Valid() && DialsNew(z, Snapshot(), Readable(conn, frames))
      modifies repo, repo.m.Values, net
      ensures repo.Valid()
      ensures var t := Serve(z, old(Snapshot()), Readable(conn, frames)); Snapshot() == t.(closed := t.closed + {conn})
    {
      hide Arrive, Admits, SoundWorld;
      var rest := frames;
      while rest != [] && rest[0].Some?
        invariant Valid() && forall o :: o in repo.m ==> repo.m[o] in old(repo.m.Values) || fresh(repo.m[o])
        invariant Serve(z, Snapshot(), Readable(conn, rest)) == Serve(z, old(Snapshot()), Readable(conn, frames))
        invariant DialsNew(z, Snapshot(), Readable(conn, rest))
        decreases |rest|
      {
        var a := rest[0].value;
        rest := rest[1..];
        var _, _ := HandleCell(conn, a, now);
      }
      net.Close(conn);
    }

    /** Looking a circuit up changes nothing but the time of its last use, which is now. */
    method FindEntry(cid: CircuitId, now: nat) returns (found: Option<ConnState>)
      requires repo.Valid()
      modifies repo.m.Values`last
      ensures repo.Valid() && Snapshot() == old(Snapshot())
      ensures found == (if cid in repo.m then Some(repo.m[cid]) else None) && UsedNow(cid, now)
      ensures forall o :: o in repo.m && o != cid ==> repo.m[o].last == old(repo.m[o].last)
    {
      hide NoEmptyMaps;
      ghost var entries := Table();
      found := repo.Find(cid, now);
      TableIs(entries);
    }

    method HandleUnknown(cid: CircuitId, c: Cell, dialled: Option<ConnId>) returns (loop: Option<uint16>, ok: bool)
      requires cid !in repo.m
      ensures Result(Snapshot(), loop, ok) == Step(z, Snapshot(), cid, c, dialled)
    {
      return None, c.End?;
    }

    method HandleKnown(st: ConnState, cid: CircuitId, c: Cell, dialled: Option<ConnId>, now: nat)
      returns (loop: Option<uint16>, ok: bool)
      requires repo.Valid() && repo.net == net && cid in repo.m && repo.m[cid] == st
      requires Consistent(Snapshot()) && SoundWorld(Snapshot()) && st.last == now
      modifies st, repo, net
      ensures repo.Valid() && UsedNow(cid, now)
      ensures Result(Snapshot(), loop, ok) == Step(z, old(Snapshot()), cid, c, dialled)
      ensures repo.m - {cid} == old(repo.m) - {cid} && (cid in repo.m ==> repo.m[cid] == st || fresh(repo.m[cid]))
    {
      ghost var w := Snapshot();
      assert Here(st, cid) == ViewOf(w, cid) && SoundEntry(w.table[cid], w.streams, cid);
      StreamsAfter(z, w, cid, c, dialled);
      hide StepOne, Handle, OpenIds, NoEmptyMaps, Consistent, Separate, SoundEntry, SoundWorld, Table;
      loop, ok := Route(st, cid, c, dialled, now, StepOne(z, ViewOf(w, cid), cid, c, dialled));
    }

    /** Dispatching touches the table's entry of no other circuit. */
    method Route(st: ConnState, cid: CircuitId, c: Cell, dialled: Option<ConnId>, now: nat, ghost t: Result<View>)
      returns (loop: Option<uint16>, ok: bool)
      requires repo.Valid() && repo.net == net && cid in repo.m && repo.m[cid] == st
      requires SoundEntry(Here(st, cid).entry, repo.streams, cid) && st.last == now
      requires t == StepOne(z, Here(st, cid), cid, c, dialled)
      requires forall other :: other != cid ==> OpenIds(t.value.streams, other) == OpenIds(repo.streams, other)
      modifies st, repo, net
      ensures repo.Valid() && UsedNow(cid, now) && loop == t.loop && ok == t.ok
      ensures repo.streams == t.value.streams && net.closed == t.value.closed && net.log == t.value.log
      ensures Table() == if t.value.entry.hop.alive then old(Table())[cid := t.value.entry] else old(Table()) - {cid}
      ensures repo.m - {cid} == old(repo.m) - {cid} && (cid in repo.m ==> repo.m[cid] == st || fresh(repo.m[cid]))
    {
      hide StepOne, OpenIds, NoEmptyMaps, SoundEntry, Separate, Table, Entries, IdsOf;
      ghost var entries, others, streams := Table(), repo.m - {cid}, repo.streams;
      NotAmongOthers(cid);
      TableSplit(cid);
      SameIds(others, streams, t.value.streams, cid);
      loop, ok := DispatchApart(st, cid, c, dialled, now, others, IdsOf(others, streams));
      TableSplit(cid);
      EntryIs(cid);
      Replaced(Table(), entries, cid);
    }

    method DispatchApart(st: ConnState, cid: CircuitId, c: Cell, dialled: Option<ConnId>, now: nat,
        ghost others: map<CircuitId, ConnState>, ghost ids: map<CircuitId, set<uint16>>) returns (loop: Option<uint16>, ok: bool)
      requires repo.Valid() && repo.net == net && cid in repo.m && repo.m[cid] == st
      requires SoundEntry(Here(st, cid).entry, repo.streams, cid) && st.last == now
      requires others == repo.m - {cid} && st !in others.Values && others.Keys <= ids.Keys
      modifies st, repo, net
      ensures repo.Valid() && UsedNow(cid, now) && repo.m - {cid} == others && Entries(others, ids) == old(Entries(others, ids))
      ensures var t := StepOne(z, old(Here(st, cid)), cid, c, dialled);
        && loop == t.loop && ok == t.ok
        && repo.streams == t.value.streams && net.closed == t.value.closed && net.log == t.value.log
        && (cid in repo.m <==> t.value.entry.hop.alive)
        && (cid in repo.m ==> EntryOf(cid) == t.value.entry && (repo.m[cid] == st || fresh(repo.m[cid])))
    {
      hide StepOne, OpenIds, NoEmptyMaps, SoundEntry, Separate, Entries;
      loop, ok := Dispatch(st, cid, c, dialled, now);
    }

    /** The entries of some circuits, given their open streams. */
    static ghost function Entries(m: map<CircuitId, ConnState>, ids: map<CircuitId, set<uint16>>): map<CircuitId, Entry>
      requires m.Keys <= ids.Keys
      reads m.Values
    {
      map cid | cid in m :: Entry(m[cid].Value(ids[cid]), m[cid].up, m[cid].down)
    }

    static ghost function IdsOf(m: map<CircuitId, ConnState>, streams: StreamMaps): (ids: map<CircuitId, set<uint16>>)
      ensures m.Keys <= ids.Keys
    {
      map cid | cid in m :: OpenIds(streams, cid)
    }

    static lemma SameIds(m: map<CircuitId, ConnState>, streams: StreamMaps, other: StreamMaps, cid: CircuitId)
      requires cid !in m && forall o :: o != cid ==> OpenIds(other, o) == OpenIds(streams, o)
      ensures IdsOf(m, other) == IdsOf(m, streams)
    {
      hide OpenIds;
    }

    lemma NotAmongOthers(cid: CircuitId)
      requires Separate(repo.m) && cid in repo.m
      ensures repo.m[cid] !in (repo.m - {cid}).Values
    {
    }

    lemma TableSplit(cid: CircuitId)
      ensures Table() - {cid} == Entries(repo.m - {cid}, IdsOf(repo.m - {cid}, repo.streams))
    {
      hide OpenIds;
      var a, b := Table() - {cid}, Entries(repo.m - {cid}, IdsOf(repo.m - {cid}, repo.streams));
      assert a.Keys == b.Keys;
    }

    lemma EntryIs(cid: CircuitId)
      ensures cid in Table() <==> cid in repo.m
      ensures cid in repo.m ==> Table()[cid] == EntryOf(cid)
    {
    }

    lemma TableIs(entries: map<CircuitId, Entry>)
      requires entries.Keys == repo.m.Keys && forall cid :: cid in repo.m ==> EntryOf(cid) == entries[cid]
      ensures Table() == entries
    {
    }

    // ---- the upward loop ----

    /** Reads the local connection to its end: each piece is sealed and sent up, then the stream is closed. */
    method ForwardUpstream(st: ConnState, cid: CircuitId, sid: uint16, down: ConnId, chunks: seq<seq<byte>>)
      requires repo.Valid() && repo.net == net
      requires forall k :: 0 <= k < |chunks| ==> 0 < |chunks[k]| <= MAX_PAYLOAD_SIZE
      modifies st`upstreamDataCounter, repo`streams, net
      ensures repo.Valid()
      ensures var r := Upstream(z, old(st.Value({})), st.up !in old(net.closed), sid, chunks);
        var closed := old(net.closed) + if sid != 0 then ConnOf(old(repo.streams), cid, sid) else {};
        && st.Value({}) == r.0
        && net.log == Send(z, old(net.log) + Outs(st.up, cid, r.1), closed, st.up, cid, End(sid))
        && repo.streams == (if sid != 0 then WithoutStream(old(repo.streams), cid, sid) else old(repo.streams))
        && net.closed == closed + {down}
    {
      hide CounterNonce, Flatten, WithoutStream, NoEmptyMaps, Separate, Table;
      ghost var h, log, open := st.Value({}), net.log, st.up !in net.closed;
      for k := 0 to |chunks|
        invariant repo.Valid() && repo.streams == old(repo.streams) && net.closed == old(net.closed)
        invariant st.Value({}) == Upstream(z, h, open, sid, chunks[..k]).0
        invariant net.log == log + Outs(st.up, cid, Upstream(z, h, open, sid, chunks[..k]).1)
      {
        assert chunks[..k + 1][..k] == chunks[..k];
        OutsAppend(st.up, cid, Upstream(z, h, open, sid, chunks[..k]).1, UpwardCell(st.Value({}), sid, Raw(chunks[k])));
        SendPiece(st, cid, sid, chunks[k]);
      }
      assert chunks[..|chunks|] == chunks;
      EndLoop(st, cid, sid, down);
    }

    /** One turn of the loop. */
    method SendPiece(st: ConnState, cid: CircuitId, sid: uint16, piece: seq<byte>)
      modifies st`upstreamDataCounter, net`log
      ensures st.upstreamDataCounter == Inc(old(st.upstreamDataCounter))
      ensures net.log == Send(z, old(net.log), net.closed, st.up, cid, UpwardCell(old(st.Value({})), sid, Raw(piece)))
      ensures repo.Valid() && cid in repo.m && repo.m[cid] == st ==> Snapshot() == LoopTurn(z, old(Snapshot()), cid, sid, piece)
    {
      hide CounterNonce, OpenIds, NoEmptyMaps, Fits;
      ghost var w := Snapshot();
      var nonce := st.UpstreamDataNonce();
      var enc := AESSeal(st.key, nonce, Plain(Raw(piece)));
      var _ := net.ForwardCell(z, st.up, cid, Cell.Data(sid, enc));
      if repo.Valid() && cid in repo.m && repo.m[cid] == st {
        TableIs(LoopTurn(z, w, cid, sid, piece).table);
      }
    }

    /** What an upward loop does when there is nothing more to read. The circuit may be gone from the table by then. */
    method EndLoop(st: ConnState, cid: CircuitId, sid: uint16, down: ConnId)
      requires repo.Valid() && repo.net == net
      modifies repo`streams, net
      ensures repo.Valid() && Snapshot() == LoopOver(z, old(Snapshot()), cid, sid, st.up, down)
    {
      hide Flatten, WithoutStream, NoEmptyMaps, Separate, OpenIds;
      OpenIdsWithout(repo.streams, cid, sid);
      ghost var w := Snapshot();
      if sid != 0 {
        repo.RemoveStream(cid, sid);
      }
      var _ := net.ForwardCell(z, st.up, cid, End(sid));
      net.Close(down);
      TableIs(LoopOver(z, w, cid, sid, st.up, down).table);
    }

    lemma SnapshotConsistent()
      requires repo.Valid() && SoundWorld(Snapshot())
      ensures Consistent(Snapshot())
    {
    }

    method Acknowledge(st: ConnState, cid: CircuitId) returns (ok: bool)
      modifies net`log
      ensures Result(Here(st, cid), None, ok) == StepOne(z, old(Here(st, cid)), cid, BeginAck, None)
    {
      ok := net.ForwardCell(z, st.up, cid, BeginAck);
    }

    method Drop(st: ConnState, cid: CircuitId, c: Cell) returns (ok: bool)
      requires c.Malformed? || c.Ignored?
      ensures Result(Here(st, cid), None, ok) == StepOne(z, Here(st, cid), cid, c, None)
    {
      ok := c.Ignored?;
    }
  }

  lemma OldOrNew<V>(t: map<CircuitId, V>, m: map<CircuitId, V>, cid: CircuitId)
    requires t - {cid} == m - {cid}
    ensures forall o :: o in t && o != cid ==> o in m && t[o] == m[o]
  {
    forall o | o in t && o != cid
      ensures o in m && t[o] == m[o]
    {
      assert o in t - {cid} && (t - {cid})[o] == (m - {cid})[o];
    }
  }

  /** Two maps that agree but for one key. */
  lemma Replaced<K, V>(t: map<K, V>, u: map<K, V>, k: K)
    requires t - {k} == u - {k}
    ensures t == if k in t then u[k := t[k]] else u - {k}
  {
    forall x | x != k
      ensures (x in t <==> x in u) && (x in t ==> t[x] == u[x])
    {
      assert x in t - {k} <==> x in u - {k};
      assert x in t ==> (t - {k})[x] == (u - {k})[x];
    }
  }

  lemma NewEntrySound(w: World, cid: CircuitId, e: Entry, log: seq<Event>)
    requires SoundWorld(w) && SoundEntry(e, w.streams, cid)
    ensures SoundWorld(w.(table := w.table[cid := e], log := log))
  {
  }

  /** Only BEGIN and CONNECT depend on a dial. */
  lemma HandleNoDial(z: Sizes, h: Hop, c: Cell, env: Env)
    requires !c.Begin? && !c.Connect?
    ensures Handle(z, h, c, env) == Handle(z, h, c, env.(dialOk := false))
    ensures Handle(z, h, c, env).hop.hidden == h.hidden && OpensStream(h, c) == None
  {
    hide CounterNonce;
  }

  lemma StaysAlive(z: Sizes, v: View, cid: CircuitId, c: Cell, dialled: Option<ConnId>)
    requires v.entry.hop.alive
    ensures StepOne(z, v, cid, c, dialled).value.entry.hop.alive == !(c == End(0) || c.Destroy?)
    ensures !c.Begin? && !c.Connect? ==> StepOne(z, v, cid, c, dialled) == StepOne(z, v, cid, c, None)
  {
    hide Handle, Flatten, WithStream, WithoutStream, OpensStream, ClosesStream, ConnOf, ConnsOf, Logged;
    HandleAlive(z, v.entry.hop, c, EnvFor(v, cid, c, dialled));
    if !c.Begin? && !c.Connect? {
      HandleNoDial(z, v.entry.hop, c, EnvFor(v, cid, c, dialled));
    }
  }

  /** The connections of every circuit after a cell: at most the one dialled comes in, and that only for this circuit. */
  lemma ConnsAfterStep(z: Sizes, v: View, cid: CircuitId, c: Cell, dialled: Option<ConnId>, other: CircuitId)
    ensures var t := StepOne(z, v, cid, c, dialled).value;
      ConnsOf(t.streams, other) <= ConnsOf(v.streams, other) + if other == cid && dialled.Some? && c.Begin? then {dialled.value} else {}
  {
    hide Handle, Flatten, WithStream, WithoutStream, ClosesStream, ConnOf, ConnsOf, Logged, CounterNonce;
    var begun, shut := OpensStream(v.entry.hop, c), ClosesStream(v.entry.hop, Handle(z, v.entry.hop, c, EnvFor(v, cid, c, dialled)), c);
    ConnsAfter(v.streams, cid, if begun.Some? then begun.value else if shut.Some? then shut.value else 0,
               if dialled.Some? then dialled.value else 0, other);
    if shut.Some? {
      ConnsAfter(v.streams, cid, shut.value, 0, other);
    }
  }

  /** A cell changes the downward connection of a circuit only when CONNECT has dialled one. */
  lemma EntryAfterOne(z: Sizes, v: View, cid: CircuitId, c: Cell, dialled: Option<ConnId>)
    ensures var e := StepOne(z, v, cid, c, dialled).value.entry;
      && e.up == v.entry.up
      && e.hop.alive == Handle(z, v.entry.hop, c, EnvFor(v, cid, c, dialled)).hop.alive
      && (e.down != v.entry.down ==> e.down == dialled && c.Connect?)
  {
    hide CounterNonce, Flatten, WithStream, WithoutStream, ClosesStream, ConnOf, ConnsOf, Logged, OpensStream;
  }

  /** What one cell can change outside its circuit (nothing) and in the connections of its own. */
  lemma WhatChanges(z: Sizes, w: World, cid: CircuitId, c: Cell, dialled: Option<ConnId>)
    requires Consistent(w) && cid in w.table
    ensures var v := ViewOf(w, cid); var t := StepOne(z, v, cid, c, dialled).value;
      && (forall other :: other != cid ==>
            OpenIds(t.streams, other) == OpenIds(w.streams, other) && ConnsOf(t.streams, other) <= ConnsOf(w.streams, other))
      && ConnsOf(t.streams, cid) <= ConnsOf(w.streams, cid) + (if dialled.Some? && c.Begin? then {dialled.value} else {})
      && t.entry.up == v.entry.up && (t.entry.down != v.entry.down ==> t.entry.down == dialled && c.Connect?)
      && (t.entry.hop.alive && t.entry.hop.hidden ==> t.entry.down.Some?)
  {
    StreamsAfter(z, w, cid, c, dialled);
    EntryAfter(z, w, cid, c, dialled);
    EntryAfterOne(z, ViewOf(w, cid), cid, c, dialled);
    hide Handle, ConnsOf, OpenIds, StepOne, Consistent;
    var t := StepOne(z, ViewOf(w, cid), cid, c, dialled).value;
    forall other
      ensures ConnsOf(t.streams, other) <= ConnsOf(w.streams, other) + if other == cid && dialled.Some? && c.Begin? then {dialled.value} else {}
    {
      ConnsAfterStep(z, ViewOf(w, cid), cid, c, dialled, other);
    }
  }

  /** Links and local connections stay apart. */
  lemma StepKeepsSound(z: Sizes, w: World, cid: CircuitId, c: Cell, dialled: Option<ConnId>)
    requires Consistent(w) && SoundWorld(w) && NewConn(w, cid, dialled)
    ensures SoundWorld(Step(z, w, cid, c, dialled).value)
  {
    if cid in w.table {
      WhatChanges(z, w, cid, c, dialled);
      hide Handle, StepOne, Consistent, ConnsOf, OpenIds;
      var t := Step(z, w, cid, c, dialled).value;
      forall other | other in t.table
        ensures SoundEntry(t.table[other], t.streams, other)
      {
        assert SoundEntry(w.table[other], w.streams, other);
      }
    }
  }

  lemma LogOnlyKeeps(w: World, log: seq<Event>)
    ensures SoundWorld(w) ==> SoundWorld(w.(log := log))
    ensures Consistent(w) ==> Consistent(w.(log := log))
    ensures NoOrphans(w) ==> NoOrphans(w.(log := log))
  {
  }

  /** The cells of a connection up to the first frame that is none. */
  function Readable(conn: ConnId, frames: seq<Option<Arrival>>): seq<Happening> {
    if frames == [] || frames[0] == None then [] else [Arrives(conn, frames[0].value)] + Readable(conn, frames[1..])
  }

  /** They are the cells before the first frame that is none, each as it came and in order. */
  lemma {:induction false} ReadableUpTo(conn: ConnId, frames: seq<Option<Arrival>>)
    ensures var hs := Readable(conn, frames);
      && |hs| <= |frames| && (|hs| < |frames| ==> frames[|hs|] == None)
      && forall k :: 0 <= k < |hs| ==> frames[k] != None && hs[k] == Arrives(conn, frames[k].value)
  {
    if frames != [] && frames[0] != None {
      ReadableUpTo(conn, frames[1..]);
    }
  }

  /** Tables in agreement, no orphaned streams, links apart from local connections. */
  ghost predicate Sane(w: World) {
    Consistent(w) && NoOrphans(w) && SoundWorld(w)
  }

  lemma ExtendKeeps(w: World, from: ConnId, a: Arrival, ext: Extension)
    requires Sane(w) && a.what == Extending(ext) && Admits(w, from, a)
    ensures Sane(StepExtend(w, from, a.cid, ext, a.dialled, a.answered).value)
  {
    hide Sane, ConnsOf, OpenIds, Answered, NewEntry;
    var log := StepExtend(w, from, a.cid, ext, a.dialled, a.answered).value.log;
    SaneLog(w, log);
    if a.cid !in w.table && ext.id.Some? && (ext.hasNext ==> a.dialled.Some?) {
      NewEntrySane(w.(log := log), from, a.cid, ext.id.value, if ext.hasNext then a.dialled else None);
    } else {
      assert StepExtend(w, from, a.cid, ext, a.dialled, a.answered).value == w.(log := log);
    }
  }

  lemma SaneLog(w: World, log: seq<Event>)
    requires Sane(w)
    ensures Sane(w.(log := log))
  {
    LogOnlyKeeps(w, log);
  }

  lemma NewEntrySane(w: World, from: ConnId, cid: CircuitId, id: Ident, down: Option<ConnId>)
    requires Sane(w) && cid !in w.table && ConnsOf(w.streams, cid) !! {from} + (if down.Some? then {down.value} else {})
    ensures Sane(w.(table := w.table[cid := NewEntry(w.streams, from, cid, id, down)]))
  {
    var e := NewEntry(w.streams, from, cid, id, down);
    assert LinksOf(e) == {from} + (if down.Some? then {down.value} else {});
    NewEntrySound(w, cid, e, w.log);
    hide SoundWorld, ConnsOf, OpenIds, NoEmptyMaps;
  }

  lemma LoopOverKeeps(z: Sizes, w: World, cid: CircuitId, sid: uint16, up: ConnId, local: ConnId)
    requires Sane(w)
    ensures Sane(LoopOver(z, w, cid, sid, up, local))
  {
    LoopOverSound(z, w, cid, sid, up, local);
    LoopOverConsistent(z, w, cid, sid, up, local);
    OpenIdsWithout(w.streams, cid, sid);
    hide WithoutStream, OpenIds, SoundWorld, Consistent, ConnOf, Send;
  }

  lemma LoopOverConsistent(z: Sizes, w: World, cid: CircuitId, sid: uint16, up: ConnId, local: ConnId)
    requires Consistent(w)
    ensures Consistent(LoopOver(z, w, cid, sid, up, local))
  {
    OpenIdsWithout(w.streams, cid, sid);
    hide WithoutStream, OpenIds, ConnOf, NoEmptyMaps, Send;
    var t := LoopOver(z, w, cid, sid, up, local);
    forall other | other in t.table
      ensures && t.table[other].hop.alive
              && t.table[other].hop.streams == OpenIds(t.streams, other)
              && t.table[other].hop.hasDown == t.table[other].down.Some?
              && (t.table[other].hop.hidden ==> t.table[other].hop.hasDown)
    {
    }
  }

  lemma LoopOverSound(z: Sizes, w: World, cid: CircuitId, sid: uint16, up: ConnId, local: ConnId)
    requires SoundWorld(w)
    ensures SoundWorld(LoopOver(z, w, cid, sid, up, local))
  {
    var t := LoopOver(z, w, cid, sid, up, local);
    hide WithoutStream, ConnsOf, ConnOf, Send;
    forall other | other in t.table
      ensures SoundEntry(t.table[other], t.streams, other)
    {
      ConnsAfter(w.streams, cid, sid, 0, other);
      assert SoundEntry(w.table[other], w.streams, other);
    }
  }

  /** Whatever cell arrives, EXTEND or not: the tables stay sane, and no other circuit's entry or streams change. */
  lemma ArriveKeeps(z: Sizes, w: World, from: ConnId, a: Arrival)
    requires Sane(w) && Admits(w, from, a)
    ensures var t := Arrive(z, w, from, a).value; Sane(t) && OthersAlone(w, t, a.cid)
  {
    hide OthersAlone, StepExtend, Step, Consistent, SoundWorld, NewConn, NoOrphans, OpenIds, ConnsOf;
    match a.what {
      case Ordinary(c) => OrdinaryKeeps(z, w, a.cid, c, a.dialled);
      case Extending(ext) =>
        ExtendKeeps(w, from, a, ext);
        ExtendAlone(w, from, a.cid, ext, a.dialled, a.answered);
    }
  }

  /** Only one circuit's entry and streams have changed. */
  ghost predicate OthersAlone(w: World, t: World, cid: CircuitId) {
    forall other :: other != cid ==>
      && (other in t.table <==> other in w.table) && (other in w.table ==> t.table[other] == w.table[other])
      && OpenIds(t.streams, other) == OpenIds(w.streams, other)
  }

  lemma OrdinaryKeeps(z: Sizes, w: World, cid: CircuitId, c: Cell, dialled: Option<ConnId>)
    requires Sane(w) && NewConn(w, cid, dialled)
    ensures var t := Step(z, w, cid, c, dialled).value; Sane(t) && OthersAlone(w, t, cid)
  {
    StepKeeps(z, w, cid, c, dialled);
    StepKeepsSound(z, w, cid, c, dialled);
    hide Step, Consistent, SoundWorld, NewConn, NoOrphans, OpenIds;
  }

  lemma ExtendAlone(w: World, from: ConnId, cid: CircuitId, ext: Extension, dialled: Option<ConnId>, answered: bool)
    ensures OthersAlone(w, StepExtend(w, from, cid, ext, dialled, answered).value, cid)
  {
    hide OpenIds, Answered, NewEntry;
  }

  /** What everything that happens at a relay keeps: cells of known and unknown circuits, EXTEND, the ends of upward loops. */
  lemma {:induction false} ServeKeeps(z: Sizes, w: World, hs: seq<Happening>)
    requires Sane(w) && DialsNew(z, w, hs)
    ensures Sane(Serve(z, w, hs))
    decreases |hs|
  {
    if hs != [] {
      match hs[0] {
        case Arrives(from, a) => ArriveKeeps(z, w, from, a);
        case LoopEnds(cid, sid, up, local) => LoopOverKeeps(z, w, cid, sid, up, local);
      }
      hide Arrive, LoopOver, Sane, Admits;
      ServeKeeps(z, Happen(z, w, hs[0]), hs[1..]);
    }
  }

  /** No reader of cells is started on a circuit's downward connection before BEGIN, CONNECT, DATA or END has come for it,
      however many EXTENDs and whatever for other circuits: till then the answers coming up are the handler's to read. */
  lemma {:induction false} UnservedUntilWoken(z: Sizes, w: World, hs: seq<Happening>, cid: CircuitId)
    requires cid in w.table ==> !w.table[cid].hop.served
    requires forall k :: 0 <= k < |hs| && hs[k].Arrives? && hs[k].a.cid == cid && hs[k].a.what.Ordinary? ==> !Wakes(hs[k].a.what.cell)
    ensures var t := Serve(z, w, hs); cid in t.table ==> !t.table[cid].hop.served
    decreases |hs|
  {
    if hs != [] {
      StillUnserved(z, w, hs[0], cid);
      hide Happen;
      UnservedUntilWoken(z, Happen(z, w, hs[0]), hs[1..], cid);
    }
  }

  lemma StillUnserved(z: Sizes, w: World, h: Happening, cid: CircuitId)
    requires cid in w.table ==> !w.table[cid].hop.served
    requires h.Arrives? && h.a.cid == cid && h.a.what.Ordinary? ==> !Wakes(h.a.what.cell)
    ensures var t := Happen(z, w, h); cid in t.table ==> !t.table[cid].hop.served
  {
    hide Handle, WithStream, WithoutStream, ConnOf, ConnsOf, OpensStream, ClosesStream, Flatten, OpenIds, Send, Answered, EnvFor, Logged;
    if h.Arrives? && h.a.what.Ordinary? && h.a.cid == cid && cid in w.table {
      Woken(z, w.table[cid].hop, h.a.what.cell, EnvFor(ViewOf(w, cid), cid, h.a.what.cell, h.a.dialled));
    }
  }

  function Outs(conn: ConnId, cid: CircuitId, cells: seq<Cell>): seq<Event> {
    seq(|cells|, i requires 0 <= i < |cells| => CellOut(conn, cid, cells[i]))
  }

  lemma OutsAppend(conn: ConnId, cid: CircuitId, cells: seq<Cell>, c: Cell)
    ensures Outs(conn, cid, cells + [c]) == Outs(conn, cid, cells) + [CellOut(conn, cid, c)]
    ensures cells + [] == cells
  {
  }

  /** The connection of a stream is one of its circuit's. */
  lemma StreamConn(streams: StreamMaps, cid: CircuitId, sid: uint16)
    ensures ConnOf(streams, cid, sid) <= ConnsOf(streams, cid)
  {
    FlatAt(streams, (cid, sid));
  }
}

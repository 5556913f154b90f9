/** The client's side of a circuit: the counters and streams it keeps, and the sending and receiving over them. */
module Circuits {
  import opened MachineInts
  import opened Nonces
  import opened Wrappers
  import opened Onion
  import opened ClientSpec
  import opened Sockets
  import opened StreamIds

  type RelayId = nat

  class Circuit {
    const id: CircuitId
    const hops: seq<RelayId>
    const conn: ConnId
    var keys: map<nat, Key>
    var baseNonces: map<nat, Nonce>
    var beginCounter: map<nat, uint64>
    var dataCounter: map<nat, uint64>
    var upstreamDataCounter: map<nat, uint64>
    /** Whether the stream is closed; a closed stream stays in the map. */
    var stream: map<uint16, bool>

    constructor (id: CircuitId, relays: seq<RelayId>, conn: ConnId,
        keys: map<nat, Key>, nonces: map<nat, Nonce>, zeros: map<nat, uint64>)
      ensures this.id == id && hops == relays && this.conn == conn && stream == map[]
      ensures this.keys == keys && baseNonces == nonces
      ensures beginCounter == zeros && dataCounter == zeros && upstreamDataCounter == zeros
    {
      this.id, hops, this.conn, stream := id, relays, conn, map[];
      this.keys, baseNonces := keys, nonces;
      beginCounter, dataCounter, upstreamDataCounter := zeros, zeros, zeros;
    }

    /** `priv` says whether there is an RSA key, which a circuit must have although nothing in the flow uses it. */
    static method NewCircuit(id: CircuitId, relays: seq<RelayId>, keys: seq<Key>, nonces: seq<Nonce>, priv: bool, conn: ConnId)
      returns (c: Option<Circuit>)
      ensures c.Some? <==> 0 < |relays| == |keys| == |nonces| && priv
      ensures c.Some? ==>
        && fresh(c.value) && c.value.Valid() && c.value.hops == relays && c.value.id == id && c.value.conn == conn
        && c.value.stream == map[]
        && var zeros := seq(|keys|, _ => 0); c.value.Value() == Client(keys, nonces, zeros, zeros, zeros)
    {
      if |relays| == 0 || |relays| != |keys| || |keys| != |nonces| {
        return None;
      }
      if !priv {
        return None;
      }
      var keyMap: map<nat, Key>, ncMap: map<nat, Nonce>, counterMap: map<nat, uint64> := map[], map[], map[];
      for i := 0 to |keys|
        invariant Full(i, keyMap) && Full(i, ncMap) && Full(i, counterMap)
        invariant forall k :: 0 <= k < i ==> keyMap[k] == keys[k] && ncMap[k] == nonces[k] && counterMap[k] == 0
      {
        keyMap, ncMap, counterMap := keyMap[i := keys[i]], ncMap[i := nonces[i]], counterMap[i := 0];
      }
      var circuit := new Circuit(id, relays, conn, keyMap, ncMap, counterMap);
      return Some(circuit);
    }

    /** Every map has an entry for every hop. */
    ghost predicate Valid()
      reads this
    {
      && Full(|hops|, keys) && Full(|hops|, baseNonces)
      && Full(|hops|, beginCounter) && Full(|hops|, dataCounter) && Full(|hops|, upstreamDataCounter)
    }

    /** The client's half of the circuit as a value. */
    ghost function Value(): (cl: Client)
      requires Valid()
      reads this
      ensures cl.Valid()
    {
      var n := |hops|;
      Client(Listed(n, keys), Listed(n, baseNonces),
             Listed(n, beginCounter), Listed(n, dataCounter), Listed(n, upstreamDataCounter))
    }

    method HopBeginNonce(idx: nat) returns (nonce: Nonce)
      requires Valid() && idx < |hops|
      modifies this`beginCounter
      ensures Valid() && nonce == CounterNonce(baseNonces[idx], old(beginCounter)[idx])
      ensures beginCounter == old(beginCounter)[idx := Inc(old(beginCounter)[idx])]
    {
      nonce := ModifyNonceWithSequence(baseNonces[idx], beginCounter[idx]);
      beginCounter := beginCounter[idx := Inc(beginCounter[idx])];
    }

    method HopDataNonce(idx: nat) returns (nonce: Nonce)
      requires Valid() && idx < |hops|
      modifies this`dataCounter
      ensures Valid() && nonce == CounterNonce(baseNonces[idx], old(dataCounter)[idx])
      ensures dataCounter == old(dataCounter)[idx := Inc(old(dataCounter)[idx])]
    {
      nonce := ModifyNonceWithSequence(baseNonces[idx], dataCounter[idx]);
      dataCounter := dataCounter[idx := Inc(dataCounter[idx])];
    }

    method HopUpstreamDataNonce(idx: nat) returns (nonce: Nonce)
      requires Valid() && idx < |hops|
      modifies this`upstreamDataCounter
      ensures Valid() && nonce == CounterNonce(baseNonces[idx], old(upstreamDataCounter)[idx])
      ensures upstreamDataCounter == old(upstreamDataCounter)[idx := Inc(old(upstreamDataCounter)[idx])]
    {
      nonce := ModifyNonceWithSequence(baseNonces[idx], upstreamDataCounter[idx]);
      upstreamDataCounter := upstreamDataCounter[idx := Inc(upstreamDataCounter[idx])];
    }

    /** A new stream takes the next id of the process-wide counter. */
    method OpenStream(counter: StreamCounter) returns (sid: uint16)
      requires counter.Valid()
      modifies this`stream, counter
      ensures counter.Valid() && counter.calls == old(counter.calls) + 1
      ensures sid == NthId(old(counter.calls)) && stream == old(stream)[sid := false]
    {
      sid := counter.NewStreamIDAuto();
      stream := stream[sid := false];
    }

    method CloseStream(sid: uint16)
      modifies this`stream
      ensures stream == if sid in old(stream) then old(stream)[sid := true] else old(stream)
    {
      if sid in stream {
        stream := stream[sid := true];
      }
    }

    ghost function Active(): set<uint16>
      reads this
    {
      set sid | sid in stream && !stream[sid]
    }

    /** The open streams, each once, in the order the map happens to give. */
    method ActiveStreams() returns (out: seq<uint16>)
      ensures forall sid :: sid in out <==> sid in Active()
      ensures forall i, j :: 0 <= i < j < |out| ==> out[i] != out[j]
    {
      out := [];
      var rest := stream.Keys;
      while rest != {}
        invariant rest <= stream.Keys
        invariant forall sid :: sid in out <==> sid in Active() && sid !in rest
        invariant forall i, j :: 0 <= i < j < |out| ==> out[i] != out[j]
        decreases rest
      {
        var sid :| sid in rest;
        if !stream[sid] {
          out := out + [sid];
        }
        rest := rest - {sid};
      }
    }
  }

  ghost predicate Full<T>(n: nat, m: map<nat, T>) {
    forall i: nat :: i in m <==> i < n
  }

  function Listed<T>(n: nat, m: map<nat, T>): seq<T>
    requires forall i :: 0 <= i < n ==> i in m
  {
    seq(n, i requires 0 <= i < n => m[i])
  }
}

module ClientUseCases {
  import opened MachineInts
  import opened Nonces
  import opened Wrappers
  import opened Onion
  import opened RelaySpec
  import opened ClientSpec
  import opened Sockets
  import opened Circuits

  datatype SendCmd = SendsData | SendsBegin | SendsOther

  class ClientNode {
    const z: Sizes
    const net: Network

    constructor (z: Sizes, net: Network)
      ensures this.z == z && this.net == net
    {
      this.z, this.net := z, net;
    }

    /** The next nonce of every hop for BEGIN and CONNECT. */
    method TakeBeginNonces(cir: Circuit) returns (keys: seq<Key>, nonces: seq<Nonce>)
      requires cir.Valid()
      modifies cir`beginCounter
      ensures cir.Valid()
      ensures var was := old(cir.Value());
        keys == was.keys && nonces == NoncesAt(was.bases, was.begin) && cir.Value() == was.(begin := Bump(was.begin))
    {
      hide CounterNonce, Inc;
      keys, nonces := [], [];
      ghost var was := cir.Value();
      for i := 0 to |cir.hops|
        invariant cir.Valid()
        invariant keys == was.keys[..i] && nonces == NoncesAt(was.bases, was.begin)[..i]
        invariant forall k :: 0 <= k < |cir.hops| ==> cir.beginCounter[k] == if k < i then Inc(was.begin[k]) else was.begin[k]
      {
        keys := keys + [cir.keys[i]];
        var nonce := cir.HopBeginNonce(i);
        nonces := nonces + [nonce];
      }
      assert cir.Value().begin == Bump(was.begin);
    }

    /** The next nonce of every hop for DATA. */
    method TakeDataNonces(cir: Circuit) returns (keys: seq<Key>, nonces: seq<Nonce>)
      requires cir.Valid()
      modifies cir`dataCounter
      ensures cir.Valid()
      ensures var was := old(cir.Value());
        keys == was.keys && nonces == NoncesAt(was.bases, was.data) && cir.Value() == was.(data := Bump(was.data))
    {
      hide CounterNonce, Inc;
      keys, nonces := [], [];
      ghost var was := cir.Value();
      for i := 0 to |cir.hops|
        invariant cir.Valid()
        invariant keys == was.keys[..i] && nonces == NoncesAt(was.bases, was.data)[..i]
        invariant forall k :: 0 <= k < |cir.hops| ==> cir.dataCounter[k] == if k < i then Inc(was.data[k]) else was.data[k]
      {
        keys := keys + [cir.keys[i]];
        var nonce := cir.HopDataNonce(i);
        nonces := nonces + [nonce];
      }
      assert cir.Value().data == Bump(was.data);
    }

    /** DATA or BEGIN on an open stream. Nothing moves for a stream that is not open; the counters move even if the cell
        is then refused. */
    method Send(cir: Circuit, sid: uint16, cmd: SendCmd, plain: Msg) returns (ok: bool)
      requires cir.Valid()
      modifies cir`beginCounter, cir`dataCounter, net`log
      ensures cir.Valid()
      ensures var was := old(cir.Value());
        if sid == 0 || sid !in cir.Active() then !ok && cir.Value() == was && net.log == old(net.log)
        else
          var o := SendSpec(z, was, sid, cmd, plain);
          && cir.Value() == o.client
          && ok == (o.cell.Some? && cir.conn !in net.closed)
          && net.log == if ok then old(net.log) + [CellOut(cir.conn, cir.id, o.cell.value)] else old(net.log)
    {
      if sid == 0 {
        return false;
      }
      var streams := cir.ActiveStreams();
      var active := false;
      for k := 0 to |streams|
        invariant active <==> sid in streams[..k]
      {
        if streams[k] == sid {
          active := true;
        }
      }
      assert streams[..|streams|] == streams;
      if !active {
        return false;
      }
      var keys, nonces;
      if cmd == SendsBegin {
        keys, nonces := TakeBeginNonces(cir);
      } else {
        keys, nonces := TakeDataNonces(cir);
      }
      hide NoncesAt, Bump;
      var enc := AESMultiSeal(keys, nonces, Plain(plain));
      if enc == None {
        return false;
      }
      match cmd
      case SendsData => ok := net.ForwardCell(z, cir.conn, cir.id, Data(sid, enc.value));
      case SendsBegin => ok := net.ForwardCell(z, cir.conn, cir.id, Begin(enc.value));
      case SendsOther => ok := false;
    }

    method Connect(cir: Circuit, target: string) returns (ok: bool)
      requires cir.Valid()
      modifies cir`beginCounter, net`log
      ensures cir.Valid()
      ensures var o := SendRequest(z, old(cir.Value()), ConnectMsg(target));
        && cir.Value() == o.client
        && ok == (o.cell.Some? && cir.conn !in net.closed)
        && net.log == if ok then old(net.log) + [CellOut(cir.conn, cir.id, o.cell.value)] else old(net.log)
    {
      var payload := Raw([]);
      if target != "" {
        payload := ConnectDto(target);
      }
      var keys, nonces := TakeBeginNonces(cir);
      hide NoncesAt, Bump;
      var enc := AESMultiSeal(keys, nonces, Plain(payload));
      if enc == None {
        return false;
      }
      ok := net.ForwardCell(z, cir.conn, cir.id, Cell.Connect(enc.value));
    }

    /** Closes a stream: END for it, and with the last open one the control END. */
    method CloseStream(cir: Circuit, sid: uint16) returns (ok: bool)
      requires z.Valid()
      modifies cir`stream, net`log
      ensures sid == 0 ==> !ok && cir.stream == old(cir.stream) && net.log == old(net.log)
      ensures sid != 0 ==>
        && cir.Active() == old(cir.Active()) - {sid}
        && ok == (cir.conn !in net.closed)
        && net.log == if !ok then old(net.log)
                      else if cir.Active() == {} then old(net.log) + [CellOut(cir.conn, cir.id, End(sid)), CellOut(cir.conn, cir.id, End(0))]
                      else old(net.log) + [CellOut(cir.conn, cir.id, End(sid))]
    {
      if sid == 0 {
        return false;
      }
      cir.CloseStream(sid);
      ok := net.ForwardCell(z, cir.conn, cir.id, End(sid));
      if !ok {
        return;
      }
      var active := cir.ActiveStreams();
      if |active| == 0 {
        assert cir.Active() == {};
        ok := net.ForwardCell(z, cir.conn, cir.id, End(0));
      } else {
        assert active[0] in cir.Active();
      }
    }

    /** Takes the layers off hop by hop, each with the hop's next upward nonce. */
    method DecryptOnionLayers(cir: Circuit, enc: Blob) returns (plain: Option<Blob>)
      requires cir.Valid()
      modifies cir`upstreamDataCounter
      ensures cir.Valid() && (cir.Value(), plain) == Decrypt(old(cir.Value()), enc)
    {
      hide CounterNonce, Inc;
      ghost var was := cir.Value();
      var data := enc;
      for hop := 0 to |cir.hops|
        invariant cir.Valid() && cir.Value() == was.(up := cir.Value().up)
        invariant OpenFrom(was.keys, was.bases, was.up, 0, enc) == OpenFrom(was.keys, was.bases, cir.Value().up, hop, data)
      {
        ghost var before := cir.Value().up;
        var nonce := cir.HopUpstreamDataNonce(hop);
        assert cir.Value().up == before[hop := Inc(before[hop])];
        var decrypted := AESOpen(cir.keys[hop], nonce, data);
        if decrypted == None {
          return None;
        }
        data := decrypted.value;
      }
      return Some(data);
    }
  }

  /** What one call of the sending use case does to an active stream's circuit. */
  function SendSpec(z: Sizes, cl: Client, sid: uint16, cmd: SendCmd, m: Msg): Outcome
    requires cl.Valid()
  {
    match cmd
    case SendsData => SendData(z, cl, sid, m)
    case SendsBegin => SendSealed(z, cl, true, m)
    case SendsOther => SendData(z, cl, sid, m).(cell := None)
  }

  /** A request draws on the begin counters and nothing else: each moves by one, no other counter moves, and the cell, if it fits,
      is the onion under the counters as they were. DATA draws on the data counters in the same way. A command that is neither
      costs a data counter and sends nothing. */
  lemma SendDraws(z: Sizes, cl: Client, sid: uint16, cmd: SendCmd, m: Msg)
    requires cl.Valid()
    ensures var o, size := SendSpec(z, cl, sid, cmd, m), BlobLen(z, Plain(m)) + 16 * |cl.keys|;
      match cmd
      case SendsBegin =>
        && o.client == cl.(begin := o.client.begin) && EachMoved(cl.begin, o.client.begin)
        && (o.cell.Some? <==> size <= 508)
        && (o.cell.Some? ==> o.cell.value.Begin? && IsOnion(cl.keys, cl.bases, cl.begin, m, o.cell.value.request))
      case SendsData =>
        && o.client == cl.(data := o.client.data) && EachMoved(cl.data, o.client.data)
        && (o.cell.Some? <==> z.data(sid, size) <= 508)
        && (o.cell.Some? ==> o.cell.value.Data? && o.cell.value.sid == sid && IsOnion(cl.keys, cl.bases, cl.data, m, o.cell.value.blob))
      case SendsOther => o.client == cl.(data := o.client.data) && EachMoved(cl.data, o.client.data) && o.cell == None
  {
    SealedLength(z, cl.keys, NoncesAt(cl.bases, cl.begin), Plain(m));
    SealedLength(z, cl.keys, NoncesAt(cl.bases, cl.data), Plain(m));
    SealIsOnion(cl.keys, cl.bases, cl.begin, m);
    SealIsOnion(cl.keys, cl.bases, cl.data, m);
    hide SealLayers, NoncesAt, IsOnion;
  }

  /** CONNECT draws on the begin counters too. What is sealed is the encoded target, or nothing at all if there is none. */
  lemma ConnectDraws(z: Sizes, cl: Client, target: string)
    requires cl.Valid()
    ensures var o, m := SendRequest(z, cl, ConnectMsg(target)), if target == [] then Raw([]) else ConnectDto(target);
      && o.client == cl.(begin := o.client.begin) && EachMoved(cl.begin, o.client.begin)
      && (o.cell.Some? <==> BlobLen(z, Plain(m)) + 16 * |cl.keys| <= 508)
      && (o.cell.Some? ==> o.cell.value.Connect? && IsOnion(cl.keys, cl.bases, cl.begin, m, o.cell.value.request))
  {
    SealedLength(z, cl.keys, NoncesAt(cl.bases, cl.begin), Plain(ConnectMsg(target)));
    SealIsOnion(cl.keys, cl.bases, cl.begin, ConnectMsg(target));
    hide SealLayers, NoncesAt, IsOnion;
  }
}

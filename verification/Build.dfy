/** The key exchange, symbolically: a commutative shared secret, and a key and base nonce derived from it. */
module KeyExchange {
  import opened Wrappers
  import opened Onion

  type Secret = nat
  type Pub = nat
  type Shared = nat

  /** The public key of a secret, the shared secret (refused for some public keys), and the derivation. */
  datatype Kex = Kex(pub: Secret -> Pub, shared: (Secret, Pub) -> Option<Shared>, derive: Shared -> Ident)
  {
    ghost predicate Valid() {
      forall a, b :: shared(a, pub(b)) == shared(b, pub(a))
    }

    /** What a relay ends up with, having drawn `relay` and been sent the public key of `client`. */
    function Agreed(client: Secret, relay: Secret): Option<Ident> {
      match shared(relay, pub(client))
      case None => None
      case Some(secret) => Some(derive(secret))
    }
  }
}

/** Building a circuit: one EXTEND for each hop, handed on by the relays that know the circuit, answered by the first that
    does not. */
module CircuitBuild {
  import opened MachineInts
  import opened Nonces
  import opened Wrappers
  import opened Onion
  import opened RelaySpec
  import opened ClientSpec
  import opened Sockets
  import opened KeyExchange
  import opened Circuits

  type Addr = nat

  /** One circuit at one relay: its state, and the relay its downward connection leads to. */
  datatype Link = Link(hop: Hop, next: Option<Addr>)

  /** The tables of all relays, by address. */
  type Tables = map<Addr, map<CircuitId, Link>>

  datatype Extension = Extension(next: Option<Addr>, clientPub: Pub)

  /** What chance and the network contribute to one hop. */
  datatype Draw = Draw(client: Secret, relay: Secret, dialOk: bool)

  function Put(w: Tables, r: Addr, cid: CircuitId, link: Link): Tables
    requires r in w
  {
    var table: map<CircuitId, Link> := w[r];
    w[r := table[cid := link]]
  }

  /** A relay that does not know the circuit: it dials the next hop, stores its state, and answers with its public key. */
  function Extend(k: Kex, w: Tables, r: Addr, cid: CircuitId, ext: Extension, d: Draw): (Tables, Option<Pub>)
    requires r in w
  {
    match k.shared(d.relay, ext.clientPub)
    case None => (w, None)
    case Some(secret) =>
      if ext.next.Some? && (ext.next.value !in w || !d.dialOk) then (w, None)
      else
        var id := k.derive(secret);
        (Put(w, r, cid, Link(FreshHop(id.key, id.base, ext.next.Some?), ext.next)), Some(k.pub(d.relay)))
  }

  /** EXTEND arriving at relay `r`. The client waits only so long: after `patience` hops nobody listens any more. */
  function Answer(k: Kex, w: Tables, r: Addr, cid: CircuitId, ext: Extension, d: Draw, patience: nat): (Tables, Option<Pub>)
    decreases patience
  {
    if patience == 0 || r !in w then (w, None)
    else if cid !in w[r] then Extend(k, w, r, cid, ext, d)
    else match w[r][cid].next
      case None => (w, None)
      case Some(down) => Answer(k, w, down, cid, ext, d, patience - 1)
  }

  /** The hop after position `i`, if there is one. */
  function NextOf(path: seq<Addr>, i: nat): Option<Addr> {
    if i + 1 < |path| then Some(path[i + 1]) else None
  }

  /** One round for hop `i`: the tables after it, and the key and base nonce the client derives, unless the round fails. */
  function Round(k: Kex, w: Tables, path: seq<Addr>, cid: CircuitId, d: Draw, patience: nat, i: nat): (Tables, Option<Ident>)
    requires i < |path|
  {
    var answer := Answer(k, w, path[0], cid, Extension(NextOf(path, i), k.pub(d.client)), d, patience);
    match answer.1
    case None => (answer.0, None)
    case Some(relayPub) =>
      match k.shared(d.client, relayPub)
      case None => (answer.0, None)
      case Some(secret) => (answer.0, Some(k.derive(secret)))
  }

  /** The tables after `i` rounds, and the keys and base nonces the client has by then, unless a round failed. */
  function Built(k: Kex, w: Tables, path: seq<Addr>, cid: CircuitId, draws: seq<Draw>, patience: nat, i: nat)
    : (Tables, Option<Path>)
    requires i <= |path| == |draws|
  {
    if i == 0 then (w, Some([])) else
    var before := Built(k, w, path, cid, draws, patience, i - 1);
    if before.1 == None then before else
    var r := Round(k, before.0, path, cid, draws[i - 1], patience, i - 1);
    (r.0, if r.1 == None then None else Some(before.1.value + [r.1.value]))
  }

  // ---- the same, step by step ----

  class RelayMesh {
    const k: Kex
    var tables: Tables

    constructor (k: Kex, tables: Tables)
      ensures this.k == k && this.tables == tables
    {
      this.k, this.tables := k, tables;
    }

    method HandleNew(r: Addr, cid: CircuitId, ext: Extension, d: Draw) returns (created: Option<Pub>)
      requires r in tables
      modifies this
      ensures (tables, created) == Extend(k, old(tables), r, cid, ext, d)
    {
      var secret := k.shared(d.relay, ext.clientPub);
      if secret == None {
        return None;
      }
      var id := k.derive(secret.value);
      if ext.next.Some? {
        if ext.next.value !in tables || !d.dialOk {
          return None;
        }
      }
      tables := Put(tables, r, cid, Link(FreshHop(id.key, id.base, ext.next.Some?), ext.next));
      return Some(k.pub(d.relay));
    }

    /** A relay that knows the circuit sends the cell on, waits for the answer below, and passes it up. */
    method HandleExtend(r: Addr, cid: CircuitId, ext: Extension, d: Draw, patience: nat) returns (created: Option<Pub>)
      modifies this
      ensures (tables, created) == Answer(k, old(tables), r, cid, ext, d, patience)
      decreases patience
    {
      if patience == 0 || r !in tables {
        return None;
      }
      if cid !in tables[r] {
        created := HandleNew(r, cid, ext, d);
        return;
      }
      var down := tables[r][cid].next;
      if down == None {
        return None;
      }
      created := HandleExtend(down.value, cid, ext, d, patience - 1);
    }

    /** One round of the client: a key pair, EXTEND to the first relay, and the shared secret from the answer. */
    method ExtendTo(path: seq<Addr>, cid: CircuitId, d: Draw, patience: nat, i: nat) returns (id: Option<Ident>)
      requires i < |path|
      modifies this
      ensures (tables, id) == Round(k, old(tables), path, cid, d, patience, i)
    {
      var next := None;
      if i + 1 < |path| {
        next := Some(path[i + 1]);
      }
      var created := HandleExtend(path[0], cid, Extension(next, k.pub(d.client)), d, patience);
      if created == None {
        return None;
      }
      var secret := k.shared(d.client, created.value);
      if secret == None {
        return None;
      }
      return Some(k.derive(secret.value));
    }

    /** The client's rounds: with an RSA key and a connection to the first relay it extends hop by hop and saves the circuit.
        On a failure after the connection stands it hangs up, that is it writes a teardown and closes its link, and leaves the
        relays as they are. */
    method Build(path: seq<Addr>, cid: CircuitId, draws: seq<Draw>, priv: bool, connected: bool, conn: ConnId, saved: bool,
        patience: nat) returns (cir: Option<Circuit>, hungUp: bool)
      requires 0 < |path| == |draws|
      modifies this
      ensures !priv || !connected ==> cir == None && !hungUp && tables == old(tables)
      ensures priv && connected ==> var b := Built(k, old(tables), path, cid, draws, patience, |path|);
        && tables == b.0
        && cir.Some? == (b.1.Some? && saved) && hungUp == (cir == None)
        && (cir.Some? ==>
              && cir.value.Valid() && cir.value.id == cid && cir.value.hops == path && cir.value.conn == conn
              && cir.value.stream == map[] && cir.value.Value() == FreshClient(b.1.value))
    {
      hide Built, Round, NoncesAt;
      if !priv {
        return None, false;
      }
      if !connected {
        return None, false;
      }
      var hops := |path|;
      var keys, nonces := new Key[hops], new Nonce[hops];
      ghost var w, ids: Path := tables, [];
      var i := 0;
      NoRounds(k, w, path, cid, draws, patience);
      while i < hops
        invariant 0 <= i <= hops == |path|
        invariant Built(k, w, path, cid, draws, patience, i) == (tables, Some(ids))
        invariant |ids| == i && forall j :: 0 <= j < i ==> keys[j] == ids[j].key && nonces[j] == ids[j].base
      {
        NextRound(k, w, path, cid, draws, patience, i);
        var agreed := ExtendTo(path, cid, draws[i], patience, i);
        if agreed == None {
          StaysFailed(k, w, path, cid, draws, patience, i + 1, |path|);
          return None, true;
        }
        var id := agreed.value;
        keys[i], nonces[i] := id.key, id.base;
        ids := ids + [id];
        i := i + 1;
      }
      assert keys[..] == Keys(ids) && nonces[..] == Bases(ids);
      cir := Circuit.NewCircuit(cid, path, keys[..], nonces[..], priv, conn);
      if !saved {
        return None, true;
      }
      return cir, false;
    }
  }

  lemma NoRounds(k: Kex, w: Tables, path: seq<Addr>, cid: CircuitId, draws: seq<Draw>, patience: nat)
    requires |path| == |draws|
    ensures Built(k, w, path, cid, draws, patience, 0) == (w, Some([]))
  {
  }

  lemma NextRound(k: Kex, w: Tables, path: seq<Addr>, cid: CircuitId, draws: seq<Draw>, patience: nat, i: nat)
    requires i < |path| == |draws| && Built(k, w, path, cid, draws, patience, i).1.Some?
    ensures var b := Built(k, w, path, cid, draws, patience, i); var r := Round(k, b.0, path, cid, draws[i], patience, i);
      Built(k, w, path, cid, draws, patience, i + 1) == (r.0, if r.1 == None then None else Some(b.1.value + [r.1.value]))
  {
  }

  lemma {:induction false} StaysFailed(k: Kex, w: Tables, path: seq<Addr>, cid: CircuitId, draws: seq<Draw>,
      patience: nat, i: nat, n: nat)
    requires i <= n <= |path| == |draws| && Built(k, w, path, cid, draws, patience, i).1 == None
    ensures Built(k, w, path, cid, draws, patience, n) == Built(k, w, path, cid, draws, patience, i)
  {
    if i < n {
      StaysFailed(k, w, path, cid, draws, patience, i, n - 1);
    }
  }

  // ---- what a build leaves behind ----

  /** The first `i` relays of the path are different relays. */
  ghost predicate Distinct(path: seq<Addr>, i: nat)
    requires i <= |path|
  {
    forall a, b :: 0 <= a < b < i ==> path[a] != path[b]
  }

  /** Every relay of the path is up, and none has seen the circuit id. */
  ghost predicate FreshId(w: Tables, path: seq<Addr>, cid: CircuitId) {
    forall j :: 0 <= j < |path| ==> path[j] in w && cid !in w[path[j]]
  }

  /** What relay `j` of the path should hold. */
  function LinkOf(path: seq<Addr>, ids: Path, j: nat): Link
    requires j < |ids|
  {
    Link(FreshHop(ids[j].key, ids[j].base, j + 1 < |path|), NextOf(path, j))
  }

  /** Relay `j` holds the circuit, with the client's key and base nonce, linked to the next relay. */
  ghost predicate HoldsAt(t: Tables, path: seq<Addr>, cid: CircuitId, ids: Path, j: nat)
    requires j < |path|
  {
    j < |ids| && path[j] in t && cid in t[path[j]] && t[path[j]][cid] == LinkOf(path, ids, j)
  }

  ghost predicate Among(path: seq<Addr>, i: nat, r: Addr)
    requires i <= |path|
  {
    exists j :: 0 <= j < i && path[j] == r
  }

  /** Nothing but the circuit's entries at the first `i` relays has changed. */
  ghost predicate OnlyThese(w: Tables, t: Tables, path: seq<Addr>, cid: CircuitId, i: nat)
    requires i <= |path|
  {
    && t.Keys == w.Keys
    && forall r, c :: r in w && (c != cid || !Among(path, i, r)) ==>
         (c in t[r] <==> c in w[r]) && (c in w[r] ==> t[r][c] == w[r][c])
  }

  ghost predicate Holds(w: Tables, t: Tables, path: seq<Addr>, cid: CircuitId, ids: Path, i: nat)
    requires i <= |path|
  {
    |ids| == i && (forall j :: 0 <= j < i ==> HoldsAt(t, path, cid, ids, j)) && OnlyThese(w, t, path, cid, i)
  }

  /** EXTEND is handed from relay to relay down to the first that does not know the circuit. */
  lemma {:induction false} HandedOn(k: Kex, t: Tables, path: seq<Addr>, cid: CircuitId, ids: Path, i: nat, m: nat,
      ext: Extension, d: Draw, patience: nat)
    requires m <= i < |path| && (forall j :: 0 <= j < i ==> HoldsAt(t, path, cid, ids, j)) && i - m < patience
    requires path[i] in t && cid !in t[path[i]]
    ensures Answer(k, t, path[m], cid, ext, d, patience) == Extend(k, t, path[i], cid, ext, d)
    decreases i - m
  {
    hide Extend;
    if m < i {
      assert HoldsAt(t, path, cid, ids, m);
      HandedOn(k, t, path, cid, ids, i, m + 1, ext, d, patience - 1);
    }
  }

  /** Whether round `j` can succeed: a shared secret exists, and the next hop takes the call. */
  ghost predicate Lucky(k: Kex, path: seq<Addr>, d: Draw, j: nat) {
    k.Agreed(d.client, d.relay).Some? && (j + 1 < |path| ==> d.dialOk)
  }

  /** A round changes one relay, the first that does not know the circuit, and leaves it and the client agreed. */
  lemma RoundExtends(k: Kex, w: Tables, t: Tables, path: seq<Addr>, cid: CircuitId, d: Draw, patience: nat, ids: Path, i: nat)
    requires k.Valid() && i < |path| <= patience && FreshId(w, path, cid)
    requires Distinct(path, i + 1) && Holds(w, t, path, cid, ids, i)
    ensures path[i] in t && |ids| == i
    ensures Round(k, t, path, cid, d, patience, i) ==
      if Lucky(k, path, d, i) then
        var id := k.Agreed(d.client, d.relay).value;
        (Put(t, path[i], cid, LinkOf(path, ids + [id], i)), Some(id))
      else (t, None)
  {
    assert path[i] in t && cid !in t[path[i]] && (i + 1 < |path| ==> path[i + 1] in t);
    hide Distinct, FreshId, OnlyThese;
    HandedOn(k, t, path, cid, ids, i, 0, Extension(NextOf(path, i), k.pub(d.client)), d, patience);
    assert k.shared(d.client, k.pub(d.relay)) == k.shared(d.relay, k.pub(d.client));
    hide Answer, Put, HoldsAt;
  }

  lemma PutHolds(w: Tables, t: Tables, path: seq<Addr>, cid: CircuitId, ids: Path, i: nat, id: Ident)
    requires i < |path| && path[i] in t && Distinct(path, i + 1) && Holds(w, t, path, cid, ids, i)
    ensures Holds(w, Put(t, path[i], cid, LinkOf(path, ids + [id], i)), path, cid, ids + [id], i + 1)
  {
    var t1 := Put(t, path[i], cid, LinkOf(path, ids + [id], i));
    forall j | 0 <= j < i
      ensures HoldsAt(t1, path, cid, ids + [id], j)
    {
      assert HoldsAt(t, path, cid, ids, j);
    }
    PutElsewhere(w, t, path, cid, i, LinkOf(path, ids + [id], i));
  }

  lemma PutElsewhere(w: Tables, t: Tables, path: seq<Addr>, cid: CircuitId, i: nat, link: Link)
    requires i < |path| && path[i] in t && OnlyThese(w, t, path, cid, i)
    ensures OnlyThese(w, Put(t, path[i], cid, link), path, cid, i + 1)
  {
    var t1 := Put(t, path[i], cid, link);
    forall r, c | r in w && (c != cid || !Among(path, i + 1, r))
      ensures (c in t1[r] <==> c in w[r]) && (c in w[r] ==> t1[r][c] == w[r][c])
    {
      if c == cid {
        assert path[i] != r;
        assert !Among(path, i, r);
      }
    }
  }

  /** Chance allows the first `i` rounds. */
  ghost predicate LuckyTo(k: Kex, path: seq<Addr>, draws: seq<Draw>, i: nat)
    requires i <= |draws|
  {
    forall j :: 0 <= j < i ==> Lucky(k, path, draws[j], j)
  }

  /** The client's keys and base nonces are those the relays derived. */
  ghost predicate Agree(k: Kex, ids: Path, draws: seq<Draw>) {
    |ids| <= |draws| && forall j :: 0 <= j < |ids| ==> Some(ids[j]) == k.Agreed(draws[j].client, draws[j].relay)
  }

  /** Round by round: as long as the path has not come back to a relay, round `i` succeeds exactly if chance allows, and
      then every relay so far shares its key and base nonce with the client and leads to the next. */
  lemma {:induction false} BuildHolds(k: Kex, w: Tables, path: seq<Addr>, cid: CircuitId, draws: seq<Draw>, patience: nat, i: nat)
    requires k.Valid() && i <= |path| == |draws| <= patience && FreshId(w, path, cid) && Distinct(path, i)
    ensures var b := Built(k, w, path, cid, draws, patience, i);
      && (b.1.Some? <==> LuckyTo(k, path, draws, i))
      && (b.1.Some? ==> Holds(w, b.0, path, cid, b.1.value, i) && Agree(k, b.1.value, draws))
    decreases i
  {
    if i > 0 {
      assert Distinct(path, i - 1);
      assert LuckyTo(k, path, draws, i) <==> LuckyTo(k, path, draws, i - 1) && Lucky(k, path, draws[i - 1], i - 1);
      hide Round, Holds, Put, LinkOf, Distinct, FreshId, Lucky, LuckyTo, Agree;
      BuildHolds(k, w, path, cid, draws, patience, i - 1);
      var b, d := Built(k, w, path, cid, draws, patience, i - 1), draws[i - 1];
      if b.1.Some? {
        RoundExtends(k, w, b.0, path, cid, d, patience, b.1.value, i - 1);
        if Lucky(k, path, d, i - 1) {
          var id := LuckyAgrees(k, path, d, i - 1);
          PutHolds(w, b.0, path, cid, b.1.value, i - 1, id);
          AgreeMore(k, b.1.value, draws, id);
        }
      }
    }
  }

  lemma AgreeMore(k: Kex, ids: Path, draws: seq<Draw>, id: Ident)
    requires Agree(k, ids, draws) && |ids| < |draws| && Some(id) == k.Agreed(draws[|ids|].client, draws[|ids|].relay)
    ensures Agree(k, ids + [id], draws)
  {
  }

  lemma LuckyAgrees(k: Kex, path: seq<Addr>, d: Draw, j: nat) returns (id: Ident)
    requires Lucky(k, path, d, j)
    ensures k.Agreed(d.client, d.relay) == Some(id)
  {
    id := k.Agreed(d.client, d.relay).value;
  }

  /** A path that comes back to a relay: EXTEND goes round in a circle, and nobody answers. */
  lemma {:induction false} GoesRound(k: Kex, t: Tables, path: seq<Addr>, cid: CircuitId, ids: Path, i: nat, m: nat,
      ext: Extension, d: Draw, patience: nat)
    requires m < i < |path| && (forall j :: 0 <= j < i ==> HoldsAt(t, path, cid, ids, j)) && Among(path, i, path[i])
    ensures Answer(k, t, path[m], cid, ext, d, patience) == (t, None)
    decreases patience
  {
    if patience > 0 {
      assert HoldsAt(t, path, cid, ids, m);
      var back := m + 1;
      if back == i {
        back :| 0 <= back < i && path[back] == path[i];
      }
      GoesRound(k, t, path, cid, ids, i, back, ext, d, patience - 1);
    }
  }

  lemma FirstRepeat(path: seq<Addr>) returns (i: nat)
    requires !Distinct(path, |path|)
    ensures 0 < i < |path| && Distinct(path, i) && Among(path, i, path[i])
  {
    var a, b :| 0 <= a < b < |path| && path[a] == path[b];
    i := 1;
    while !Among(path, i, path[i])
      invariant 0 < i <= b && Distinct(path, i)
      decreases |path| - i
    {
      i := i + 1;
    }
  }

  lemma RepeatFails(k: Kex, w: Tables, path: seq<Addr>, cid: CircuitId, draws: seq<Draw>, patience: nat)
    requires k.Valid() && 0 < |path| == |draws| <= patience && FreshId(w, path, cid) && !Distinct(path, |path|)
    ensures Built(k, w, path, cid, draws, patience, |path|).1 == None
  {
    var i := FirstRepeat(path);
    BuildHolds(k, w, path, cid, draws, patience, i);
    hide Distinct, FreshId, LuckyTo, LinkOf, HoldsAt, Among, OnlyThese, Answer, Agree;
    var b, d := Built(k, w, path, cid, draws, patience, i), draws[i];
    if b.1.Some? {
      GoesRound(k, b.0, path, cid, b.1.value, i, 0, Extension(NextOf(path, i), k.pub(d.client)), d, patience);
    }
    assert Built(k, w, path, cid, draws, patience, i + 1).1 == None;
    StaysFailed(k, w, path, cid, draws, patience, i + 1, |path|);
  }

  /** A fresh id on live relays: the build succeeds exactly if chance allows it at every hop and no relay comes twice. */
  lemma BuildSucceedsIff(k: Kex, w: Tables, path: seq<Addr>, cid: CircuitId, draws: seq<Draw>, patience: nat)
    requires k.Valid() && 0 < |path| == |draws| <= patience && FreshId(w, path, cid)
    ensures Built(k, w, path, cid, draws, patience, |path|).1.Some?
       <==> Distinct(path, |path|) && LuckyTo(k, path, draws, |path|)
  {
    hide Distinct, Holds, LuckyTo, FreshId, Built, Agree;
    if Distinct(path, |path|) {
      BuildHolds(k, w, path, cid, draws, patience, |path|);
    } else {
      RepeatFails(k, w, path, cid, draws, patience);
    }
  }

  /** After a successful build the client and the relays are exactly where the runs of a circuit start. */
  lemma BuildLeavesFresh(k: Kex, w: Tables, path: seq<Addr>, cid: CircuitId, draws: seq<Draw>, patience: nat, j: nat)
    requires k.Valid() && 0 < |path| == |draws| <= patience && FreshId(w, path, cid)
    requires Built(k, w, path, cid, draws, patience, |path|).1.Some? && j < |path|
    ensures var b := Built(k, w, path, cid, draws, patience, |path|); var ids := b.1.value;
      && |ids| == |path| && HoldsAt(b.0, path, cid, ids, j) && OnlyThese(w, b.0, path, cid, |path|)
      && Some(ids[j]) == k.Agreed(draws[j].client, draws[j].relay)
  {
    hide Distinct, HoldsAt, LuckyTo, FreshId, Built, OnlyThese;
    BuildSucceedsIff(k, w, path, cid, draws, patience);
    BuildHolds(k, w, path, cid, draws, patience, |path|);
  }

  /** The round that chance does not allow fails, and changes nothing. */
  lemma RoundFails(k: Kex, w: Tables, path: seq<Addr>, cid: CircuitId, draws: seq<Draw>, patience: nat, i: nat)
    requires k.Valid() && i < |path| == |draws| <= patience && FreshId(w, path, cid) && Distinct(path, |path|)
    requires LuckyTo(k, path, draws, i) && !Lucky(k, path, draws[i], i)
    ensures var b := Built(k, w, path, cid, draws, patience, i);
      && b.1.Some? && Holds(w, b.0, path, cid, b.1.value, i)
      && Built(k, w, path, cid, draws, patience, i + 1) == (b.0, None)
  {
    assert Distinct(path, i) && Distinct(path, i + 1);
    hide Answer, Agree, Lucky, LuckyTo, Put, LinkOf, FreshId, Distinct, Round, Holds, Built;
    BuildHolds(k, w, path, cid, draws, patience, i);
    var b := Built(k, w, path, cid, draws, patience, i);
    RoundExtends(k, w, b.0, path, cid, draws[i], patience, b.1.value, i);
    NextRound(k, w, path, cid, draws, patience, i);
  }

  /** A failed build leaves the circuit at the relays it had reached: the client only hangs up. */
  lemma FailureLeavesPrefix(k: Kex, w: Tables, path: seq<Addr>, cid: CircuitId, draws: seq<Draw>, patience: nat, i: nat)
    requires k.Valid() && i < |path| == |draws| <= patience && FreshId(w, path, cid) && Distinct(path, |path|)
    requires LuckyTo(k, path, draws, i) && !Lucky(k, path, draws[i], i)
    ensures var t := Built(k, w, path, cid, draws, patience, |path|).0;
      forall j :: 0 <= j < |path| ==> path[j] in t && (cid in t[path[j]] <==> j < i)
  {
    hide Built, Lucky, LuckyTo, FreshId, Distinct, Holds;
    RoundFails(k, w, path, cid, draws, patience, i);
    StaysFailed(k, w, path, cid, draws, patience, i + 1, |path|);
    var b := Built(k, w, path, cid, draws, patience, i);
    HeldSoFar(w, b.0, path, cid, b.1.value, i);
  }

  /** The relays up to `i` know the circuit, the others do not. */
  lemma HeldSoFar(w: Tables, t: Tables, path: seq<Addr>, cid: CircuitId, ids: Path, i: nat)
    requires i < |path| && Holds(w, t, path, cid, ids, i) && FreshId(w, path, cid) && Distinct(path, |path|)
    ensures forall j :: 0 <= j < |path| ==> path[j] in t && (cid in t[path[j]] <==> j < i)
  {
    forall j | 0 <= j < |path|
      ensures path[j] in t && (cid in t[path[j]] <==> j < i)
    {
      if j < i {
        assert HoldsAt(t, path, cid, ids, j);
      } else {
        assert !Among(path, i, path[j]);
      }
    }
  }
}

/** A build ends where the runs of a circuit begin. */
module BuiltChain {
  import opened MachineInts
  import opened Wrappers
  import opened Onion
  import opened RelaySpec
  import opened ClientSpec
  import opened Sockets
  import opened KeyExchange
  import opened CircuitBuild
  import Chain

  /** After a successful build every relay and the client are in the initial state of a run, over the keys agreed on. */
  lemma RunsStartWhereBuildsEnd(k: Kex, w: Tables, path: seq<Addr>, cid: CircuitId, draws: seq<Draw>, patience: nat,
      sid: uint16, j: nat)
    requires k.Valid() && 0 < |path| == |draws| <= patience && FreshId(w, path, cid)
    requires Built(k, w, path, cid, draws, patience, |path|).1.Some? && j < |path|
    ensures var b := Built(k, w, path, cid, draws, patience, |path|); var s := Chain.Fresh(b.1.value, sid);
      && Chain.Shape(s) && |s.path| == |path| && s.client == FreshClient(b.1.value)
      && path[j] in b.0 && cid in b.0[path[j]]
      && b.0[path[j]][cid] == Link(s.hops[j], NextOf(path, j))
  {
    BuildLeavesFresh(k, w, path, cid, draws, patience, j);
    hide Built, FreshId, OnlyThese;
  }
}

/** Selection and build together. */
module CircuitCreation {
  import opened MachineInts
  import opened Wrappers
  import opened Sockets
  import opened KeyExchange
  import opened Circuits
  import opened Selection
  import opened CircuitBuild

  /** The addresses of the selected relays, in order. */
  function Addresses(relays: seq<RelayId>, endpoint: map<RelayId, Addr>): seq<Addr>
    requires forall r :: r in relays ==> r in endpoint
  {
    seq(|relays|, i requires 0 <= i < |relays| => endpoint[relays[i]])
  }

  /** Online relays have endpoints of their own. */
  ghost predicate OwnEndpoints(online: seq<RelayId>, endpoint: map<RelayId, Addr>) {
    && (forall r :: r in online ==> r in endpoint)
    && (forall a, b :: a in online && b in online && a != b ==> endpoint[a] != endpoint[b])
  }

  /** Whatever the shuffle draws, the build over the selected relays fails only by chance: never because EXTEND goes round. */
  lemma SelectedCircuitBuilds(dir: Directory, hops: int, exit: Option<RelayId>, picks: seq<uint16>, endpoint: map<RelayId, Addr>,
      k: Kex, w: Tables, cid: CircuitId, draws: seq<Draw>, patience: nat)
    requires Selectable(dir, hops, exit, picks) && Different(dir.online.value) && OwnEndpoints(dir.online.value, endpoint)
    requires forall r :: r in dir.online.value ==> endpoint[r] in w && cid !in w[endpoint[r]]
    requires k.Valid() && |draws| == HopsWanted(hops) <= patience
    ensures forall r :: r in Selected(dir, hops, exit, picks) ==> r in endpoint
    ensures var path := Addresses(Selected(dir, hops, exit, picks), endpoint);
      |path| == |draws| && (Built(k, w, path, cid, draws, patience, |path|).1.Some? <==> LuckyTo(k, path, draws, |path|))
  {
    SelectedPath(dir, hops, exit, picks);
    var relays := Selected(dir, hops, exit, picks);
    hide Selected, Selectable, Built, LuckyTo;
    assert forall r :: r in relays ==> r in dir.online.value;
    var path := Addresses(relays, endpoint);
    forall a, b | 0 <= a < b < |path|
      ensures path[a] != path[b]
    {
      assert relays[a] in dir.online.value && relays[b] in dir.online.value && relays[a] != relays[b];
    }
    forall j | 0 <= j < |path|
      ensures path[j] in w && cid !in w[path[j]]
    {
      assert relays[j] in dir.online.value;
    }
    BuildSucceedsIff(k, w, path, cid, draws, patience);
  }
}

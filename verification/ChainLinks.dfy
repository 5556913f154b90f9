/** What a link holds: the cells of one kind on it, compared with a log of what was put in at the top. */
module ChainLinks {
  import opened MachineInts
  import opened Nonces
  import opened Onion
  import opened RelaySpec
  import opened Chain

  datatype Kind = DataKind | RequestKind

  predicate OfKind(kind: Kind, c: Cell) {
    if kind.DataKind? then c.Data? else IsRequest(c)
  }

  /** The cells of one kind, in order. */
  function Select(kind: Kind, q: seq<Cell>): seq<Cell> {
    if q == [] then []
    else if OfKind(kind, q[0]) then [q[0]] + Select(kind, q[1..])
    else Select(kind, q[1..])
  }

  lemma {:induction false} SelectAppend(kind: Kind, a: seq<Cell>, b: seq<Cell>)
    ensures Select(kind, a + b) == Select(kind, a) + Select(kind, b)
  {
    if a == [] {
      assert a + b == b;
    } else {
      var ab := a + b;
      SelectAppend(kind, a[1..], b);
      assert ab[1..] == a[1..] + b;
      assert ab[0] == a[0];
      if OfKind(kind, a[0]) {
        assert Select(kind, ab) == [a[0]] + (Select(kind, a[1..]) + Select(kind, b));
      } else {
        assert Select(kind, ab) == Select(kind, a[1..]) + Select(kind, b);
      }
    }
  }

  lemma RestIn(q: seq<Cell>)
    requires q != []
    ensures forall c :: c in q && c !in q[1..] ==> c == q[0]
    ensures forall c :: c in q[1..] ==> c in q
  {
    assert q == [q[0]] + q[1..];
  }

  lemma SelectPush(kind: Kind, q: seq<Cell>, c: Cell)
    ensures Select(kind, q + [c]) == if OfKind(kind, c) then Select(kind, q) + [c] else Select(kind, q)
  {
    SelectAppend(kind, q, [c]);
    assert [c][1..] == [];
  }

  lemma SelectPop(kind: Kind, q: seq<Cell>)
    requires q != []
    ensures |Select(kind, q[1..])| == |Select(kind, q)| - if OfKind(kind, q[0]) then 1 else 0
  {
  }

  lemma {:induction false} SelectNone(kind: Kind, q: seq<Cell>)
    ensures Select(kind, q) == [] <==> forall c :: c in q ==> !OfKind(kind, c)
  {
    if q != [] {
      SelectNone(kind, q[1..]);
      assert forall c :: c in q <==> c == q[0] || c in q[1..];
    }
  }

  /** The `j`-th cell of its kind, as relay `i` is to see it: the layers of hops i, i+1, ... over `m`. */
  function Item(path: Path, sid: uint16, kind: Kind, i: nat, j: nat, m: Msg): Cell
    requires i <= |path|
  {
    var b := Layers(path, i, j, m);
    if kind.DataKind? then Data(sid, b) else if m.BeginDto? then Begin(b) else Connect(b)
  }

  /** A DATA cell as relay `i` is to see it, for one of the chunks in `log`, whatever its number. */
  ghost predicate SomeItem(path: Path, sid: uint16, log: seq<Msg>, i: nat, c: Cell)
    requires i <= |path|
  {
    exists j :: 0 <= j < |log| && c == Item(path, sid, DataKind, i, j, log[j])
  }

  lemma SomeItemGrows(path: Path, sid: uint16, log: seq<Msg>, m: Msg, i: nat, q: seq<Cell>)
    requires i <= |path| && forall c :: c in q && c.Data? ==> SomeItem(path, sid, log, i, c)
    ensures forall c :: c in q && c.Data? ==> SomeItem(path, sid, log + [m], i, c)
  {
    forall c | c in q && c.Data?
      ensures SomeItem(path, sid, log + [m], i, c)
    {
      var j :| 0 <= j < |log| && c == Item(path, sid, DataKind, i, j, log[j]);
      assert (log + [m])[j] == log[j];
    }
  }

  /** The cells of this kind in `q` are exactly entries from, ..., to-1 of `log`, in order, with the layers from `i` on. */
  ghost predicate Carries(path: Path, sid: uint16, kind: Kind, log: seq<Msg>, i: nat, q: seq<Cell>, from: nat, to: nat)
    requires i <= |path|
  {
    && from <= to <= |log|
    && |Select(kind, q)| == to - from
    && forall k :: 0 <= k < to - from ==> Select(kind, q)[k] == Item(path, sid, kind, i, from + k, log[from + k])
  }

  lemma CarriesPush(path: Path, sid: uint16, kind: Kind, log: seq<Msg>, i: nat, q: seq<Cell>, from: nat, to: nat, c: Cell)
    requires i <= |path| && Carries(path, sid, kind, log, i, q, from, to)
    ensures !OfKind(kind, c) ==> Carries(path, sid, kind, log, i, q + [c], from, to)
    ensures to < |log| && c == Item(path, sid, kind, i, to, log[to]) ==> Carries(path, sid, kind, log, i, q + [c], from, to + 1)
  {
    SelectPush(kind, q, c);
    hide Select, Layers;
  }

  lemma CarriesPop(path: Path, sid: uint16, kind: Kind, log: seq<Msg>, i: nat, q: seq<Cell>, from: nat, to: nat)
    requires i <= |path| && q != [] && Carries(path, sid, kind, log, i, q, from, to)
    ensures OfKind(kind, q[0]) ==>
      from < to && q[0] == Item(path, sid, kind, i, from, log[from]) && Carries(path, sid, kind, log, i, q[1..], from + 1, to)
    ensures !OfKind(kind, q[0]) ==> Carries(path, sid, kind, log, i, q[1..], from, to)
  {
    var all, rest := Select(kind, q), Select(kind, q[1..]);
    if OfKind(kind, q[0]) {
      assert all == [q[0]] + rest;
      assert all[0] == q[0];
      forall k | 0 <= k < to - from - 1
        ensures rest[k] == Item(path, sid, kind, i, from + 1 + k, log[from + 1 + k])
      {
        assert rest[k] == all[k + 1];
      }
    } else {
      assert all == rest;
    }
  }

  lemma CarriesGrow(path: Path, sid: uint16, kind: Kind, log: seq<Msg>, more: seq<Msg>, i: nat, q: seq<Cell>, from: nat, to: nat)
    requires i <= |path| && Carries(path, sid, kind, log, i, q, from, to)
    ensures Carries(path, sid, kind, log + more, i, q, from, to)
  {
  }

  /** On a downward link no BEGIN or CONNECT follows a DATA cell. */
  ghost predicate RequestsFirst(q: seq<Cell>) {
    forall p, r :: 0 <= p < r < |q| && q[p].Data? ==> !IsRequest(q[r])
  }

  lemma RequestsFirstPop(q: seq<Cell>)
    requires q != [] && RequestsFirst(q)
    ensures RequestsFirst(q[1..])
    ensures q[0].Data? ==> Select(RequestKind, q) == []
  {
    if q[0].Data? {
      SelectNone(RequestKind, q);
    }
  }

  lemma RequestsFirstPush(q: seq<Cell>, c: Cell)
    requires RequestsFirst(q)
    requires IsRequest(c) ==> Select(DataKind, q) == []
    ensures RequestsFirst(q + [c])
  {
    SelectNone(DataKind, q);
    forall p, r | 0 <= p < r < |q + [c]| && (q + [c])[p].Data?
      ensures !IsRequest((q + [c])[r])
    {
      assert q[p] in q;
    }
  }
}

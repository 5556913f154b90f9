/** Stream ids come from one process-wide counter, moved by an atomic addition and, past the last id, an atomic store. */
module StreamIds {
  import opened MachineInts

  const TWO_TO_32: int := 0x1_0000_0000
  const LAST_ID: int := 0xFFFF

  type uint32 = x: int | 0 <= x < TWO_TO_32

  /** The counter, the calls between their addition and their store, and the ids handed out so far. A call that waits
      for its store has nothing left to decide: it will store 1 and return 1. */
  datatype Allocator = Allocator(counter: uint32, waiting: nat, ids: seq<uint16>)

  const START := Allocator(0, 0, [])

  datatype Action = AddOne | StoreOne

  predicate CanAct(s: Allocator, a: Action) {
    a == AddOne || s.waiting > 0
  }

  function Act(s: Allocator, a: Action): Allocator
    requires CanAct(s, a)
  {
    match a
    case AddOne =>
      var v := (s.counter + 1) % TWO_TO_32;
      if v > LAST_ID then Allocator(v, s.waiting + 1, s.ids) else Allocator(v, s.waiting, s.ids + [v])
    case StoreOne => Allocator(1, s.waiting - 1, s.ids + [1])
  }

  /** Any interleaving of any number of calls, of which never more than `most` wait at once. */
  ghost predicate Interleaving(most: nat, s: Allocator, acts: seq<Action>, t: Allocator)
    decreases |acts|
  {
    s.waiting <= most &&
    if acts == [] then s == t else CanAct(s, acts[0]) && Interleaving(most, Act(s, acts[0]), acts[1..], t)
  }

  /** The counter is past the last id by no more than the calls that are waiting. */
  ghost predicate Bounded(s: Allocator) {
    s.counter <= LAST_ID + s.waiting && 0 !in s.ids
  }

  /** With at most this many calls in flight the 32-bit counter cannot go round. */
  const MOST_WAITING: nat := TWO_TO_32 - LAST_ID - 2

  lemma {:induction false} NeverZeroFrom(s: Allocator, acts: seq<Action>, t: Allocator)
    requires Bounded(s) && Interleaving(MOST_WAITING, s, acts, t)
    ensures Bounded(t)
    decreases |acts|
  {
    if acts != [] {
      NeverZeroFrom(Act(s, acts[0]), acts[1..], t);
    }
  }

  /** The reserved id 0 is never handed out, however the calls interleave. */
  lemma NeverZero(acts: seq<Action>, t: Allocator)
    requires Interleaving(MOST_WAITING, START, acts, t)
    ensures 0 !in t.ids
  {
    NeverZeroFrom(START, acts, t);
  }

  lemma {:induction false} Joined(most: nat, s: Allocator, a: seq<Action>, mid: Allocator, b: seq<Action>, t: Allocator)
    requires Interleaving(most, s, a, mid) && Interleaving(most, mid, b, t)
    ensures Interleaving(most, s, a + b, t)
    decreases |a|
  {
    if a == [] {
      assert a + b == b;
    } else {
      Joined(most, Act(s, a[0]), a[1..], mid, b, t);
      assert (a + b)[1..] == a[1..] + b;
    }
  }

  /** The ids 1, 2, ..., k. */
  function UpTo(k: nat): seq<uint16>
    requires k <= LAST_ID
  {
    seq(k, i requires 0 <= i < k => i + 1)
  }

  /** The first calls, none of which has to wait, get the ids in order. */
  lemma {:induction false} FirstIds(most: nat, k: nat)
    requires k <= LAST_ID
    ensures Interleaving(most, START, seq(k, _ => AddOne), Allocator(k, 0, UpTo(k)))
  {
    if k > 0 {
      FirstIds(most, k - 1);
      var before, after := Allocator(k - 1, 0, UpTo(k - 1)), Allocator(k, 0, UpTo(k));
      assert UpTo(k) == UpTo(k - 1) + [k];
      assert Act(before, AddOne) == after;
      assert [AddOne][1..] == [];
      assert Interleaving(most, before, [AddOne], after);
      Joined(most, START, seq(k - 1, _ => AddOne), before, [AddOne], after);
      assert seq(k, _ => AddOne) == seq(k - 1, _ => AddOne) + [AddOne];
    }
  }

  /** Past the last id every addition leaves one more call waiting. */
  lemma {:induction false} AdditionsOnly(most: nat, s: Allocator, k: nat)
    requires s.counter >= LAST_ID && s.counter + k < TWO_TO_32 && s.waiting + k <= most
    ensures Interleaving(most, s, seq(k, _ => AddOne), Allocator(s.counter + k, s.waiting + k, s.ids))
    decreases k
  {
    if k > 0 {
      assert seq(k, _ => AddOne)[1..] == seq(k - 1, _ => AddOne);
      AdditionsOnly(most, Act(s, AddOne), k - 1);
    }
  }

  /** The bound is exact: if one more call may wait, 0 can come out. */
  lemma ZeroWithOneMore() returns (acts: seq<Action>, t: Allocator)
    ensures Interleaving(MOST_WAITING + 1, START, acts, t) && 0 in t.ids
  {
    var most := MOST_WAITING + 1;
    var last, full := Allocator(LAST_ID, 0, UpTo(LAST_ID)), Allocator(TWO_TO_32 - 1, most, UpTo(LAST_ID));
    FirstIds(most, LAST_ID);
    AdditionsOnly(most, last, most);
    Joined(most, START, seq(LAST_ID, _ => AddOne), last, seq(most, _ => AddOne), full);
    t := Act(full, AddOne);
    assert [AddOne][1..] == [];
    assert Interleaving(most, full, [AddOne], t);
    Joined(most, START, seq(LAST_ID, _ => AddOne) + seq(most, _ => AddOne), full, [AddOne], t);
    acts := seq(LAST_ID, _ => AddOne) + seq(most, _ => AddOne) + [AddOne];
    assert t.ids[LAST_ID] == 0;
  }

  /** Two calls at a time are enough for one id to come out twice in a row. */
  lemma OverlappingCallsRepeat() returns (acts: seq<Action>, t: Allocator)
    ensures Interleaving(2, START, acts, t)
    ensures |t.ids| >= 2 && t.ids[|t.ids| - 1] == t.ids[|t.ids| - 2] == 1
  {
    var s0 := Allocator(LAST_ID, 0, UpTo(LAST_ID));
    FirstIds(2, LAST_ID);
    var s1, s2 := Act(s0, AddOne), Act(Act(s0, AddOne), AddOne);
    var s3 := Act(s2, StoreOne);
    t := Act(s3, StoreOne);
    var more := [AddOne, AddOne, StoreOne, StoreOne];
    assert more[1..] == [AddOne, StoreOne, StoreOne] && more[1..][1..] == [StoreOne, StoreOne];
    assert more[1..][1..][1..] == [StoreOne] && more[1..][1..][1..][1..] == [];
    assert Interleaving(2, s3, [StoreOne], t);
    assert Interleaving(2, s2, [StoreOne, StoreOne], t);
    assert Interleaving(2, s1, [AddOne, StoreOne, StoreOne], t);
    Joined(2, START, seq(LAST_ID, _ => AddOne), s0, more, t);
    acts := seq(LAST_ID, _ => AddOne) + more;
  }

  // ---- when ids are distinct ----

  /** The id of the `k`-th call, counted from 0. */
  function NthId(k: nat): uint16 {
    k % LAST_ID + 1
  }

  lemma NextId(k: nat)
    ensures NthId(k) == if k == 0 || NthId(k - 1) == LAST_ID then 1 else NthId(k - 1) + 1
  {
    if k > 0 {
      var q, r := (k - 1) / LAST_ID, (k - 1) % LAST_ID;
      assert k == q * LAST_ID + r + 1;
      if r + 1 == LAST_ID {
        assert k == (q + 1) * LAST_ID;
      }
    }
  }

  /** While at most one call waits, the counter is the last id given out, or one past the end while that call waits. */
  ghost predicate Orderly(s: Allocator) {
    && s.waiting <= 1 && (forall k :: 0 <= k < |s.ids| ==> s.ids[k] == NthId(k))
    && s.counter == (if s.waiting == 1 then LAST_ID + 1 else if s.ids == [] then 0 else s.ids[|s.ids| - 1])
    && (s.waiting == 1 ==> s.ids != [] && s.ids[|s.ids| - 1] == LAST_ID)
  }

  lemma {:induction false} OneAtATimeFrom(s: Allocator, acts: seq<Action>, t: Allocator)
    requires Orderly(s) && Interleaving(1, s, acts, t)
    ensures Orderly(t)
    decreases |acts|
  {
    if acts != [] {
      NextId(|s.ids|);
      OneAtATimeFrom(Act(s, acts[0]), acts[1..], t);
    }
  }

  /** As long as no two calls wait at once, the ids come out in order, whatever the interleaving: the k-th is k mod 65535,
      plus 1. With two waiting that fails (OverlappingCallsRepeat), so the bound is exact. */
  lemma InOrderOneAtATime(acts: seq<Action>, t: Allocator)
    requires Interleaving(1, START, acts, t)
    ensures forall k :: 0 <= k < |t.ids| ==> t.ids[k] == NthId(k)
  {
    OneAtATimeFrom(START, acts, t);
  }

  /** So two ids are the same exactly if their calls are a multiple of 65535 apart, and never within a window of that size. */
  lemma DistinctInWindow(acts: seq<Action>, t: Allocator, i: nat, j: nat)
    requires Interleaving(1, START, acts, t) && i < j < |t.ids|
    ensures t.ids[i] == t.ids[j] <==> (j - i) % LAST_ID == 0
    ensures j < i + LAST_ID ==> t.ids[i] != t.ids[j]
  {
    InOrderOneAtATime(acts, t);
    NthIdsDiffer(i, j);
  }

  lemma NthIdsDiffer(i: nat, j: nat)
    requires i < j
    ensures NthId(i) == NthId(j) <==> (j - i) % LAST_ID == 0
    ensures j < i + LAST_ID ==> NthId(i) != NthId(j)
  {
    var q, r, p, u := i / LAST_ID, i % LAST_ID, j / LAST_ID, j % LAST_ID;
    assert j - i == (p - q) * LAST_ID + (u - r);
    if r == u {
      assert (j - i) % LAST_ID == 0;
    }
  }

  // ---- one call at a time ----

  class StreamCounter {
    var value: uint32
    ghost var calls: nat

    constructor ()
      ensures Valid() && calls == 0
    {
      value, calls := 0, 0;
    }

    ghost predicate Valid()
      reads this
    {
      value == if calls == 0 then 0 else NthId(calls - 1)
    }

    method NewStreamIDAuto() returns (id: uint16)
      requires Valid()
      modifies this
      ensures Valid() && calls == old(calls) + 1 && id == NthId(old(calls))
    {
      NextId(calls);
      value := (value + 1) % TWO_TO_32;
      var v := value;
      if v > LAST_ID {
        value := 1;
        v := 1;
      }
      calls := calls + 1;
      return v;
    }
  }
}

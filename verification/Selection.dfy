/** Choosing the relays of a circuit: a shuffle in place, and the exit, if one is asked for, at the end. */
module Selection {
  import opened MachineInts
  import opened Wrappers
  import opened Circuits

  function Swap<T>(s: seq<T>, i: nat, j: nat): seq<T>
    requires i < |s| && j < |s|
  {
    s[i := s[j]][j := s[i]]
  }

  lemma SwapKeeps<T>(s: seq<T>, i: nat, j: nat)
    requires i < |s| && j < |s|
    ensures multiset(Swap(s, i, j)) == multiset(s)
  {
  }

  lemma SwapIs<T>(s: seq<T>, t: seq<T>, i: nat, j: nat)
    requires i < |s| == |t| && j < |s| && t[i] == s[j] && t[j] == s[i]
    requires forall k :: 0 <= k < |s| && k != i && k != j ==> t[k] == s[k]
    ensures t == Swap(s, i, j)
  {
  }

  /** The position a random draw of two bytes picks among the first `i + 1`. */
  function Pick(draw: uint16, i: nat): (j: nat)
    ensures j <= i
  {
    draw % (i + 1)
  }

  /** How many of the draws below `n` pick position `j`. */
  function Picking(i: nat, j: nat, n: nat): nat
    requires n <= 0x1_0000
  {
    if n == 0 then 0 else Picking(i, j, n - 1) + if Pick(n - 1, i) == j then 1 else 0
  }

  /** Every position is picked by its share of the draws: all get the same number of the 65536, but for one more for the first
      few when i + 1 does not divide 65536. */
  lemma PickIsEven(i: nat, j: nat)
    requires j <= i
    ensures Picking(i, j, 0x1_0000) == 0x1_0000 / (i + 1) + if j < 0x1_0000 % (i + 1) then 1 else 0
  {
    PickingSoFar(i, j, 0x1_0000);
  }

  lemma {:induction false} PickingSoFar(i: nat, j: nat, n: nat)
    requires j <= i && n <= 0x1_0000
    ensures Picking(i, j, n) == n / (i + 1) + if j < n % (i + 1) then 1 else 0
  {
    if n == 0 {
      assert 0 / (i + 1) == 0 && 0 % (i + 1) == 0;
    } else {
      PickingSoFar(i, j, n - 1);
      NextQuotient(n, i + 1);
    }
  }

  lemma NextQuotient(n: nat, m: nat)
    requires n > 0 && m > 0
    ensures if (n - 1) % m + 1 == m then n / m == (n - 1) / m + 1 && n % m == 0 else n / m == (n - 1) / m && n % m == (n - 1) % m + 1
  {
    var q, r := (n - 1) / m, (n - 1) % m;
    assert n - 1 == q * m + r;
    if r + 1 == m {
      assert n == (q + 1) * m + 0;
      Quotient(n, m, q + 1, 0);
    } else {
      Quotient(n, m, q, r + 1);
    }
  }

  lemma Quotient(n: nat, m: nat, q: nat, r: nat)
    requires r < m && n == q * m + r
    ensures n / m == q && n % m == r
  {
    var p, u := n / m, n % m;
    assert n == p * m + u && 0 <= u < m;
    assert (q - p) * m == u - r;
    if q > p {
      AtLeastOnce(q - p, m);
    } else if p > q {
      AtLeastOnce(p - q, m);
    }
  }

  /** The order after the shuffle's steps for positions i, i-1, ..., 1, one random draw for each. */
  function Shuffled<T>(s: seq<T>, i: nat, draws: seq<uint16>): (p: seq<T>)
    requires i < |s| || i == 0
    requires i <= |draws|
    ensures |p| == |s|
    decreases i
  {
    if i == 0 then s else Shuffled(Swap(s, i, Pick(draws[0], i)), i - 1, draws[1..])
  }

  /** A shuffle rearranges, and does nothing else. */
  lemma {:induction false} ShuffledKeeps<T>(s: seq<T>, i: nat, draws: seq<uint16>)
    requires i < |s| || i == 0
    requires i <= |draws|
    ensures multiset(Shuffled(s, i, draws)) == multiset(s)
    decreases i
  {
    if i > 0 {
      var j := Pick(draws[0], i);
      SwapKeeps(s, i, j);
      hide Swap;
      ShuffledKeeps(Swap(s, i, j), i - 1, draws[1..]);
    }
  }

  function LastOf(n: nat): nat {
    if n == 0 then 0 else n - 1
  }

  method SwapAt<T>(xs: array<T>, i: nat, j: nat)
    requires i < xs.Length && j < xs.Length
    modifies xs
    ensures xs[..] == Swap(old(xs[..]), i, j) && multiset(xs[..]) == multiset(old(xs[..]))
  {
    SwapKeeps(xs[..], i, j);
    ghost var s := xs[..];
    xs[i], xs[j] := xs[j], xs[i];
    SwapIs(s, xs[..], i, j);
  }

  /** Shuffles in place. The source of randomness may fail, here by running out of draws. */
  method SecureShuffle<T>(xs: array<T>, draws: seq<uint16>) returns (ok: bool)
    modifies xs
    ensures ok <==> LastOf(xs.Length) <= |draws|
    ensures ok ==> xs[..] == Shuffled(old(xs[..]), LastOf(xs.Length), draws)
    ensures multiset(xs[..]) == multiset(old(xs[..]))
  {
    hide Swap, Pick;
    var i: nat, used: nat := LastOf(xs.Length), 0;
    ghost var was := xs[..];
    assert draws[0..] == draws;
    while i > 0
      invariant i < xs.Length || i == 0
      invariant used + i == LastOf(xs.Length) && used <= |draws|
      invariant multiset(xs[..]) == multiset(was)
      invariant LastOf(xs.Length) <= |draws| ==> Shuffled(xs[..], i, draws[used..]) == Shuffled(was, LastOf(xs.Length), draws)
    {
      if used == |draws| {
        return false;
      }
      assert draws[used..][1..] == draws[used + 1..];
      SwapAt(xs, i, Pick(draws[used], i));
      i, used := i - 1, used + 1;
    }
    return true;
  }

  lemma OnlyFirst<T>(s: seq<T>, p: seq<T>)
    requires 0 < |s| == |p| && multiset(s[..1]) == multiset(p[..1]) && s[1..] == p[1..]
    ensures s == p
  {
    assert s[..1] == [s[0]] && p[..1] == [p[0]];
    assert s[0] in multiset(p[..1]);
    assert s == [s[0]] + s[1..] && p == [p[0]] + p[1..];
  }

  lemma PickSmall(j: uint16, i: nat)
    requires j <= i
    ensures Pick(j, i) == j
  {
    var m := i + 1;
    var q, r := j / m, j % m;
    assert j == q * m + r && 0 <= r < m;
    AtLeastOnce(q, m);
  }

  lemma AtLeastOnce(q: nat, m: nat)
    ensures q >= 1 ==> q * m >= m
  {
  }

  lemma FirstDraw<T>(s: seq<T>, i: nat, j: uint16, rest: seq<uint16>)
    requires j <= i < |s| && i > 0 && i - 1 <= |rest|
    ensures Shuffled(s, i, [j] + rest) == Shuffled(Swap(s, i, j), i - 1, rest)
  {
    PickSmall(j, i);
    hide Pick, Swap;
    assert ([j] + rest)[1..] == rest;
  }

  /** The same elements up to position `i`, the same order after it. */
  ghost predicate SameUpTo<T>(s: seq<T>, p: seq<T>, i: nat) {
    i < |s| == |p| && multiset(s[..i + 1]) == multiset(p[..i + 1]) && s[i + 1..] == p[i + 1..]
  }

  lemma FindFor<T>(s: seq<T>, p: seq<T>, i: nat) returns (j: nat)
    requires SameUpTo(s, p, i)
    ensures j <= i && s[j] == p[i]
  {
    assert p[..i + 1][i] in multiset(s[..i + 1]);
    j :| j <= i && s[..i + 1][j] == p[i];
  }

  lemma SwapWithin<T>(s: seq<T>, i: nat, j: nat)
    requires j <= i < |s|
    ensures multiset(Swap(s, i, j)[..i + 1]) == multiset(s[..i + 1]) && Swap(s, i, j)[i + 1..] == s[i + 1..]
  {
    assert Swap(s, i, j)[..i + 1] == Swap(s[..i + 1], i, j);
    SwapKeeps(s[..i + 1], i, j);
  }

  lemma DropLast<T>(s: seq<T>, i: nat)
    requires i < |s|
    ensures multiset(s[..i]) == multiset(s[..i + 1]) - multiset{s[i]} && s[i..] == [s[i]] + s[i + 1..]
  {
    assert s[..i + 1] == s[..i] + [s[i]];
  }

  lemma SwapSettles<T>(s: seq<T>, p: seq<T>, i: nat, j: nat)
    requires SameUpTo(s, p, i) && 0 < i && j <= i && s[j] == p[i]
    ensures SameUpTo(Swap(s, i, j), p, i - 1)
  {
    SwapWithin(s, i, j);
    DropLast(Swap(s, i, j), i);
    DropLast(p, i);
    assert Swap(s, i, j)[i] == p[i];
    hide Swap;
  }

  /** Every order can come out: for a list of up to 65536 relays, each rearrangement is the result of some draws. */
  lemma {:induction false} EveryOrder<T>(s: seq<T>, p: seq<T>, i: nat) returns (draws: seq<uint16>)
    requires SameUpTo(s, p, i) && i < 0x1_0000
    ensures |draws| == i && Shuffled(s, i, draws) == p
    decreases i
  {
    assert i < |s|;
    if i == 0 {
      draws := [];
      OnlyFirst(s, p);
    } else {
      hide Shuffled, Swap, SameUpTo;
      var j := FindFor(s, p, i);
      SwapSettles(s, p, i, j);
      var rest := EveryOrder(Swap(s, i, j), p, i - 1);
      draws := [j] + rest;
      FirstDraw(s, i, j, rest);
    }
  }

  // ---- the selection ----

  /** What the directory says: the list of online relays, unless it fails, and the relays it knows by id, each online or not. */
  datatype Directory = Directory(online: Option<seq<RelayId>>, known: map<RelayId, bool>)

  const DEFAULT_HOPS := 3

  function HopsWanted(hops: int): nat {
    if hops <= 0 then DEFAULT_HOPS else hops
  }

  predicate Different(s: seq<RelayId>) {
    forall i, j :: 0 <= i < j < |s| ==> s[i] != s[j]
  }

  function Count(s: seq<RelayId>, x: RelayId): nat {
    multiset(s)[x]
  }

  function Without(s: seq<RelayId>, x: RelayId): seq<RelayId> {
    if s == [] then [] else if s[0] == x then s[1..] else [s[0]] + Without(s[1..], x)
  }

  /** The relays that get shuffled. */
  function Pool(online: seq<RelayId>, hops: int, exit: Option<RelayId>): seq<RelayId> {
    if exit == None then online
    else if HopsWanted(hops) == 1 then []
    else Without(online, exit.value)
  }

  /** Everything the selection asks of the directory and of chance. */
  predicate Selectable(dir: Directory, hops: int, exit: Option<RelayId>, draws: seq<uint16>) {
    && dir.online.Some? && HopsWanted(hops) <= |dir.online.value|
    && (exit.Some? ==> exit.value in dir.known && dir.known[exit.value] && exit.value in dir.online.value)
    && LastOf(|Pool(dir.online.value, hops, exit)|) <= |draws|
  }

  /** Removes the first occurrence of the exit. */
  method TakeOut(relays: seq<RelayId>, exit: RelayId) returns (found: bool, rest: seq<RelayId>)
    ensures found <==> exit in relays
    ensures rest == Without(relays, exit)
  {
    for i := 0 to |relays|
      invariant exit !in relays[..i]
    {
      if relays[i] == exit {
        WithoutAt(relays, exit, i);
        return true, relays[..i] + relays[i + 1..];
      }
      assert relays[..i + 1] == relays[..i] + [relays[i]];
    }
    assert relays[..|relays|] == relays;
    WithoutNone(relays, exit);
    return false, relays;
  }

  lemma {:induction false} WithoutAt(s: seq<RelayId>, x: RelayId, i: nat)
    requires i < |s| && s[i] == x && x !in s[..i]
    ensures Without(s, x) == s[..i] + s[i + 1..]
  {
    if i > 0 {
      assert s[0] == s[..i][0];
      assert s[1..][..i - 1] == s[..i][1..];
      WithoutAt(s[1..], x, i - 1);
    }
  }

  lemma {:induction false} WithoutNone(s: seq<RelayId>, x: RelayId)
    requires x !in s
    ensures Without(s, x) == s
  {
    if s != [] {
      WithoutNone(s[1..], x);
    }
  }

  lemma {:induction false} WithoutLength(s: seq<RelayId>, x: RelayId)
    ensures |Without(s, x)| == if x in s then |s| - 1 else |s|
  {
    if s != [] && s[0] != x {
      WithoutLength(s[1..], x);
    }
  }

  lemma {:induction false} WithoutCount(s: seq<RelayId>, x: RelayId, y: RelayId)
    ensures Count(Without(s, x), y) == if x in s && y == x then Count(s, y) - 1 else Count(s, y)
  {
    if s != [] {
      hide Count;
      assert s == [s[0]] + s[1..];
      CountParts([s[0]], s[1..], y);
      CountOne(s[0], y);
      if s[0] != x {
        WithoutCount(s[1..], x, y);
        CountParts([s[0]], Without(s[1..], x), y);
      }
    }
  }

  lemma CountParts(a: seq<RelayId>, b: seq<RelayId>, x: RelayId)
    ensures Count(a + b, x) == Count(a, x) + Count(b, x)
    ensures Count([x], x) == 1 && (Count(a, x) > 0 <==> x in a)
  {
  }

  lemma DifferentByCount(s: seq<RelayId>)
    ensures Different(s) <==> forall x :: Count(s, x) <= 1
  {
    hide Count;
    forall x, k | 0 <= k < |s| && s[k] == x
      ensures Count(s, x) == Count(s[..k], x) + 1 + Count(s[k + 1..], x)
    {
      assert s == s[..k] + ([x] + s[k + 1..]);
      CountParts(s[..k], [x] + s[k + 1..], x);
      CountParts([x], s[k + 1..], x);
    }
    if Different(s) {
      forall x
        ensures Count(s, x) <= 1
      {
        CountParts(s, s, x);
        if x in s {
          var k :| 0 <= k < |s| && s[k] == x;
          CountParts(s[..k], s[k + 1..], x);
          CountParts(s[k + 1..], s[..k], x);
        }
      }
    } else {
      var i, j :| 0 <= i < j < |s| && s[i] == s[j];
      assert s[..j][i] == s[i];
      CountParts(s[..j], s, s[j]);
    }
  }

  /** The relays to shuffle, if the directory has enough of them and the exit is fit. */
  method Candidates(dir: Directory, wanted: nat, exit: Option<RelayId>) returns (relays: Option<seq<RelayId>>)
    requires wanted > 0
    ensures relays.Some? <==>
      && dir.online.Some? && wanted <= |dir.online.value|
      && (exit.Some? ==> exit.value in dir.known && dir.known[exit.value] && exit.value in dir.online.value)
    ensures relays.Some? ==> relays.value == Pool(dir.online.value, wanted, exit)
  {
    if dir.online == None {
      return None;
    }
    var online := dir.online.value;
    if |online| < wanted {
      return None;
    }
    if exit == None {
      return Some(online);
    }
    if exit.value !in dir.known {
      return None;
    }
    if !dir.known[exit.value] {
      return None;
    }
    var found, rest := TakeOut(online, exit.value);
    if !found {
      return None;
    }
    if wanted == 1 {
      rest := [];
    }
    return Some(rest);
  }

  /** Chooses the relays. It succeeds exactly if the directory and the random source allow it: the check for enough relays
      after the shuffle never fails. */
  method Select(dir: Directory, hops: int, exit: Option<RelayId>, draws: seq<uint16>) returns (selected: Option<seq<RelayId>>)
    ensures selected.Some? <==> Selectable(dir, hops, exit, draws)
    ensures selected.Some? ==> Selectable(dir, hops, exit, draws) && selected.value == Selected(dir, hops, exit, draws)
  {
    var wanted := hops;
    if wanted <= 0 {
      wanted := DEFAULT_HOPS;
    }
    var relays := Candidates(dir, wanted, exit);
    if relays == None {
      return None;
    }
    PoolLength(dir.online.value, hops, exit);
    var xs := new RelayId[|relays.value|](k requires 0 <= k < |relays.value| => relays.value[k]);
    assert xs[..] == relays.value == Pool(dir.online.value, hops, exit);
    hide Shuffled, Pool;
    var ok := SecureShuffle(xs, draws);
    if !ok {
      return None;
    }
    if exit == None {
      return Some(xs[..wanted]);
    }
    if wanted - 1 > xs.Length {
      assert false;
      return None;
    }
    return Some(xs[..wanted - 1] + [exit.value]);
  }

  lemma PoolLength(online: seq<RelayId>, hops: int, exit: Option<RelayId>)
    requires HopsWanted(hops) <= |online| && (exit.Some? ==> exit.value in online)
    ensures HopsWanted(hops) - (if exit == None then 0 else 1) <= |Pool(online, hops, exit)|
  {
    if exit.Some? {
      WithoutLength(online, exit.value);
    }
  }

  /** The shuffled relays that are taken, and the exit after them. */
  function Selected(dir: Directory, hops: int, exit: Option<RelayId>, draws: seq<uint16>): seq<RelayId>
    requires Selectable(dir, hops, exit, draws)
  {
    PoolLength(dir.online.value, hops, exit);
    var pool := Pool(dir.online.value, hops, exit);
    var order := Shuffled(pool, LastOf(|pool|), draws);
    if exit == None then order[..HopsWanted(hops)] else order[..HopsWanted(hops) - 1] + [exit.value]
  }

  /** No relay is selected more often than the list names it. */
  lemma SelectedCount(dir: Directory, hops: int, exit: Option<RelayId>, draws: seq<uint16>, x: RelayId)
    requires Selectable(dir, hops, exit, draws)
    ensures Count(Selected(dir, hops, exit, draws), x) <= Count(dir.online.value, x)
  {
    PoolLength(dir.online.value, hops, exit);
    var online, pool := dir.online.value, Pool(dir.online.value, hops, exit);
    var order: seq<RelayId>, n := Shuffled(pool, LastOf(|pool|), draws), HopsWanted(hops) - (if exit == None then 0 else 1);
    ShuffledKeeps(pool, LastOf(|pool|), draws);
    assert Count(order, x) == Count(pool, x);
    hide Count, Shuffled;
    assert order == order[..n] + order[n..];
    CountParts(order[..n], order[n..], x);
    if exit.Some? {
      WithoutCount(online, exit.value, x);
      CountParts(order[..n], [exit.value], x);
      CountParts(online, online, exit.value);
      CountOne(exit.value, x);
      if HopsWanted(hops) == 1 {
        CountParts(pool, pool, x);
      }
    }
  }

  lemma CountOne(y: RelayId, x: RelayId)
    ensures Count([y], x) == if x == y then 1 else 0
  {
  }

  /** What is selected: as many relays as asked for (three by default), all online, all different, the exit last. */
  lemma SelectedPath(dir: Directory, hops: int, exit: Option<RelayId>, draws: seq<uint16>)
    requires Selectable(dir, hops, exit, draws) && Different(dir.online.value)
    ensures var path := Selected(dir, hops, exit, draws);
      && |path| == (if hops <= 0 then 3 else hops) && Different(path)
      && (forall r :: r in path ==> r in dir.online.value)
      && (exit.Some? ==> path[|path| - 1] == exit.value && exit.value in dir.known && dir.known[exit.value])
  {
    var online, path := dir.online.value, Selected(dir, hops, exit, draws);
    PoolLength(online, hops, exit);
    assert |path| == HopsWanted(hops) && (exit.Some? ==> path[|path| - 1] == exit.value);
    hide Selected, Different;
    DifferentByCount(online);
    forall x
      ensures Count(path, x) <= 1 && Count(path, x) <= Count(online, x)
    {
      SelectedCount(dir, hops, exit, draws, x);
    }
    DifferentByCount(path);
    forall r | r in path
      ensures r in online
    {
      assert Count(path, r) > 0;
    }
  }
}

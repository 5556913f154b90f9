/** The whole client: any number of circuits, each with one stream, over one id counter and one table of local connections.
    Every interleaving of the circuits' runs with opening, closing and receiving is a run of the desk. */
module Sessions {
  import opened MachineInts
  import opened Wrappers
  import opened Onion
  import opened RelaySpec
  import opened ClientSpec
  import opened Sockets
  import opened StreamIds
  import opened Receiving
  import opened Chain
  import opened ChainLinks
  import opened ChainInvariant
  import opened ChainAbove
  import opened ChainBelow
  import opened ChainEnds
  import opened ChainFrames
  import opened ChainRuns
  import opened ChainTheorems

  /** A circuit, the local connection its stream is for, the number of the call that gave the stream its id (if it was made
      yet), and whether the stream was closed locally. The id a stream is going to get is part of the circuit from the start:
      the stream can be opened when the counter hands out this id. Before that the circuit does not use it. */
  datatype Session = Session(chain: State, conn: ConnId, since: Option<nat>, closed: bool)

  datatype Desk = Desk(sessions: seq<Session>, calls: nat, conns: map<uint16, ConnId>, closed: set<ConnId>, log: seq<Event>)

  datatype Move =
    | Launch(path: Path, sid: uint16, conn: ConnId)
    | OpenStream(k: nat)
    | CloseLocal(k: nat)
    | Go(k: nat, step: Step)
    | ReceiveCell(k: nat)
    | HangUp(k: nat)

  const EMPTY := Desk([], 0, map[], {}, [])

  predicate CanMove(d: Desk, m: Move) {
    match m
    case Launch(path, sid, conn) =>
      |path| >= 1 && sid != 0 && conn !in d.closed && (forall k :: 0 <= k < |d.sessions| ==> d.sessions[k].conn != conn)
    case OpenStream(k) => k < |d.sessions| && d.sessions[k].since == None && NthId(d.calls) == d.sessions[k].chain.sid
    case CloseLocal(k) => k < |d.sessions| && d.sessions[k].since.Some? && !d.sessions[k].closed
    case Go(k, step) =>
      && k < |d.sessions| && Shape(d.sessions[k].chain) && Enabled(d.sessions[k].chain, step)
      && !step.Receive? && !step.LinkEnds? && (step.AskBegin? ==> d.sessions[k].since.Some?)
    case ReceiveCell(k) => k < |d.sessions| && Shape(d.sessions[k].chain) && Enabled(d.sessions[k].chain, Step.Receive)
    case HangUp(k) => k < |d.sessions| && Shape(d.sessions[k].chain) && d.sessions[k].chain.listening
  }

  /** What the receiving loop of circuit `k` sees of the desk. */
  function InboxOf(d: Desk, k: nat): Inbox
    requires k < |d.sessions|
  {
    Inbox(d.sessions[k].chain.client, d.conns, d.closed, d.log)
  }

  function WithInbox(d: Desk, b: Inbox): Desk {
    d.(conns := b.conns, closed := b.closed, log := b.log)
  }

  function WithChain(d: Desk, k: nat, s: State): Desk
    requires k < |d.sessions|
  {
    d.(sessions := d.sessions[k := d.sessions[k].(chain := s)])
  }

  function Moved(z: Sizes, d: Desk, m: Move): Desk
    requires CanMove(d, m)
  {
    match m
    case Launch(path, sid, conn) => d.(sessions := d.sessions + [Session(Fresh(path, sid), conn, None, false)])
    case OpenStream(k) =>
      var s := d.sessions[k];
      d.(sessions := d.sessions[k := s.(since := Some(d.calls))], calls := d.calls + 1, conns := d.conns[s.chain.sid := s.conn])
    case CloseLocal(k) =>
      var s := d.sessions[k];
      WithInbox(d.(sessions := d.sessions[k := s.(closed := true)]), Drop(InboxOf(d, k), s.chain.sid))
    case Go(k, step) => WithChain(d, k, Apply(z, d.sessions[k].chain, step))
    case ReceiveCell(k) =>
      var s := d.sessions[k].chain;
      WithInbox(WithChain(d, k, Take(s)), Received(InboxOf(d, k), s.up[0][0]).0)
    case HangUp(k) =>
      WithInbox(WithChain(d, k, d.sessions[k].chain.(listening := false)), CloseEvery(InboxOf(d, k)))
  }

  /** A stream whose id is in use: it is registered, or its circuit's loop may still receive cells for it. */
  predicate Live(s: Session) {
    s.since.Some? && (!s.closed || s.chain.listening)
  }

  /** Fewer than 65535 ids have been handed out since the oldest live stream got its own. */
  ghost predicate InWindow(d: Desk) {
    forall k :: 0 <= k < |d.sessions| && Live(d.sessions[k]) ==> d.calls < d.sessions[k].since.value + LAST_ID
  }

  ghost predicate DeskRun(z: Sizes, d: Desk, moves: seq<Move>, t: Desk)
    decreases |moves|
  {
    if moves == [] then d == t else
    && CanMove(d, moves[0])
    && (moves[0].Launch? ==> DistinctKeys(moves[0].path))
    && (moves[0].OpenStream? ==> InWindow(d))
    && DeskRun(z, Moved(z, d, moves[0]), moves[1..], t)
  }

  // ---- a circuit whose stream is not open yet ----

  /** No DATA is anywhere, and none can come before BEGIN. */
  ghost predicate Quiet(s: State) {
    && Shape(s) && (s.phase == Idle || s.phase == Connected || s.phase == Closed)
    && s.sent == [] && s.received == [] && !BeginAsked(s)
    && forall i, c :: 0 <= i < |s.path| && c in s.up[i] ==> !c.Data?
  }

  lemma QuietKeeps(z: Sizes, s: State, step: Step)
    requires Inv(z, s) && z.Valid() && Quiet(s) && Enabled(s, step) && !step.AskBegin?
    ensures Quiet(Apply(z, s, step))
  {
    hide Ask, Chunk, HandleAbove, HandleBelow, Take, SendIf, DownOk, UpOk, InStep, TornOk, DownExact;
    match step
    case AskConnect(target) => AskIs(z, s, ConnectMsg(target), Connected); AskFrame(z, s, ConnectMsg(target), Connected);
    case FromAbove(i, dialOk) => QuietAbove(z, s, i, dialOk);
    case FromBelow(i, dialOk) => QuietBelow(z, s, i, dialOk);
    case Receive => TakeFrame(s); QuietTake(s);
    case _ =>
  }

  lemma QuietTake(s: State)
    requires Quiet(s) && s.up[0] != []
    ensures Take(s).received == s.received
  {
    assert s.up[0][0] in s.up[0];
  }

  lemma QuietAbove(z: Sizes, s: State, i: nat, dialOk: bool)
    requires Inv(z, s) && z.Valid() && Quiet(s) && Handles(s, i)
    ensures Quiet(HandleAbove(z, s, i, dialOk))
  {
    hide Handle, Carries, UpOk, InStep, TornOk, ExitOk, DownExact;
    var c, r, s1 := s.down[i][0], ReplyAbove(z, s, i, dialOk), HandleAbove(z, s, i, dialOk);
    assert LinkOk(s, i) && HopOk(s, i);
    assert !c.Data?;
    if IsRequest(c) {
      if i == Last(s) {
        LastCell(z, s, dialOk);
        NextRequest(z, s, i);
        LastRequest(z, s.hops[i], c, EnvOf(s, i, dialOk));
      } else {
        MiddleRequest(z, s, i, dialOk);
      }
    } else {
      OtherCell(z, s.hops[i], c, EnvOf(s, i, dialOk));
    }
    assert s1.up == s.up[i := s.up[i] + r.up];
  }

  lemma QuietBelow(z: Sizes, s: State, i: nat, dialOk: bool)
    requires Inv(z, s) && Quiet(s) && Relays(s, i)
    ensures Quiet(HandleBelow(z, s, i, dialOk))
  {
    hide Handle, Carries, InStep, TornOk, ExitOk, DownExact, DownOk, UpOk;
    var c, r, s1 := s.up[i + 1][0], ReplyBelow(z, s, i, dialOk), HandleBelow(z, s, i, dialOk);
    assert c in s.up[i + 1] && !c.Data?;
    BelowReply(z, s, i, dialOk);
    var rest := s.up[i + 1 := s.up[i + 1][1..]];
    assert s1.up == rest[i := rest[i] + r.up];
  }

  // ---- the invariant ----

  ghost predicate SessionOk(z: Sizes, d: Desk, k: nat)
    requires k < |d.sessions|
  {
    var s := d.sessions[k];
    && Inv(z, s.chain)
    && (s.since == None ==> Quiet(s.chain) && !s.closed && s.conn !in d.closed)
    && (s.since.Some? ==> s.since.value < d.calls && s.chain.sid == NthId(s.since.value))
    && On(d.log, s.conn) <= s.chain.received
    && (Holds(d, k) ==> On(d.log, s.conn) == s.chain.received)
  }

  /** The table's entry under the session's id is the session's. */
  ghost predicate Holds(d: Desk, k: nat)
    requires k < |d.sessions|
  {
    var s := d.sessions[k];
    && s.since.Some? && !s.closed && s.chain.sid in d.conns && d.conns[s.chain.sid] == s.conn && s.conn !in d.closed
  }

  ghost predicate Apart(d: Desk, j: nat, k: nat)
    requires j < |d.sessions| && k < |d.sessions|
  {
    var a, b := d.sessions[j], d.sessions[k];
    && a.conn != b.conn
    && (a.since.Some? && b.since.Some? ==> a.since != b.since)
    && (Live(a) && Live(b) ==> a.chain.sid != b.chain.sid)
  }

  ghost predicate DeskOk(z: Sizes, d: Desk) {
    && (forall k :: 0 <= k < |d.sessions| ==> SessionOk(z, d, k))
    && (forall j, k :: 0 <= j < k < |d.sessions| ==> Apart(d, j, k))
    && (forall sid :: sid in d.conns ==> Owned(d, sid))
    && (forall c :: IsNobodys(d, c) ==> On(d.log, c) == [])
  }

  /** The entry under an id belongs to a session that holds it. */
  ghost predicate Owned(d: Desk, sid: uint16) {
    exists k :: 0 <= k < |d.sessions| && Holds(d, k) && d.sessions[k].chain.sid == sid
  }

  ghost predicate IsNobodys(d: Desk, c: ConnId) {
    forall k :: 0 <= k < |d.sessions| ==> d.sessions[k].conn != c
  }

  // ---- what a move keeps ----

  /** A move of session `k` that registers nothing: the other sessions stay, entries may go, and what is closed was
      registered. */
  ghost predicate OnlyTouches(d: Desk, t: Desk, k: nat) {
    && k < |d.sessions| == |t.sessions| && t.calls == d.calls
    && (forall j :: 0 <= j < |d.sessions| && j != k ==> t.sessions[j] == d.sessions[j])
    && t.sessions[k] == d.sessions[k].(chain := t.sessions[k].chain, closed := t.sessions[k].closed)
    && t.sessions[k].chain.sid == d.sessions[k].chain.sid && (Live(t.sessions[k]) ==> Live(d.sessions[k]))
    && (forall sid :: sid in t.conns ==> sid in d.conns && t.conns[sid] == d.conns[sid])
    && (forall x :: x in t.closed ==> x in d.closed || WasRegistered(d, t, x))
    && (forall c :: c != d.sessions[k].conn ==> On(t.log, c) == On(d.log, c))
    && (d.sessions[k].since.Some? && d.sessions[k].chain.sid in t.conns ==> t.sessions[k].closed == d.sessions[k].closed)
  }

  ghost predicate WasRegistered(d: Desk, t: Desk, x: ConnId) {
    exists sid :: sid in d.conns && sid !in t.conns && d.conns[sid] == x
  }

  /** A session's connection is closed only together with its entry. */
  lemma StillHolds(z: Sizes, d: Desk, t: Desk, k: nat, j: nat)
    requires DeskOk(z, d) && OnlyTouches(d, t, k) && j < |d.sessions| && Holds(d, j) && d.sessions[j].chain.sid in t.conns
    ensures Holds(t, j)
  {
    hide SessionOk, On, Inv;
    var c := d.sessions[j].conn;
    if c in t.closed {
      var sid :| sid in d.conns && sid !in t.conns && d.conns[sid] == c;
      assert Owned(d, sid);
      var l :| 0 <= l < |d.sessions| && Holds(d, l) && d.sessions[l].chain.sid == sid;
      if l != j {
        ApartConns(z, d, l, j);
      }
      assert false;
    }
  }

  lemma OthersKeep(z: Sizes, d: Desk, t: Desk, k: nat)
    requires DeskOk(z, d) && OnlyTouches(d, t, k) && SessionOk(z, t, k)
    ensures DeskOk(z, t)
  {
    forall j | 0 <= j < |t.sessions|
      ensures SessionOk(z, t, j)
    {
      assert SessionOk(z, d, j);
      if j != k {
        ApartConns(z, d, j, k);
        OtherOk(z, d, t, k, j);
      }
    }
    forall a, b | 0 <= a < b < |t.sessions|
      ensures Apart(t, a, b)
    {
      assert Apart(d, a, b);
    }
    forall sid | sid in t.conns
      ensures Owned(t, sid)
    {
      assert Owned(d, sid);
      var j :| 0 <= j < |d.sessions| && Holds(d, j) && d.sessions[j].chain.sid == sid;
      StillHolds(z, d, t, k, j);
    }
    forall c | IsNobodys(t, c)
      ensures On(t.log, c) == []
    {
      assert forall j :: 0 <= j < |d.sessions| ==> t.sessions[j].conn == d.sessions[j].conn;
      assert IsNobodys(d, c);
      assert t.sessions[k].conn != c;
    }
  }

  lemma ApartConns(z: Sizes, d: Desk, j: nat, k: nat)
    requires DeskOk(z, d) && j < |d.sessions| && k < |d.sessions| && j != k
    ensures d.sessions[j].conn != d.sessions[k].conn
    ensures Live(d.sessions[j]) && Live(d.sessions[k]) ==> d.sessions[j].chain.sid != d.sessions[k].chain.sid
  {
    hide SessionOk, Owned, On;
    assert j < k ==> Apart(d, j, k);
    assert k < j ==> Apart(d, k, j);
  }

  lemma OtherOk(z: Sizes, d: Desk, t: Desk, k: nat, j: nat)
    requires DeskOk(z, d) && OnlyTouches(d, t, k) && j < |d.sessions| && j != k && d.sessions[j].conn != d.sessions[k].conn
    ensures SessionOk(z, t, j)
  {
    hide Inv, Quiet, On;
    assert SessionOk(z, d, j);
    var c := d.sessions[j].conn;
    if d.sessions[j].since == None && c in t.closed {
      var sid :| sid in d.conns && sid !in t.conns && d.conns[sid] == c;
      assert Owned(d, sid);
      var l :| 0 <= l < |d.sessions| && Holds(d, l) && d.sessions[l].chain.sid == sid;
      ApartConns(z, d, l, j);
      assert false;
    }
  }

  // ---- move by move ----

  lemma LaunchKeeps(z: Sizes, d: Desk, m: Move)
    requires DeskOk(z, d) && m.Launch? && CanMove(d, m) && DistinctKeys(m.path)
    ensures DeskOk(z, Moved(z, d, m))
  {
    var t, n := Moved(z, d, m), |d.sessions|;
    FreshInv(z, m.path, m.sid);
    assert IsNobodys(d, m.conn);
    hide Inv, On;
    forall k | 0 <= k < |t.sessions|
      ensures SessionOk(z, t, k)
    {
      if k < n {
        assert SessionOk(z, d, k);
        assert t.sessions[k] == d.sessions[k];
      } else {
        assert t.sessions[n] == Session(Fresh(m.path, m.sid), m.conn, None, false);
      }
    }
    forall a, b | 0 <= a < b < |t.sessions|
      ensures Apart(t, a, b)
    {
      assert b < n ==> Apart(d, a, b);
    }
    forall sid | sid in t.conns
      ensures Owned(t, sid)
    {
      assert Owned(d, sid);
      var j :| 0 <= j < |d.sessions| && Holds(d, j) && d.sessions[j].chain.sid == sid;
      assert Holds(t, j);
    }
    forall c | IsNobodys(t, c)
      ensures On(t.log, c) == []
    {
      assert forall k :: 0 <= k < n ==> t.sessions[k] == d.sessions[k];
      assert IsNobodys(d, c);
    }
  }

  /** In the window, the id a stream gets is no live stream's, and no entry of the table is overwritten. */
  lemma OpenIsFresh(z: Sizes, d: Desk, k: nat)
    requires DeskOk(z, d) && CanMove(d, OpenStream(k)) && InWindow(d)
    ensures d.sessions[k].chain.sid !in d.conns
    ensures forall j :: 0 <= j < |d.sessions| && Live(d.sessions[j]) ==> d.sessions[j].chain.sid != d.sessions[k].chain.sid
  {
    hide Inv, On, Quiet;
    forall j | 0 <= j < |d.sessions| && Live(d.sessions[j])
      ensures d.sessions[j].chain.sid != d.sessions[k].chain.sid
    {
      assert SessionOk(z, d, j);
      NthIdsDiffer(d.sessions[j].since.value, d.calls);
    }
  }

  lemma OpenApart(z: Sizes, d: Desk, k: nat)
    requires DeskOk(z, d) && CanMove(d, OpenStream(k)) && InWindow(d)
    ensures var t := Moved(z, d, OpenStream(k)); forall a, b :: 0 <= a < b < |t.sessions| ==> Apart(t, a, b)
  {
    OpenIsFresh(z, d, k);
    hide Inv, On, Quiet, Holds, Owned, IsNobodys, NthId;
    var t := Moved(z, d, OpenStream(k));
    forall a, b | 0 <= a < b < |t.sessions|
      ensures Apart(t, a, b)
    {
      assert Apart(d, a, b) && SessionOk(z, d, a) && SessionOk(z, d, b);
    }
  }

  lemma OpenKeeps(z: Sizes, d: Desk, k: nat)
    requires DeskOk(z, d) && CanMove(d, OpenStream(k)) && InWindow(d)
    ensures DeskOk(z, Moved(z, d, OpenStream(k)))
  {
    var t, s := Moved(z, d, OpenStream(k)), d.sessions[k];
    OpenIsFresh(z, d, k);
    hide Inv, On;
    forall j | 0 <= j < |t.sessions|
      ensures SessionOk(z, t, j)
    {
      assert SessionOk(z, d, j);
    }
    OpenApart(z, d, k);
    hide Quiet, Apart, NthId;
    forall sid | sid in t.conns
      ensures Owned(t, sid)
    {
      if sid == s.chain.sid {
        assert SessionOk(z, d, k);
        assert Holds(t, k);
      } else {
        assert Owned(d, sid);
        var j :| 0 <= j < |d.sessions| && Holds(d, j) && d.sessions[j].chain.sid == sid;
        assert Holds(t, j);
      }
    }
    forall c | IsNobodys(t, c)
      ensures On(t.log, c) == []
    {
      assert forall j :: 0 <= j < |d.sessions| ==> t.sessions[j].conn == d.sessions[j].conn;
      assert IsNobodys(d, c);
    }
  }

  /** Closing a stream locally takes out its own entry, never another's. */
  lemma CloseLocalKeeps(z: Sizes, d: Desk, k: nat)
    requires DeskOk(z, d) && CanMove(d, CloseLocal(k))
    ensures DeskOk(z, Moved(z, d, CloseLocal(k)))
  {
    hide Inv, On, Quiet;
    var t, sid := Moved(z, d, CloseLocal(k)), d.sessions[k].chain.sid;
    assert SessionOk(z, d, k);
    forall x | x in t.closed && x !in d.closed
      ensures WasRegistered(d, t, x)
    {
      assert sid in d.conns && d.conns[sid] == x && sid !in t.conns;
    }
    OthersKeep(z, d, t, k);
  }

  lemma GoKeeps(z: Sizes, d: Desk, k: nat, step: Step)
    requires DeskOk(z, d) && z.Valid() && CanMove(d, Go(k, step))
    ensures DeskOk(z, Moved(z, d, Go(k, step)))
  {
    var s := d.sessions[k].chain;
    assert SessionOk(z, d, k);
    StepKeeps(z, s, step);
    SameReceived(z, s, step);
    if d.sessions[k].since == None {
      QuietKeeps(z, s, step);
    }
    hide Inv, On, Quiet, Apply, Enabled;
    OthersKeep(z, d, Moved(z, d, Go(k, step)), k);
  }

  lemma SameReceived(z: Sizes, s: State, step: Step)
    requires Shape(s) && Enabled(s, step) && !step.Receive? && !step.LinkEnds?
    ensures var t := Apply(z, s, step); t.received == s.received && t.sid == s.sid && t.listening == s.listening
  {
    StepFrame(z, s, step);
    hide Apply;
  }

  /** The effect of one received cell on the shared table, whichever circuit it is of. */
  lemma ReceivedEffect(b: Inbox, c: Cell)
    requires b.client.Valid()
    ensures var b1 := Received(b, c).0;
      && (forall sid :: sid in b1.conns ==> sid in b.conns && b1.conns[sid] == b.conns[sid])
      && (forall x :: x in b1.closed ==> x in b.closed || exists sid :: sid in b.conns && sid !in b1.conns && b.conns[sid] == x)
      && (c.Data? && Decrypt(b.client, c.blob).1.Some? ==>
            && b1.conns == b.conns && b1.closed == b.closed
            && b1.log == Written(b, c.sid, Decrypt(b.client, c.blob).1.value).log)
      && (!(c.Data? && Decrypt(b.client, c.blob).1.Some?) ==> b1.log == b.log)
  {
    hide Decrypt;
    var b1 := Received(b, c).0;
    forall x | x in b1.closed && x !in b.closed
      ensures exists sid :: sid in b.conns && sid !in b1.conns && b.conns[sid] == x
    {
      if b1.conns == map[] {
        var sid :| sid in b.conns && b.conns[sid] == x;
        assert sid !in b1.conns;
      } else {
        assert c.End? && c.sid in b.conns && c.sid !in b1.conns && b.conns[c.sid] == x;
      }
    }
  }

  lemma ReceiveKeeps(z: Sizes, d: Desk, k: nat)
    requires DeskOk(z, d) && z.Valid() && CanMove(d, ReceiveCell(k))
    ensures DeskOk(z, Moved(z, d, ReceiveCell(k)))
  {
    var s := d.sessions[k].chain;
    var c, t := s.up[0][0], Moved(z, d, ReceiveCell(k));
    assert SessionOk(z, d, k);
    StepKeeps(z, s, Step.Receive);
    TakeFrame(s);
    ReceivedEffect(InboxOf(d, k), c);
    if d.sessions[k].since == None {
      QuietKeeps(z, s, Step.Receive);
    }
    ReceiveWrites(z, d, k);
    ReceiveTouches(z, d, k);
    hide Inv, On, Quiet, Take, Decrypt, Received, OnlyTouches, Apart, Owned, InboxOf;
    if d.sessions[k].since == None {
      NotYetClosed(z, d, t, k);
    }
    OthersKeep(z, d, t, k);
  }

  lemma ReceiveTouches(z: Sizes, d: Desk, k: nat)
    requires DeskOk(z, d) && CanMove(d, ReceiveCell(k))
    ensures var t := Moved(z, d, ReceiveCell(k));
      && OnlyTouches(d, t, k)
      && (forall x :: x in t.closed ==> x in d.closed || WasRegistered(d, t, x))
  {
    var s, t := d.sessions[k].chain, Moved(z, d, ReceiveCell(k));
    ReceivedEffect(InboxOf(d, k), s.up[0][0]);
    ReceiveWrites(z, d, k);
    TakeGives(s);
    hide DeskOk, On, Take, Decrypt, Received;
    forall x | x in t.closed && x !in d.closed
      ensures WasRegistered(d, t, x)
    {
    }
  }

  /** A received chunk goes to the session's own connection, if it is registered, and to no other. */
  lemma ReceiveWrites(z: Sizes, d: Desk, k: nat)
    requires DeskOk(z, d) && CanMove(d, ReceiveCell(k))
    ensures var t, own := Moved(z, d, ReceiveCell(k)), d.sessions[k].conn;
      && (forall c :: c != own ==> On(t.log, c) == On(d.log, c))
      && On(t.log, own) <= t.sessions[k].chain.received
      && (Holds(t, k) ==> On(t.log, own) == t.sessions[k].chain.received)
  {
    var ss, s := d.sessions[k], d.sessions[k].chain;
    var c, t := s.up[0][0], Moved(z, d, ReceiveCell(k));
    assert SessionOk(z, d, k);
    assert UpCell(s, 0, c) && c in s.up[0];
    ReceivedEffect(InboxOf(d, k), c);
    TakeGives(s);
    hide Inv, Quiet, Take, Decrypt, Received, UpCell;
    if c.Data? && Decrypt(s.client, c.blob).1.Some? {
      var plain := Decrypt(s.client, c.blob).1.value;
      assert ss.since.Some? by {
        QuietHasNoData(z, d, k, c);
      }
      forall other
        ensures On(t.log, other)
             == On(d.log, other) + if s.sid in d.conns && d.conns[s.sid] !in d.closed && d.conns[s.sid] == other then [plain] else []
      {
        OnWritten(InboxOf(d, k), s.sid, plain, other);
      }
      if s.sid in d.conns {
        EntryIsOwn(z, d, k);
      }
    }
  }

  lemma QuietHasNoData(z: Sizes, d: Desk, k: nat, c: Cell)
    requires DeskOk(z, d) && k < |d.sessions| && Shape(d.sessions[k].chain) && c in d.sessions[k].chain.up[0] && c.Data?
    ensures d.sessions[k].since.Some?
  {
    assert SessionOk(z, d, k);
  }

  /** What receiving a cell gives the client. */
  lemma TakeGives(s: State)
    requires Shape(s) && s.up[0] != []
    ensures var c := s.up[0][0];
      && Take(s).sid == s.sid
      && Take(s).received
         == s.received + if c.Data? && Decrypt(s.client, c.blob).1.Some? then [Decrypt(s.client, c.blob).1.value] else []
  {
    hide Decrypt;
  }

  /** While a circuit's loop runs, an entry under its stream's id is its own. */
  lemma EntryIsOwn(z: Sizes, d: Desk, k: nat)
    requires DeskOk(z, d) && k < |d.sessions| && d.sessions[k].since.Some? && d.sessions[k].chain.listening
    requires d.sessions[k].chain.sid in d.conns
    ensures Holds(d, k)
  {
    hide SessionOk, On;
    assert Owned(d, d.sessions[k].chain.sid);
    var j :| 0 <= j < |d.sessions| && Holds(d, j) && d.sessions[j].chain.sid == d.sessions[k].chain.sid;
    if j != k {
      ApartConns(z, d, j, k);
    }
  }

  lemma HangUpKeeps(z: Sizes, d: Desk, k: nat)
    requires DeskOk(z, d) && CanMove(d, HangUp(k))
    ensures DeskOk(z, Moved(z, d, HangUp(k)))
  {
    var s, t := d.sessions[k].chain, Moved(z, d, HangUp(k));
    assert SessionOk(z, d, k);
    OutsideKeeps(z, s, s.(listening := false));
    hide Inv, On;
    forall x | x in t.closed && x !in d.closed
      ensures WasRegistered(d, t, x)
    {
      var sid :| sid in d.conns && d.conns[sid] == x;
      assert sid !in t.conns;
    }
    if d.sessions[k].since == None {
      NotYetClosed(z, d, t, k);
    }
    OthersKeep(z, d, t, k);
  }

  lemma NotYetClosed(z: Sizes, d: Desk, t: Desk, k: nat)
    requires DeskOk(z, d) && k < |d.sessions| && d.sessions[k].since == None
    requires forall x :: x in t.closed ==> x in d.closed || WasRegistered(d, t, x)
    ensures d.sessions[k].conn !in t.closed
  {
    hide Inv, On, Quiet;
    assert SessionOk(z, d, k);
    if d.sessions[k].conn in t.closed {
      var sid :| sid in d.conns && sid !in t.conns && d.conns[sid] == d.sessions[k].conn;
      assert Owned(d, sid);
      var l :| 0 <= l < |d.sessions| && Holds(d, l) && d.sessions[l].chain.sid == sid;
      ApartConns(z, d, l, k);
      assert false;
    }
  }

  lemma MoveKeeps(z: Sizes, d: Desk, m: Move)
    requires DeskOk(z, d) && z.Valid() && CanMove(d, m)
    requires (m.Launch? ==> DistinctKeys(m.path)) && (m.OpenStream? ==> InWindow(d))
    ensures DeskOk(z, Moved(z, d, m))
  {
    hide DeskOk, Moved, InWindow;
    match m
    case Launch(_, _, _) => LaunchKeeps(z, d, m);
    case OpenStream(k) => OpenKeeps(z, d, k);
    case CloseLocal(k) => CloseLocalKeeps(z, d, k);
    case Go(k, step) => GoKeeps(z, d, k, step);
    case ReceiveCell(k) => ReceiveKeeps(z, d, k);
    case HangUp(k) => HangUpKeeps(z, d, k);
  }

  lemma {:induction false} DeskRunKeeps(z: Sizes, d: Desk, moves: seq<Move>, t: Desk)
    requires DeskOk(z, d) && z.Valid() && DeskRun(z, d, moves, t)
    ensures DeskOk(z, t)
    decreases |moves|
  {
    if moves != [] {
      hide DeskOk, Moved, InWindow, CanMove;
      MoveKeeps(z, d, moves[0]);
      DeskRunKeeps(z, Moved(z, d, moves[0]), moves[1..], t);
    }
  }

  // ---- what holds in every run of the desk ----

  /** Each application is given an in-order prefix of what its own circuit's exit read, whatever the other circuits do and
      whenever their loops end: all that its circuit has opened, as long as its entry stands. */
  lemma ApplicationGetsPrefix(z: Sizes, moves: seq<Move>, t: Desk, k: nat)
    requires z.Valid() && DeskRun(z, EMPTY, moves, t) && k < |t.sessions|
    ensures var s, got := t.sessions[k], On(t.log, t.sessions[k].conn);
      && got <= s.chain.received
      && (Holds(t, k) ==> got == s.chain.received)
      && (DownExact(s.chain.hist) && UpExact(s.chain.read, s.chain.lost) ==>
            |got| <= |s.chain.read| && forall i :: 0 <= i < |got| ==> got[i] == Plain(s.chain.read[i]))
  {
    assert DeskOk(z, EMPTY);
    hide Moved, On;
    DeskRunKeeps(z, EMPTY, moves, t);
    assert SessionOk(z, t, k);
    hide DownOk, ExitOk, InStep, TornOk, DownExact, DeskRun;
  }

  /** Every entry of the table is a live session's own, no two sessions share a connection in it, and a connection that is no
      session's is given nothing. */
  lemma TableIsApart(z: Sizes, moves: seq<Move>, t: Desk)
    requires z.Valid() && DeskRun(z, EMPTY, moves, t)
    ensures OneEach(t.conns)
    ensures forall sid :: sid in t.conns ==> Owned(t, sid)
    ensures forall c :: IsNobodys(t, c) ==> On(t.log, c) == []
  {
    DeskRunKeeps(z, EMPTY, moves, t);
    hide DeskRun, SessionOk, On, Moved;
    forall a, b | a in t.conns && b in t.conns && a != b
      ensures t.conns[a] != t.conns[b]
    {
      assert Owned(t, a) && Owned(t, b);
      var i :| 0 <= i < |t.sessions| && Holds(t, i) && t.sessions[i].chain.sid == a;
      var j :| 0 <= j < |t.sessions| && Holds(t, j) && t.sessions[j].chain.sid == b;
      ApartConns(z, t, i, j);
    }
  }

  /** Within the window, opening a stream never overwrites an entry. */
  lemma OpenOverwritesNothing(z: Sizes, moves: seq<Move>, t: Desk, k: nat)
    requires z.Valid() && DeskRun(z, EMPTY, moves, t) && CanMove(t, OpenStream(k)) && InWindow(t)
    ensures t.sessions[k].chain.sid !in t.conns
  {
    DeskRunKeeps(z, EMPTY, moves, t);
    OpenIsFresh(z, t, k);
  }
}

/** The bytes that come up a chain of relays, from the first EXTEND to the last cell. On every link answers to EXTEND come
    first and cells after, with nothing in between to tell them apart; a relay reads answers in the handler of EXTEND and
    cells in a reader it starts later. */
module Wire {
  import opened MachineInts
  import opened Nonces
  import opened Wrappers
  import opened Onion
  import opened RelaySpec
  import opened Cells
  import opened Framing

  /** The payload encoding: how a cell is put into bytes, and what bytes mean. */
  datatype Codec = Codec(pack: Cell -> RawCell, unpack: RawCell -> Cell)
  {
    ghost predicate Valid(z: Sizes) {
      forall c :: Fits(z, c) ==> WellFormed(pack(c))
    }
  }

  // ---- one link ----

  /** A link upwards: the bytes on it, all bytes ever written on it, and what was written and read. */
  datatype Link = Link(
    bytes: seq<byte>, wrote: seq<byte>,
    answered: seq<Answer>, taken: seq<seq<byte>>,
    sent: seq<Frame>, got: seq<(WireId, RawCell)>)

  function Answering(l: Link, id: WireId, payload: seq<byte>): Link {
    l.(bytes := l.bytes + CreatedFrame(id, payload), wrote := l.wrote + CreatedFrame(id, payload),
       answered := l.answered + [Answer(id, payload)])
  }

  /** A cell over the size bound is refused. */
  function Sending(l: Link, id: WireId, c: RawCell, noise: nat -> byte): Link {
    if |c.payload| > MAX_PAYLOAD_SIZE then l else
    var f := Frame(id, c, Padding(MAX_PAYLOAD_SIZE - |c.payload|, noise));
    var frame := CellFrame(f.id, f.cell, f.pad);
    l.(bytes := l.bytes + frame, wrote := l.wrote + frame, sent := l.sent + [f])
  }

  function TakingAnswer(l: Link, strict: bool): Link
    requires ParseCreated(l.bytes, strict).0.Some?
  {
    var p := ParseCreated(l.bytes, strict);
    l.(bytes := p.1, taken := l.taken + [p.0.value])
  }

  function TakingCell(l: Link): Link
    requires ParseCell(l.bytes).0.Some?
  {
    var p := ParseCell(l.bytes);
    l.(bytes := p.1, got := l.got + [p.0.value])
  }

  /** Everything written is answers first and then cells; what was read is what was written, and the bytes left on the link
      begin where an answer or a cell begins. */
  ghost predicate LinkOk(l: Link) {
    && AllAnswers(l.answered) && AllSendable(l.sent)
    && l.wrote == CreatedBytes(l.answered) + CellBytes(l.sent)
    && AnswersRead(l.answered, l.taken) && CellsRead(l.sent, l.got)
    && l.bytes == CreatedBytes(l.answered[|l.taken|..]) + CellBytes(l.sent[|l.got|..])
  }

  /** The answers read are the first ones written. */
  ghost predicate AnswersRead(answered: seq<Answer>, taken: seq<seq<byte>>) {
    |taken| <= |answered| && forall k :: 0 <= k < |taken| ==> taken[k] == answered[k].payload
  }

  ghost predicate CellsRead(sent: seq<Frame>, got: seq<(WireId, RawCell)>) {
    |got| <= |sent| && forall k :: 0 <= k < |got| ==> got[k] == (sent[k].id, sent[k].cell)
  }

  /** Answers written and not yet read. */
  function Outstanding(l: Link): nat {
    if |l.taken| <= |l.answered| then |l.answered| - |l.taken| else 0
  }

  lemma {:induction false} CreatedAppend(cs: seq<Answer>, a: Answer)
    ensures CreatedBytes(cs + [a]) == CreatedBytes(cs) + CreatedFrame(a.id, a.payload)
    decreases |cs|
  {
    hide CreatedFrame;
    if cs == [] {
      assert cs + [a] == [a] && CreatedBytes([a][1..]) == [];
    } else {
      CreatedAppend(cs[1..], a);
      assert (cs + [a])[1..] == cs[1..] + [a];
    }
  }

  lemma {:induction false} CellsAppend(fs: seq<Frame>, f: Frame)
    requires AllSendable(fs) && Sendable(f)
    ensures AllSendable(fs + [f]) && CellBytes(fs + [f]) == CellBytes(fs) + CellFrame(f.id, f.cell, f.pad)
    decreases |fs|
  {
    hide CellFrame, Sendable;
    if fs == [] {
      assert fs + [f] == [f] && CellBytes([f][1..]) == [];
    } else {
      CellsAppend(fs[1..], f);
      assert (fs + [f])[1..] == fs[1..] + [f];
    }
  }

  lemma CreatedAfter(cs: seq<Answer>, from: nat, a: Answer)
    requires from <= |cs|
    ensures CreatedBytes((cs + [a])[from..]) == CreatedBytes(cs[from..]) + CreatedFrame(a.id, a.payload)
  {
    CreatedAppend(cs[from..], a);
    assert (cs + [a])[from..] == cs[from..] + [a];
  }

  lemma CellsAfter(before: seq<byte>, fs: seq<Frame>, from: nat, f: Frame)
    requires from <= |fs| && AllSendable(fs) && Sendable(f)
    ensures AllSendable(fs + [f]) && AllSendable((fs + [f])[from..]) && AllSendable(fs[from..])
    ensures before + CellBytes((fs + [f])[from..]) == before + CellBytes(fs[from..]) + CellFrame(f.id, f.cell, f.pad)
  {
    CellsAppend(fs[from..], f);
    assert (fs + [f])[from..] == fs[from..] + [f];
    hide CellBytes, CellFrame, Sendable;
  }

  /** An answer may be written only while no cell has been. */
  lemma AnsweringOk(l: Link, id: WireId, payload: seq<byte>)
    requires LinkOk(l) && l.sent == [] && 0 < |payload| < 0x1_0000
    ensures LinkOk(Answering(l, id, payload)) && Outstanding(Answering(l, id, payload)) == Outstanding(l) + 1
  {
    var a := Answer(id, payload);
    MoreAnswers(l.answered, l.taken, a);
    hide CreatedFrame, AllAnswers, AnswersRead;
    assert |l.taken| <= |l.answered| && l.sent[|l.got|..] == l.sent;
    CreatedAppend(l.answered, a);
    CreatedAfter(l.answered, |l.taken|, a);
    hide CreatedBytes;
    NoCells(CreatedBytes(l.answered));
    NoCells(l.wrote + CreatedFrame(id, payload));
    NoCells(CreatedBytes(l.answered[|l.taken|..]));
    NoCells(l.bytes + CreatedFrame(id, payload));
  }

  lemma MoreAnswers(answered: seq<Answer>, taken: seq<seq<byte>>, a: Answer)
    requires AllAnswers(answered) && AnswersRead(answered, taken) && 0 < |a.payload| < 0x1_0000
    ensures AllAnswers(answered + [a]) && AnswersRead(answered + [a], taken) && |taken| <= |answered|
  {
  }

  lemma NoCells(before: seq<byte>)
    ensures before + CellBytes([]) == before
  {
  }

  /** A cell may be written only when no answer is outstanding. */
  lemma SendingOk(l: Link, id: WireId, c: RawCell, noise: nat -> byte)
    requires LinkOk(l) && Outstanding(l) == 0 && WellFormed(c)
    ensures LinkOk(Sending(l, id, c, noise)) && Outstanding(Sending(l, id, c, noise)) == 0
  {
    var f := Frame(id, c, Padding(MAX_PAYLOAD_SIZE - |c.payload|, noise));
    assert Sendable(f) && l.sent[0..] == l.sent && (l.sent + [f])[0..] == l.sent + [f];
    hide CreatedBytes, AllAnswers, Padding, Sendable, CellBytes, CellFrame, AllSendable;
    CellsAfter(CreatedBytes(l.answered), l.sent, 0, f);
    CellsAfter(CreatedBytes(l.answered[|l.taken|..]), l.sent, |l.got|, f);
  }

  /** An outstanding answer is what a reader of answers finds, strict or not. */
  lemma TakingAnswerOk(l: Link, strict: bool)
    requires LinkOk(l) && Outstanding(l) > 0
    ensures ParseCreated(l.bytes, strict).0 == Some(l.answered[|l.taken|].payload)
    ensures LinkOk(TakingAnswer(l, strict)) && Outstanding(TakingAnswer(l, strict)) == Outstanding(l) - 1
  {
    var a, rest := l.answered[|l.taken|], l.answered[|l.taken| + 1..];
    var more := CreatedBytes(rest) + CellBytes(l.sent[|l.got|..]);
    hide CellBytes, CreatedFrame, AllSendable, CellsRead, ParseCreated;
    assert l.answered[|l.taken|..][1..] == rest;
    assert l.bytes == CreatedFrame(a.id, a.payload) + more;
    CreatedFrameParses(a.id, a.payload, more, strict);
    hide CreatedBytes;
  }

  /** With no answer outstanding, what a reader of cells finds is the next cell written, if there is one. */
  lemma TakingCellOk(l: Link)
    requires LinkOk(l) && Outstanding(l) == 0
    ensures l.bytes == CellBytes(l.sent[|l.got|..]) && (l.bytes == [] <==> |l.got| == |l.sent|)
    ensures ParseCell(l.bytes).0
      == if |l.got| < |l.sent| then Some((l.sent[|l.got|].id, l.sent[|l.got|].cell)) else None
    ensures |l.got| < |l.sent| ==> LinkOk(TakingCell(l)) && Outstanding(TakingCell(l)) == 0
  {
    assert l.answered[|l.taken|..] == [];
    if |l.got| < |l.sent| {
      var f, rest := l.sent[|l.got|], l.sent[|l.got| + 1..];
      assert l.sent[|l.got|..][1..] == rest && Sendable(f);
      assert l.bytes == CellFrame(f.id, f.cell, f.pad) + CellBytes(rest);
      CellFrameParses(f.id, f.cell, f.pad, CellBytes(rest));
      hide CreatedBytes, CellFrame, ParseCell;
    } else {
      assert l.sent[|l.got|..] == [];
    }
  }

  /** Nothing written, nothing to read. */
  lemma NothingToTake(l: Link, strict: bool)
    requires LinkOk(l) && Outstanding(l) == 0 && l.sent == []
    ensures l.bytes == [] && ParseCreated(l.bytes, strict).0 == None
  {
    assert l.answered[|l.taken|..] == [];
  }

  // ---- the chain ----

  datatype Msg = Extend | Ordinary(cell: Cell)

  /** A relay, as far as the circuit goes: its state, whether the handler of EXTEND is waiting for an answer from below,
      whether an upward loop is running, and the cells it has handled from above. */
  datatype Node = Node(hop: Option<Hop>, waiting: bool, looping: bool, handled: seq<Cell>)

  /** `ups[i]` leads from relay `i` up, `down[i]` down to it. The client is either building, and then waiting for an answer or
      not, or talking. */
  datatype State = State(id: WireId, talking: bool, awaiting: bool, nodes: seq<Node>, down: seq<seq<Msg>>, ups: seq<Link>)

  /** What a relay makes of EXTEND for a new circuit, if key exchange and dial succeed. */
  datatype Made = Made(id: Ident, payload: seq<byte>)

  datatype Step =
    | Ask
    | ReadAnswer
    | StartTalking
    | Talk(cell: Cell)
    | ReadCell
    | Handling(i: nat, made: Option<Made>, env: Env, noise: nat -> byte)
    | PassAnswer(i: nat)
    | ReadBelow(i: nat, env: Env, noise: nat -> byte)
    | LoopSends(i: nat, cell: Cell, noise: nat -> byte)

  predicate Shape(s: State) {
    1 <= |s.nodes| == |s.down| == |s.ups|
  }

  function Unbuilt(id: WireId, n: nat): State {
    State(id, false, false, seq(n, _ => Node(None, false, false, [])), seq(n, _ => []), seq(n, _ => Link([], [], [], [], [], [])))
  }

  predicate Known(nd: Node) {
    nd.hop.Some? && nd.hop.value.alive
  }

  /** The reader of cells on the downward connection runs. */
  predicate Served(nd: Node) {
    nd.hop.Some? && nd.hop.value.served
  }

  predicate Enabled(z: Sizes, s: State, step: Step)
    requires Shape(s)
  {
    match step
    case Ask => !s.talking && !s.awaiting
    case ReadAnswer => s.awaiting && ParseCreated(s.ups[0].bytes, true).0.Some?
    case StartTalking => !s.talking && !s.awaiting
    case Talk(_) => s.talking
    case ReadCell => s.talking && ParseCell(s.ups[0].bytes).0.Some?
    case Handling(i, made, _, _) =>
      i < |s.nodes| && !s.nodes[i].waiting && s.down[i] != [] && (made.Some? ==> 0 < |made.value.payload| < 0x1_0000)
    case PassAnswer(i) => i + 1 < |s.nodes| && s.nodes[i].waiting && ParseCreated(s.ups[i + 1].bytes, false).0.Some?
    case ReadBelow(i, _, _) => i + 1 < |s.nodes| && Served(s.nodes[i]) && ParseCell(s.ups[i + 1].bytes).0.Some?
    case LoopSends(i, c, _) => i < |s.nodes| && s.nodes[i].looping && Fits(z, c)
  }

  /** A reply put into effect: a cell for the link up is encoded, one for the link down too. */
  function Effect(k: Codec, s: State, i: nat, r: Reply, noise: nat -> byte): (t: State)
    requires Shape(s) && i < |s.nodes|
    ensures Shape(t) && |t.nodes| == |s.nodes|
  {
    s.(nodes := s.nodes[i := s.nodes[i].(hop := Some(r.hop), looping := s.nodes[i].looping || r.loop.Some?)],
       down := if i + 1 < |s.down| && r.down != [] then s.down[i + 1 := s.down[i + 1] + [Ordinary(r.down[0])]] else s.down,
       ups := if r.up != [] then s.ups[i := Sending(s.ups[i], s.id, k.pack(r.up[0]), noise)] else s.ups)
  }

  /** Nothing of a relay's reply is missing from the wire: its state, and the cell for the link up or down, if there is one. */
  lemma RepliesAreWritten(z: Sizes, k: Codec, s: State, i: nat, h: Hop, c: Cell, env: Env, noise: nat -> byte)
    requires Shape(s) && i < |s.nodes| && k.Valid(z)
    ensures var r := Handle(z, h, c, env); var t := Effect(k, s, i, r, noise);
      && t.nodes[i].hop == Some(r.hop) && t.nodes[i].looping == (s.nodes[i].looping || r.loop.Some?)
      && (forall d :: d in r.up ==>
            && |k.pack(d).payload| <= MAX_PAYLOAD_SIZE
            && t.ups[i].sent == s.ups[i].sent + [Frame(s.id, k.pack(d), Padding(MAX_PAYLOAD_SIZE - |k.pack(d).payload|, noise))])
      && (r.up == [] ==> t.ups == s.ups)
      && (forall d :: d in r.down && i + 1 < |s.nodes| ==> t.down == s.down[i + 1 := s.down[i + 1] + [Ordinary(d)]])
      && (r.down == [] ==> t.down == s.down)
  {
    OneEvent(z, h, c, env);
    Woken(z, h, c, env);
    hide Handle, CellFrame, Padding;
  }

  /** EXTEND at relay `i`: a relay that knows the circuit passes it on and waits. */
  function Extending(s: State, i: nat, made: Option<Made>): (t: State)
    requires Shape(s) && i < |s.nodes|
    ensures Shape(t) && |t.nodes| == |s.nodes|
  {
    if Known(s.nodes[i]) then
      if i + 1 < |s.nodes| then
        s.(nodes := s.nodes[i := s.nodes[i].(waiting := true)], down := s.down[i + 1 := s.down[i + 1] + [Extend]])
      else s
    else if made == None then s
    else
      var m := made.value;
      s.(nodes := s.nodes[i := s.nodes[i].(hop := Some(FreshHop(m.id.key, m.id.base, i + 1 < |s.nodes|)))],
         ups := s.ups[i := Answering(s.ups[i], s.id, m.payload)])
  }

  function Apply(z: Sizes, k: Codec, s: State, step: Step): (t: State)
    requires Shape(s) && Enabled(z, s, step)
    ensures Shape(t) && |t.nodes| == |s.nodes|
  {
    match step
    case Ask => s.(awaiting := true, down := s.down[0 := s.down[0] + [Extend]])
    case ReadAnswer => s.(awaiting := false, ups := s.ups[0 := TakingAnswer(s.ups[0], true)])
    case StartTalking => s.(talking := true)
    case Talk(c) => s.(down := s.down[0 := s.down[0] + [Ordinary(c)]])
    case ReadCell => s.(ups := s.ups[0 := TakingCell(s.ups[0])])
    case Handling(i, made, env, noise) =>
      var m, s1 := s.down[i][0], s.(down := s.down[i := s.down[i][1..]]);
      match m {
        case Extend => Extending(s1, i, made)
        case Ordinary(c) =>
          if !Known(s.nodes[i]) then s1 else
          var s2 := s1.(nodes := s.nodes[i := s.nodes[i].(handled := s.nodes[i].handled + [c])]);
          Effect(k, s2, i, Handle(z, s.nodes[i].hop.value, c, env), noise)
      }
    case PassAnswer(i) =>
      var payload := ParseCreated(s.ups[i + 1].bytes, false).0.value;
      s.(nodes := s.nodes[i := s.nodes[i].(waiting := false)],
         ups := s.ups[i + 1 := TakingAnswer(s.ups[i + 1], false)][i := Answering(s.ups[i], s.id, payload)])
    case ReadBelow(i, env, noise) =>
      var c := k.unpack(ParseCell(s.ups[i + 1].bytes).0.value.1);
      var s1 := s.(ups := s.ups[i + 1 := TakingCell(s.ups[i + 1])]);
      Effect(k, s1, i, Handle(z, s.nodes[i].hop.value, c, env), noise)
    case LoopSends(i, c, noise) => s.(ups := s.ups[i := Sending(s.ups[i], s.id, k.pack(c), noise)])
  }

  ghost predicate Reaches(z: Sizes, k: Codec, s: State, steps: seq<Step>, t: State)
    requires Shape(s)
    decreases |steps|
  {
    if steps == [] then s == t else Enabled(z, s, steps[0]) && Reaches(z, k, Apply(z, k, s, steps[0]), steps[1..], t)
  }

  // ---- what every run keeps ----

  /** While the client builds: nothing but EXTENDs and answers, each waited for by exactly one. */
  ghost predicate Building(nd: Node, q: seq<Msg>, l: Link, expected: nat) {
    && (forall m :: m in q ==> m.Extend?)
    && l.sent == [] && nd.handled == [] && !nd.looping
    && (nd.hop.Some? ==> nd.hop.value.alive && !nd.hop.value.served) && (nd.waiting ==> nd.hop.Some?)
    && Outstanding(l) + |q| + (if nd.waiting then 1 else 0) <= expected
  }

  /** While it talks: no EXTEND and no answer anywhere, and nobody waiting for one. */
  ghost predicate Talking(nd: Node, q: seq<Msg>, l: Link) {
    && (forall m :: m in q ==> m.Ordinary?)
    && Outstanding(l) == 0 && !nd.waiting
    && (Served(nd) ==> exists c :: c in nd.handled && Wakes(c))
  }

  /** A relay's answers are its own and then those it was given from below. */
  ghost predicate Own(hop: Option<Hop>, answered: seq<Answer>, below: seq<seq<byte>>) {
    if hop == None then answered == [] && below == []
    else |answered| == 1 + |below| && forall j :: 0 <= j < |below| ==> answered[1 + j].payload == below[j]
  }

  /** What holds at one relay, of which `expected` answers are expected above, and which was given `below`. */
  ghost predicate NodeOk(talking: bool, nd: Node, q: seq<Msg>, l: Link, expected: nat, below: seq<seq<byte>>) {
    LinkOk(l) && Own(nd.hop, l.answered, below) && if talking then Talking(nd, q, l) else Building(nd, q, l, expected)
  }

  /** How many answers are expected on the link up from relay `i`. */
  function Expected(s: State, i: nat): nat
    requires Shape(s) && i < |s.nodes|
  {
    if (if i == 0 then s.awaiting else s.nodes[i - 1].waiting) then 1 else 0
  }

  /** The answers relay `i` has read from below. */
  function Below(s: State, i: nat): seq<seq<byte>>
    requires Shape(s) && i < |s.nodes|
  {
    if i + 1 < |s.nodes| then s.ups[i + 1].taken else []
  }

  ghost predicate At(s: State, i: nat)
    requires Shape(s) && i < |s.nodes|
  {
    NodeOk(s.talking, s.nodes[i], s.down[i], s.ups[i], Expected(s, i), Below(s, i))
  }

  ghost predicate Inv(s: State) {
    Shape(s) && (s.talking ==> !s.awaiting) && forall i :: 0 <= i < |s.nodes| ==> At(s, i)
  }

  lemma UnbuiltInv(id: WireId, n: nat)
    requires n >= 1
    ensures Inv(Unbuilt(id, n))
  {
    var s := Unbuilt(id, n);
    forall i | 0 <= i < n
      ensures At(s, i)
    {
      assert LinkOk(s.ups[i]);
    }
  }

  /** When nobody waits at the client's end, nobody waits anywhere. */
  lemma {:induction false} AllQuiet(s: State, i: nat)
    requires Inv(s) && !s.talking && !s.awaiting && i < |s.nodes|
    ensures s.down[i] == [] && Outstanding(s.ups[i]) == 0 && !s.nodes[i].waiting
  {
    hide LinkOk, Own;
    assert At(s, i);
    if i > 0 {
      AllQuiet(s, i - 1);
    }
  }

  // ---- the client ----

  lemma AskHere(s: State)
    requires Inv(s) && !s.talking && !s.awaiting
    ensures NodeOk(s.talking, s.nodes[0], s.down[0] + [Extend], s.ups[0], 1, Below(s, 0))
  {
    AllQuiet(s, 0);
    assert At(s, 0);
    hide LinkOk, Own;
  }

  lemma AskKeeps(z: Sizes, k: Codec, s: State)
    requires Inv(s) && Enabled(z, s, Ask)
    ensures Inv(Apply(z, k, s, Ask))
  {
    hide NodeOk;
    AskHere(s);
    var t := Apply(z, k, s, Ask);
    forall i | 0 <= i < |s.nodes|
      ensures At(t, i)
    {
      assert At(s, i);
    }
  }

  lemma StartKeeps(z: Sizes, k: Codec, s: State)
    requires Inv(s) && Enabled(z, s, StartTalking)
    ensures Inv(Apply(z, k, s, StartTalking))
  {
    hide LinkOk, Own;
    forall i | 0 <= i < |s.nodes|
      ensures At(Apply(z, k, s, StartTalking), i)
    {
      assert At(s, i);
      AllQuiet(s, i);
    }
  }

  /** What is taken off a link by a reader of answers was outstanding, and the reader runs only while the client builds. */
  lemma AwaitedAnswer(s: State, i: nat, strict: bool)
    requires Inv(s) && i < |s.nodes| && Expected(s, i) == 1 && ParseCreated(s.ups[i].bytes, strict).0.Some?
    ensures !s.talking && Outstanding(s.ups[i]) == 1 && s.down[i] == [] && !s.nodes[i].waiting
  {
    hide Own, ParseCreated;
    assert (i > 0 ==> At(s, i - 1)) && At(s, i);
    if !s.talking && Outstanding(s.ups[i]) == 0 {
      NothingToTake(s.ups[i], strict);
    }
  }

  lemma ReadAnswerHere(s: State)
    requires Inv(s) && s.awaiting && ParseCreated(s.ups[0].bytes, true).0.Some?
    ensures NodeOk(s.talking, s.nodes[0], s.down[0], TakingAnswer(s.ups[0], true), 0, Below(s, 0))
  {
    assert At(s, 0);
    AwaitedAnswer(s, 0, true);
    TakingAnswerOk(s.ups[0], true);
    hide LinkOk, Own, ParseCreated;
  }

  lemma ReadAnswerKeeps(z: Sizes, k: Codec, s: State)
    requires Inv(s) && Enabled(z, s, ReadAnswer)
    ensures Inv(Apply(z, k, s, ReadAnswer))
  {
    hide NodeOk, ParseCreated, TakingAnswer;
    ReadAnswerHere(s);
    var t := Apply(z, k, s, ReadAnswer);
    forall i | 0 <= i < |s.nodes|
      ensures At(t, i)
    {
      assert At(s, i);
    }
  }

  // ---- EXTEND at the relays ----

  /** The answer handed up is the one just read below. */
  lemma PassOwn(hop: Option<Hop>, answered: seq<Answer>, below: seq<seq<byte>>, a: Answer)
    requires hop.Some? && Own(hop, answered, below)
    ensures Own(hop, answered + [a], below + [a.payload])
  {
  }

  /** One answer is read from the link below relay `i`, and sent up. */
  lemma PassHere(s: State, i: nat, payload: seq<byte>)
    requires Inv(s) && i + 1 < |s.nodes| && s.nodes[i].waiting && 0 < |payload| < 0x1_0000
    ensures NodeOk(s.talking, s.nodes[i].(waiting := false), s.down[i], Answering(s.ups[i], s.id, payload), Expected(s, i), Below(s, i) + [payload])
  {
    assert At(s, i);
    PassOwn(s.nodes[i].hop, s.ups[i].answered, Below(s, i), Answer(s.id, payload));
    AnsweringOk(s.ups[i], s.id, payload);
    hide LinkOk, Own, CreatedFrame;
  }

  lemma PassBelow(s: State, i: nat)
    requires Inv(s) && i + 1 < |s.nodes| && s.nodes[i].waiting && ParseCreated(s.ups[i + 1].bytes, false).0.Some?
    ensures NodeOk(s.talking, s.nodes[i + 1], s.down[i + 1], TakingAnswer(s.ups[i + 1], false), 0, Below(s, i + 1))
    ensures 0 < |ParseCreated(s.ups[i + 1].bytes, false).0.value| < 0x1_0000
  {
    assert At(s, i + 1);
    AwaitedAnswer(s, i + 1, false);
    TakingAnswerOk(s.ups[i + 1], false);
    hide LinkOk, Own, ParseCreated;
  }

  lemma PassKeeps(z: Sizes, k: Codec, s: State, i: nat)
    requires Inv(s) && Enabled(z, s, PassAnswer(i))
    ensures Inv(Apply(z, k, s, PassAnswer(i)))
  {
    hide NodeOk, ParseCreated, CreatedFrame;
    var payload := ParseCreated(s.ups[i + 1].bytes, false).0.value;
    PassBelow(s, i);
    PassHere(s, i, payload);
    var low, high := TakingAnswer(s.ups[i + 1], false), Answering(s.ups[i], s.id, payload);
    assert low.taken == Below(s, i) + [payload] && high.taken == s.ups[i].taken;
    hide TakingAnswer, Answering;
    var t := Apply(z, k, s, PassAnswer(i));
    forall j | 0 <= j < |s.nodes|
      ensures At(t, j)
    {
      assert At(s, j);
    }
  }

  /** While the client builds, an EXTEND at relay `i` is the only thing under way there. */
  lemma OneExtend(s: State, i: nat)
    requires Shape(s) && i < |s.nodes| && At(s, i) && s.down[i] != [] && s.down[i][0].Extend?
    ensures !s.talking && s.down[i] == [Extend] && Outstanding(s.ups[i]) == 0 && !s.nodes[i].waiting && Expected(s, i) == 1
    ensures s.nodes[i].hop.Some? ==> Known(s.nodes[i])
    ensures s.ups[i].sent == []
  {
    hide LinkOk, Own;
    assert s.down[i][0] in s.down[i];
  }

  /** Relay `i` passes EXTEND on: it is now the one that waits. */
  lemma ForwardHere(s: State, i: nat)
    requires Inv(s) && i + 1 < |s.nodes| && s.down[i] == [Extend] && Known(s.nodes[i])
    ensures NodeOk(s.talking, s.nodes[i].(waiting := true), [], s.ups[i], Expected(s, i), Below(s, i))
    ensures NodeOk(s.talking, s.nodes[i + 1], s.down[i + 1] + [Extend], s.ups[i + 1], 1, Below(s, i + 1))
  {
    assert At(s, i) && At(s, i + 1);
    OneExtend(s, i);
    hide LinkOk, Own;
    ForwardNode(s.nodes[i], s.ups[i], Expected(s, i), Below(s, i));
    ForwardNext(s.nodes[i + 1], s.down[i + 1], s.ups[i + 1], Expected(s, i + 1), Below(s, i + 1));
  }

  lemma ForwardNode(nd: Node, l: Link, expected: nat, below: seq<seq<byte>>)
    requires NodeOk(false, nd, [Extend], l, expected, below) && nd.hop.Some? && !nd.waiting
    ensures NodeOk(false, nd.(waiting := true), [], l, expected, below)
  {
    hide LinkOk;
  }

  lemma ForwardNext(nd: Node, q: seq<Msg>, l: Link, expected: nat, below: seq<seq<byte>>)
    requires NodeOk(false, nd, q, l, expected, below) && expected == 0
    ensures NodeOk(false, nd, q + [Extend], l, 1, below)
  {
    hide LinkOk;
  }

  lemma ForwardKeeps(s: State, i: nat)
    requires Inv(s) && i + 1 < |s.nodes| && s.down[i] == [Extend] && Known(s.nodes[i])
    ensures Inv(Extending(s.(down := s.down[i := []]), i, None))
  {
    hide NodeOk;
    ForwardHere(s, i);
    var t := Extending(s.(down := s.down[i := []]), i, None);
    forall j | 0 <= j < |s.nodes|
      ensures At(t, j)
    {
      assert At(s, j);
    }
  }

  /** Relay `i` answers. */
  lemma AnswerHere(s: State, i: nat, made: Made)
    requires Inv(s) && i < |s.nodes| && s.down[i] == [Extend] && s.nodes[i].hop == None && 0 < |made.payload| < 0x1_0000
    ensures var hop := Some(FreshHop(made.id.key, made.id.base, i + 1 < |s.nodes|));
      NodeOk(s.talking, s.nodes[i].(hop := hop), [], Answering(s.ups[i], s.id, made.payload), Expected(s, i), Below(s, i))
  {
    assert At(s, i);
    OneExtend(s, i);
    AnsweringOk(s.ups[i], s.id, made.payload);
    hide LinkOk, CreatedFrame;
  }

  lemma AnswerKeeps(s: State, i: nat, made: Made)
    requires Inv(s) && i < |s.nodes| && s.down[i] == [Extend] && s.nodes[i].hop == None && 0 < |made.payload| < 0x1_0000
    ensures Inv(Extending(s.(down := s.down[i := []]), i, Some(made)))
  {
    hide NodeOk, CreatedFrame;
    AnswerHere(s, i, made);
    assert Answering(s.ups[i], s.id, made.payload).taken == s.ups[i].taken;
    hide Answering;
    var t := Extending(s.(down := s.down[i := []]), i, Some(made));
    forall j | 0 <= j < |s.nodes|
      ensures At(t, j)
    {
      assert At(s, j);
    }
  }

  /** One message less to handle, or while the client talks one cell more. */
  lemma OtherQueue(talking: bool, nd: Node, q: seq<Msg>, l: Link, expected: nat, below: seq<seq<byte>>, c: Cell)
    requires NodeOk(talking, nd, q, l, expected, below)
    ensures q != [] ==> NodeOk(talking, nd, q[1..], l, expected, below)
    ensures talking ==> NodeOk(talking, nd, q + [Ordinary(c)], l, expected, below)
  {
    hide LinkOk, Own;
  }

  lemma OneQueue(s: State, i: nat, q: seq<Msg>)
    requires Inv(s) && i < |s.nodes|
    requires NodeOk(s.talking, s.nodes[i], q, s.ups[i], Expected(s, i), Below(s, i))
    ensures Inv(s.(down := s.down[i := q]))
  {
    hide NodeOk;
    var t := s.(down := s.down[i := q]);
    forall j | 0 <= j < |s.nodes|
      ensures At(t, j)
    {
      assert At(s, j);
    }
  }

  /** EXTEND comes to nothing, or a cell is dropped. */
  lemma DroppedKeeps(s: State, i: nat)
    requires Inv(s) && i < |s.nodes| && s.down[i] != []
    ensures Inv(s.(down := s.down[i := s.down[i][1..]]))
  {
    hide NodeOk;
    assert At(s, i);
    OtherQueue(s.talking, s.nodes[i], s.down[i], s.ups[i], Expected(s, i), Below(s, i), Destroy);
    OneQueue(s, i, s.down[i][1..]);
  }

  lemma ExtendKeeps(z: Sizes, k: Codec, s: State, i: nat, made: Option<Made>, env: Env, noise: nat -> byte)
    requires Inv(s) && Enabled(z, s, Handling(i, made, env, noise)) && s.down[i][0].Extend?
    ensures Inv(Apply(z, k, s, Handling(i, made, env, noise)))
  {
    assert At(s, i);
    OneExtend(s, i);
    assert s.down[i][1..] == [];
    hide At, Answering;
    if Known(s.nodes[i]) && i + 1 < |s.nodes| {
      ForwardKeeps(s, i);
    } else if s.nodes[i].hop == None && made.Some? {
      AnswerKeeps(s, i, made.value);
    } else {
      DroppedKeeps(s, i);
    }
  }

  // ---- cells at the relays ----

  /** Whether the node has handled a cell that starts the reader. */
  ghost predicate Awake(nd: Node) {
    exists c :: c in nd.handled && Wakes(c)
  }

  lemma SendHere(z: Sizes, k: Codec, s: State, i: nat, c: Cell, noise: nat -> byte)
    requires k.Valid(z) && Inv(s) && s.talking && i < |s.nodes| && Fits(z, c)
    ensures NodeOk(true, s.nodes[i], s.down[i], Sending(s.ups[i], s.id, k.pack(c), noise), Expected(s, i), Below(s, i))
  {
    assert At(s, i);
    SendingOk(s.ups[i], s.id, k.pack(c), noise);
    hide LinkOk, Own, CellFrame;
  }

  /** A change of one link that leaves alone what relay `i` above it has read of answers. */
  lemma OneLink(s: State, i: nat, l: Link)
    requires Inv(s) && i < |s.nodes| && l.taken == s.ups[i].taken
    requires NodeOk(s.talking, s.nodes[i], s.down[i], l, Expected(s, i), Below(s, i))
    ensures Inv(s.(ups := s.ups[i := l]))
  {
    hide NodeOk;
    var t := s.(ups := s.ups[i := l]);
    forall j | 0 <= j < |s.nodes|
      ensures At(t, j)
    {
      assert At(s, j);
    }
  }

  lemma SendKeeps(z: Sizes, k: Codec, s: State, i: nat, c: Cell, noise: nat -> byte)
    requires k.Valid(z) && Inv(s) && s.talking && i < |s.nodes| && Fits(z, c)
    ensures Inv(s.(ups := s.ups[i := Sending(s.ups[i], s.id, k.pack(c), noise)]))
  {
    hide NodeOk, CellFrame, Fits;
    SendHere(z, k, s, i, c, noise);
    OneLink(s, i, Sending(s.ups[i], s.id, k.pack(c), noise));
  }

  lemma NodeHere(s: State, i: nat, nd: Node)
    requires Inv(s) && s.talking && i < |s.nodes| && s.nodes[i].hop.Some? && nd.hop.Some? && !nd.waiting && (Served(nd) ==> Awake(nd))
    ensures !s.nodes[i].waiting && NodeOk(true, nd, s.down[i], s.ups[i], Expected(s, i), Below(s, i))
  {
    hide LinkOk;
    assert At(s, i);
  }

  lemma NodeKeeps(s: State, i: nat, nd: Node)
    requires Inv(s) && s.talking && i < |s.nodes| && s.nodes[i].hop.Some? && nd.hop.Some? && !nd.waiting && (Served(nd) ==> Awake(nd))
    ensures Inv(s.(nodes := s.nodes[i := nd]))
  {
    hide NodeOk, Awake;
    NodeHere(s, i, nd);
    var t := s.(nodes := s.nodes[i := nd]);
    forall j | 0 <= j < |s.nodes|
      ensures At(t, j)
    {
      assert At(s, j);
    }
  }

  lemma DownKeeps(s: State, i: nat, c: Cell)
    requires Inv(s) && s.talking && i < |s.nodes|
    ensures Inv(s.(down := s.down[i := s.down[i] + [Ordinary(c)]]))
  {
    hide NodeOk;
    assert At(s, i);
    OtherQueue(s.talking, s.nodes[i], s.down[i], s.ups[i], Expected(s, i), Below(s, i), c);
    OneQueue(s, i, s.down[i] + [Ordinary(c)]);
  }

  lemma EffectKeeps(z: Sizes, k: Codec, s: State, i: nat, r: Reply, noise: nat -> byte)
    requires k.Valid(z) && Inv(s) && s.talking && i < |s.nodes| && s.nodes[i].hop.Some? && !s.nodes[i].waiting
    requires (r.up != [] ==> Fits(z, r.up[0])) && (r.hop.served ==> Awake(s.nodes[i]))
    ensures Inv(Effect(k, s, i, r, noise))
  {
    var nd := s.nodes[i].(hop := Some(r.hop), looping := s.nodes[i].looping || r.loop.Some?);
    hide At, Sending, Fits;
    NodeKeeps(s, i, nd);
    var s1 := s.(nodes := s.nodes[i := nd]);
    if i + 1 < |s.nodes| && r.down != [] {
      DownKeeps(s1, i + 1, r.down[0]);
      var s2 := s1.(down := s1.down[i + 1 := s1.down[i + 1] + [Ordinary(r.down[0])]]);
      if r.up != [] {
        SendKeeps(z, k, s2, i, r.up[0], noise);
      }
    } else if r.up != [] {
      SendKeeps(z, k, s1, i, r.up[0], noise);
    }
  }

  /** Cells are handled only while the client talks, and by relays that wait for nothing. */
  lemma HandlesTalking(s: State, i: nat)
    requires Inv(s) && i < |s.nodes|
    requires (s.down[i] != [] && s.down[i][0].Ordinary?) || Served(s.nodes[i]) || s.nodes[i].looping
    ensures s.talking && !s.nodes[i].waiting && (Served(s.nodes[i]) ==> Awake(s.nodes[i]))
  {
    hide LinkOk, Own;
    assert At(s, i);
    assert s.down[i] != [] ==> s.down[i][0] in s.down[i];
  }

  lemma HandledMore(nd: Node, c: Cell)
    ensures var more := nd.(handled := nd.handled + [c]);
      (Awake(nd) || Wakes(c)) ==> Awake(more)
  {
    var more := nd.(handled := nd.handled + [c]);
    assert c in more.handled;
  }

  lemma OrdinaryKeeps(z: Sizes, k: Codec, s: State, i: nat, made: Option<Made>, env: Env, noise: nat -> byte)
    requires k.Valid(z) && Inv(s) && Enabled(z, s, Handling(i, made, env, noise)) && s.down[i][0].Ordinary?
    ensures Inv(Apply(z, k, s, Handling(i, made, env, noise)))
  {
    hide At, Effect, Handle, Fits, Awake, Extending;
    HandlesTalking(s, i);
    DroppedKeeps(s, i);
    var c, s1 := s.down[i][0].cell, s.(down := s.down[i := s.down[i][1..]]);
    if Known(s.nodes[i]) {
      var nd := s.nodes[i].(handled := s.nodes[i].handled + [c]);
      HandledMore(s.nodes[i], c);
      NodeKeeps(s1, i, nd);
      Woken(z, s.nodes[i].hop.value, c, env);
      EffectKeeps(z, k, s1.(nodes := s1.nodes[i := nd]), i, Handle(z, s.nodes[i].hop.value, c, env), noise);
    }
  }

  lemma TakenHere(s: State, i: nat)
    requires Inv(s) && i < |s.nodes| && s.talking && ParseCell(s.ups[i].bytes).0.Some?
    ensures NodeOk(true, s.nodes[i], s.down[i], TakingCell(s.ups[i]), Expected(s, i), Below(s, i))
  {
    assert At(s, i);
    TakingCellOk(s.ups[i]);
    hide LinkOk, Own, ParseCell;
  }

  lemma TakenKeeps(s: State, i: nat)
    requires Inv(s) && i < |s.nodes| && s.talking && ParseCell(s.ups[i].bytes).0.Some?
    ensures Inv(s.(ups := s.ups[i := TakingCell(s.ups[i])]))
  {
    hide NodeOk, ParseCell;
    TakenHere(s, i);
    OneLink(s, i, TakingCell(s.ups[i]));
  }

  lemma ReadBelowKeeps(z: Sizes, k: Codec, s: State, i: nat, env: Env, noise: nat -> byte)
    requires k.Valid(z) && Inv(s) && Enabled(z, s, ReadBelow(i, env, noise))
    ensures Inv(Apply(z, k, s, ReadBelow(i, env, noise)))
  {
    hide At, Effect, Handle, Fits, Awake, TakingCell, ParseCell;
    HandlesTalking(s, i);
    TakenKeeps(s, i + 1);
    var c := k.unpack(ParseCell(s.ups[i + 1].bytes).0.value.1);
    var s1 := s.(ups := s.ups[i + 1 := TakingCell(s.ups[i + 1])]);
    Woken(z, s.nodes[i].hop.value, c, env);
    EffectKeeps(z, k, s1, i, Handle(z, s.nodes[i].hop.value, c, env), noise);
  }

  lemma StepKeeps(z: Sizes, k: Codec, s: State, step: Step)
    requires k.Valid(z) && Inv(s) && Enabled(z, s, step)
    ensures Inv(Apply(z, k, s, step))
  {
    hide At, Effect, Extending, TakingCell, TakingAnswer, Answering, Sending, Handle, ParseCell, ParseCreated, Fits;
    match step
    case Ask => AskKeeps(z, k, s);
    case ReadAnswer => ReadAnswerKeeps(z, k, s);
    case StartTalking => StartKeeps(z, k, s);
    case Talk(c) => DownKeeps(s, 0, c);
    case ReadCell => TakenKeeps(s, 0);
    case Handling(i, made, env, noise) =>
      if s.down[i][0].Extend? {
        ExtendKeeps(z, k, s, i, made, env, noise);
      } else {
        OrdinaryKeeps(z, k, s, i, made, env, noise);
      }
    case PassAnswer(i) => PassKeeps(z, k, s, i);
    case ReadBelow(i, env, noise) => ReadBelowKeeps(z, k, s, i, env, noise);
    case LoopSends(i, c, noise) => LoopSendsKeeps(z, k, s, i, c, noise);
  }

  lemma LoopSendsKeeps(z: Sizes, k: Codec, s: State, i: nat, c: Cell, noise: nat -> byte)
    requires k.Valid(z) && Inv(s) && Enabled(z, s, LoopSends(i, c, noise))
    ensures Inv(Apply(z, k, s, LoopSends(i, c, noise)))
  {
    hide At, Sending;
    HandlesTalking(s, i);
    SendKeeps(z, k, s, i, c, noise);
  }

  lemma {:induction false} RunKeeps(z: Sizes, k: Codec, s: State, steps: seq<Step>, t: State)
    requires k.Valid(z) && Inv(s) && Reaches(z, k, s, steps, t)
    ensures Inv(t) && |t.nodes| == |s.nodes|
    decreases |steps|
  {
    if steps != [] {
      StepKeeps(z, k, s, steps[0]);
      hide Apply, Enabled, At;
      RunKeeps(z, k, Apply(z, k, s, steps[0]), steps[1..], t);
    }
  }

  // ---- the results ----

  /** A state reachable from the connections' opening, of a chain of `n` relays. */
  ghost predicate Run(z: Sizes, k: Codec, id: WireId, n: nat, steps: seq<Step>, t: State) {
    n >= 1 && k.Valid(z) && Reaches(z, k, Unbuilt(id, n), steps, t)
  }

  lemma RunInv(z: Sizes, k: Codec, id: WireId, n: nat, steps: seq<Step>, t: State)
    requires Run(z, k, id, n, steps, t)
    ensures Inv(t) && |t.nodes| == n
  {
    UnbuiltInv(id, n);
    hide At;
    RunKeeps(z, k, Unbuilt(id, n), steps, t);
  }

  /** No reader of cells runs at a relay before the client has finished building and the relay has handled BEGIN, CONNECT,
      DATA or END. */
  lemma ServedAfterCells(z: Sizes, k: Codec, id: WireId, n: nat, steps: seq<Step>, t: State, i: nat)
    requires Run(z, k, id, n, steps, t) && i < n
    ensures |t.nodes| == n && (Served(t.nodes[i]) ==> t.talking && exists c :: c in t.nodes[i].handled && Wakes(c))
  {
    hide Reaches, LinkOk, Own;
    RunInv(z, k, id, n, steps, t);
    assert At(t, i);
  }

  /** On every link answers come first and cells after. The answers read are the first ones written, the cells read the first
      ones written, and once the client talks, every answer written has been read. */
  lemma AnswersThenCells(z: Sizes, k: Codec, id: WireId, n: nat, steps: seq<Step>, t: State, i: nat)
    requires Run(z, k, id, n, steps, t) && i < n
    ensures |t.ups| == n && var l := t.ups[i];
      && AllSendable(l.sent) && l.wrote == CreatedBytes(l.answered) + CellBytes(l.sent)
      && AnswersRead(l.answered, l.taken) && CellsRead(l.sent, l.got)
      && (t.talking ==> |l.taken| == |l.answered|) && (!t.talking ==> l.sent == [])
  {
    hide Reaches, Own, CreatedBytes, CellBytes, CellsRead;
    RunInv(z, k, id, n, steps, t);
    assert At(t, i);
  }

  /** A reader of cells always stands where a frame begins: what it reads next is the next cell written, whole. */
  lemma ReaderOnBoundary(z: Sizes, k: Codec, id: WireId, n: nat, steps: seq<Step>, t: State, i: nat)
    requires Run(z, k, id, n, steps, t) && i < n
    requires if i == 0 then t.talking else i - 1 < |t.nodes| && Served(t.nodes[i - 1])
    ensures |t.ups| == n && var l := t.ups[i];
      && AllSendable(l.sent) && |l.got| <= |l.sent| && l.bytes == CellBytes(l.sent[|l.got|..])
      && ParseCell(l.bytes).0 == if |l.got| < |l.sent| then Some((l.sent[|l.got|].id, l.sent[|l.got|].cell)) else None
  {
    hide Reaches, Own;
    RunInv(z, k, id, n, steps, t);
    assert At(t, i) && (i > 0 ==> At(t, i - 1));
    TakingCellOk(t.ups[i]);
    hide ParseCell, CellBytes, CreatedBytes;
  }

  /** A handler that waits for an answer finds nothing on the link, or the answer. */
  lemma WaiterFindsAnswer(z: Sizes, k: Codec, id: WireId, n: nat, steps: seq<Step>, t: State, i: nat, strict: bool)
    requires Run(z, k, id, n, steps, t) && i < n
    requires if i == 0 then t.awaiting else i - 1 < |t.nodes| && t.nodes[i - 1].waiting
    ensures |t.ups| == n && var l := t.ups[i];
      l.bytes == [] || (|l.taken| < |l.answered| && ParseCreated(l.bytes, strict).0 == Some(l.answered[|l.taken|].payload))
  {
    hide Reaches, Own;
    RunInv(z, k, id, n, steps, t);
    assert At(t, i) && (i > 0 ==> At(t, i - 1));
    if Outstanding(t.ups[i]) > 0 {
      TakingAnswerOk(t.ups[i], strict);
    } else {
      NothingToTake(t.ups[i], strict);
    }
  }

  lemma OwnAnswers(t: State, i: nat)
    requires Inv(t) && i < |t.nodes|
    ensures AnswersRead(t.ups[i].answered, t.ups[i].taken)
    ensures var below := Below(t, i);
      |t.ups[i].answered| <= 1 + |below| && forall j :: 0 < j < |t.ups[i].answered| ==> t.ups[i].answered[j].payload == below[j - 1]
  {
    hide CreatedBytes, CellBytes;
    assert At(t, i);
    forall j | 0 < j < |t.ups[i].answered|
      ensures t.ups[i].answered[j].payload == Below(t, i)[j - 1]
    {
      assert t.ups[i].answered[1 + (j - 1)].payload == Below(t, i)[j - 1];
    }
  }

  /** Whatever was read of answers from below has been passed on in order after the relay's own. */
  lemma {:induction false} AnswerComesFrom(t: State, i: nat, j: nat)
    requires Inv(t) && i < |t.nodes| && j < |t.ups[i].answered|
    ensures i + j < |t.nodes| && t.ups[i + j].answered != [] && t.ups[i].answered[j].payload == t.ups[i + j].answered[0].payload
    decreases j
  {
    hide At;
    OwnAnswers(t, i);
    if j > 0 {
      OwnAnswers(t, i + 1);
      AnswerComesFrom(t, i + 1, j - 1);
    }
  }

  /** The j-th answer the client reads is the one relay j wrote for itself. */
  lemma JthAnswerIsOfRelayJ(z: Sizes, k: Codec, id: WireId, n: nat, steps: seq<Step>, t: State, j: nat)
    requires Run(z, k, id, n, steps, t)
    ensures |t.ups| == n && (j < |t.ups[0].taken| ==>
      j < n && t.ups[j].answered != [] && t.ups[0].taken[j] == t.ups[j].answered[0].payload)
  {
    hide Reaches, Own, CreatedBytes, CellBytes;
    RunInv(z, k, id, n, steps, t);
    assert At(t, 0);
    if j < |t.ups[0].taken| {
      AnswerComesFrom(t, 0, j);
    }
  }
}

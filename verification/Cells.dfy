/** The fixed-size cell: one byte of command, one of version, two of length, the payload, and random padding. */
module Cells {
  import opened MachineInts
  import opened Wrappers
  import opened Onion

  const MAX_CELL_SIZE := 512
  const HEADER_OVERHEAD := 4
  const PROTOCOL_V1: byte := 1
  const CMD_CREATED: byte := 8

  datatype RawCell = RawCell(cmd: byte, version: byte, payload: seq<byte>)

  /** EXTEND, CONNECT, DATA, END, DESTROY, BEGIN, BEGIN_ACK and CREATED. */
  predicate KnownCommand(b: byte) {
    1 <= b <= 8
  }

  predicate WellFormed(c: RawCell) {
    KnownCommand(c.cmd) && c.version == PROTOCOL_V1 && |c.payload| <= MAX_PAYLOAD_SIZE
  }

  function BigEndian(n: uint16): seq<byte> {
    [n / 256, n % 256]
  }

  function FromBigEndian(hi: byte, lo: byte): uint16 {
    hi * 256 + lo
  }

  /** The wire form of a cell with the given padding. */
  function Encoded(c: RawCell, pad: seq<byte>): seq<byte>
    requires |c.payload| <= MAX_PAYLOAD_SIZE
  {
    [c.cmd, c.version] + BigEndian(|c.payload|) + c.payload + pad
  }

  function Padding(n: nat, noise: nat -> byte): seq<byte> {
    seq(n, k requires 0 <= k < n => noise(k))
  }

  /** Fills the buffer piece by piece; `noise` is what the random source gives, unless it fails. */
  method Encode(c: RawCell, noise: Option<nat -> byte>) returns (buf: Option<seq<byte>>)
    ensures buf.Some? <==> |c.payload| <= MAX_PAYLOAD_SIZE && noise.Some?
    ensures buf.Some? ==> buf.value == Encoded(c, Padding(MAX_PAYLOAD_SIZE - |c.payload|, noise.value))
    ensures buf.Some? ==>
      && |buf.value| == MAX_CELL_SIZE
      && forall i :: 4 + |c.payload| <= i < MAX_CELL_SIZE ==> buf.value[i] == noise.value(i - 4 - |c.payload|)
  {
    if |c.payload| > MAX_PAYLOAD_SIZE {
      return None;
    }
    var b := new byte[MAX_CELL_SIZE];
    b[0], b[1] := c.cmd, c.version;
    b[2], b[3] := |c.payload| / 256, |c.payload| % 256;
    for k := 0 to |c.payload|
      invariant b[0] == c.cmd && b[1] == c.version && b[2] == |c.payload| / 256 && b[3] == |c.payload| % 256
      invariant forall i :: 0 <= i < k ==> b[4 + i] == c.payload[i]
    {
      b[4 + k] := c.payload[k];
    }
    if noise == None {
      return None;
    }
    var start := 4 + |c.payload|;
    for k := start to MAX_CELL_SIZE
      invariant b[0] == c.cmd && b[1] == c.version && b[2] == |c.payload| / 256 && b[3] == |c.payload| % 256
      invariant forall i :: 0 <= i < |c.payload| ==> b[4 + i] == c.payload[i]
      invariant forall i :: start <= i < k ==> b[i] == noise.value(i - start)
    {
      b[k] := noise.value(k - start);
    }
    assert b[..] == Encoded(c, Padding(MAX_PAYLOAD_SIZE - |c.payload|, noise.value));
    return Some(b[..]);
  }

  function Decode(buf: seq<byte>): Option<RawCell> {
    if |buf| != MAX_CELL_SIZE then None
    else if !KnownCommand(buf[0]) then None
    else if buf[1] != PROTOCOL_V1 then None
    else
      var l := FromBigEndian(buf[2], buf[3]);
      if l > MAX_PAYLOAD_SIZE then None else Some(RawCell(buf[0], buf[1], buf[4..4 + l]))
  }

  /** Decoding and encoding are inverse to each other, both ways: a buffer decodes to a cell exactly if the cell is well
      formed and the buffer is its wire form, with whatever the buffer ends in as padding. */
  lemma DecodesExactlyEncoded(buf: seq<byte>, c: RawCell)
    requires |buf| == MAX_CELL_SIZE
    ensures Decode(buf) == Some(c) <==> WellFormed(c) && buf == Encoded(c, buf[HEADER_OVERHEAD + |c.payload|..])
  {
    if WellFormed(c) && buf == Encoded(c, buf[HEADER_OVERHEAD + |c.payload|..]) {
      assert buf[2] == |c.payload| / 256 && buf[3] == |c.payload| % 256;
      assert buf[4..4 + |c.payload|] == c.payload;
    }
    if Decode(buf) == Some(c) {
      assert BigEndian(|c.payload|) == [buf[2], buf[3]];
      assert buf == Encoded(c, buf[HEADER_OVERHEAD + |c.payload|..]);
    }
  }

  /** What counts as a cell, byte by byte: 512 bytes with a command from 1 to 8, version 1, and a length of at most 508, whose
      higher byte comes first. The payload starts at the fourth byte. */
  lemma DecodesIff(buf: seq<byte>)
    ensures Decode(buf).Some? <==> |buf| == 512 && 1 <= buf[0] <= 8 && buf[1] == 1 && 256 * (buf[2] as int) + buf[3] as int <= 508
    ensures Decode(buf).Some? ==>
      var c := Decode(buf).value;
      c.cmd == buf[0] && |c.payload| == 256 * (buf[2] as int) + buf[3] as int && c.payload == buf[4..4 + |c.payload|]
  {
  }

  /** Whatever the padding is. */
  lemma RoundTrip(c: RawCell, pad: seq<byte>)
    requires WellFormed(c) && |pad| == MAX_PAYLOAD_SIZE - |c.payload|
    ensures Decode(Encoded(c, pad)) == Some(c)
  {
    var buf := Encoded(c, pad);
    assert buf[HEADER_OVERHEAD + |c.payload|..] == pad;
    DecodesExactlyEncoded(buf, c);
  }
}

/** Byte streams: what is written on a link, and how the readers cut it up again. */
module Framing {
  import opened MachineInts
  import opened Wrappers
  import opened Onion
  import opened Cells

  const ID_SIZE := 16
  const FRAME_SIZE := 528
  const CREATED_HEADER := 20

  /** A circuit id on the wire. */
  type WireId = s: seq<byte> | |s| == 16 witness seq(16, _ => 0)

  function Concat(chunks: seq<seq<byte>>): seq<byte> {
    if chunks == [] then [] else chunks[0] + Concat(chunks[1..])
  }

  /** A connection to read from: the bytes still to come, in the pieces the network delivers them in. */
  class Reader {
    var chunks: seq<seq<byte>>

    constructor (chunks: seq<seq<byte>>)
      ensures this.chunks == chunks
    {
      this.chunks := chunks;
    }

    ghost function Left(): seq<byte>
      reads this
    {
      Concat(chunks)
    }

    /** One read: part of the next piece, at most `max` bytes, or nothing at the end. */
    method Read(max: nat) returns (got: Option<seq<byte>>)
      requires max > 0
      modifies this
      ensures got == None <==> old(chunks) == []
      ensures got == None ==> Left() == [] && chunks == []
      ensures got.Some? ==> |got.value| <= max && got.value + Left() == old(Left()) && |Left()| + |chunks| < |old(Left())| + |old(chunks)|
    {
      if chunks == [] {
        return None;
      }
      var c, rest := chunks[0], chunks[1..];
      if |c| <= max {
        chunks := rest;
        return Some(c);
      }
      chunks := [c[max..]] + rest;
      assert chunks[1..] == rest && c == c[..max] + c[max..];
      assert c[..max] + (c[max..] + Concat(rest)) == c + Concat(rest);
      return Some(c[..max]);
    }

    /** Reads exactly `n` bytes, in as many reads as it takes, or fails at the end of the stream. */
    method ReadFull(n: nat) returns (buf: Option<seq<byte>>)
      modifies this
      ensures buf.Some? <==> n <= |old(Left())|
      ensures buf.Some? ==> buf.value == old(Left())[..n] && Left() == old(Left())[n..]
      ensures buf == None ==> Left() == []
    {
      ghost var was := Left();
      var acc: seq<byte> := [];
      while |acc| < n
        invariant |acc| <= n && acc + Left() == was
        decreases |Left()| + |chunks|
      {
        var got := Read(n - |acc|);
        if got == None {
          assert acc == was;
          return None;
        }
        assert acc + (got.value + Left()) == (acc + got.value) + Left();
        acc := acc + got.value;
      }
      assert was[..n] == acc && was[n..] == Left();
      return Some(acc);
    }

    method ReadCell() returns (r: Option<(WireId, RawCell)>)
      modifies this
      ensures (r, Left()) == ParseCell(old(Left()))
    {
      ghost var was := Left();
      var id := ReadFull(ID_SIZE);
      if id == None {
        return None;
      }
      var cellBuf := ReadFull(MAX_CELL_SIZE);
      if cellBuf == None {
        return None;
      }
      assert was[ID_SIZE..][..MAX_CELL_SIZE] == was[ID_SIZE..FRAME_SIZE] && was[ID_SIZE..][MAX_CELL_SIZE..] == was[FRAME_SIZE..];
      var cell := Decode(cellBuf.value);
      if cell == None {
        return None;
      }
      return Some((id.value, cell.value));
    }

    /** The client insists on command and version; a relay that forwards EXTEND does not. */
    method ReadCreated(strict: bool) returns (r: Option<seq<byte>>)
      modifies this
      ensures (r, Left()) == ParseCreated(old(Left()), strict)
    {
      ghost var was := Left();
      var hdr := ReadFull(CREATED_HEADER);
      if hdr == None {
        return None;
      }
      if strict && (hdr.value[16] != CMD_CREATED || hdr.value[17] != PROTOCOL_V1) {
        return None;
      }
      var l := FromBigEndian(hdr.value[18], hdr.value[19]);
      if l == 0 {
        return None;
      }
      if |was| >= CREATED_HEADER + l {
        assert was[CREATED_HEADER..][..l] == was[CREATED_HEADER..CREATED_HEADER + l];
        assert was[CREATED_HEADER..][l..] == was[CREATED_HEADER + l..];
      }
      r := ReadFull(l);
    }
  }

  /** One cell off the front of a byte stream, and the bytes after it. */
  function ParseCell(s: seq<byte>): (Option<(WireId, RawCell)>, seq<byte>) {
    if |s| < FRAME_SIZE then (None, []) else
    match Decode(s[ID_SIZE..FRAME_SIZE])
    case None => (None, s[FRAME_SIZE..])
    case Some(c) => (Some((s[..ID_SIZE], c)), s[FRAME_SIZE..])
  }

  /** One CREATED off the front of a byte stream, and the bytes after what was read of it. */
  function ParseCreated(s: seq<byte>, strict: bool): (Option<seq<byte>>, seq<byte>) {
    if |s| < CREATED_HEADER then (None, [])
    else if strict && (s[16] != CMD_CREATED || s[17] != PROTOCOL_V1) then (None, s[CREATED_HEADER..])
    else
      var l := FromBigEndian(s[18], s[19]);
      if l == 0 then (None, s[CREATED_HEADER..])
      else if |s| < CREATED_HEADER + l then (None, [])
      else (Some(s[CREATED_HEADER..CREATED_HEADER + l]), s[CREATED_HEADER + l..])
  }

  /** What a reader of cells accepts: 528 bytes, of which the last 512 are a cell. The id is the first 16, the rest is left. */
  lemma ParsesCellIff(s: seq<byte>)
    ensures var p := ParseCell(s);
      && (p.0.Some? <==> |s| >= 528 && Decode(s[16..528]).Some?)
      && (p.0.Some? ==> p.0.value == (s[..16], Decode(s[16..528]).value))
      && p.1 == if |s| >= 528 then s[528..] else []
  {
  }

  /** What a reader of answers accepts: a header of 20 bytes with a length that is not 0, higher byte first, and so many bytes after
      it. Only the client looks at command and version. */
  lemma ParsesCreatedIff(s: seq<byte>, strict: bool)
    ensures var p := ParseCreated(s, strict);
      && (p.0.Some? <==>
            && |s| >= 20 && (strict ==> s[16] == 8 && s[17] == 1)
            && var l := 256 * (s[18] as int) + s[19] as int; 0 < l <= |s| - 20)
      && (p.0.Some? ==>
            && |p.0.value| == 256 * (s[18] as int) + s[19] as int && p.0.value == s[20..20 + |p.0.value|]
            && p.1 == s[20 + |p.0.value|..])
  {
  }

  // ---- the writers ----

  function CellFrame(id: WireId, c: RawCell, pad: seq<byte>): seq<byte>
    requires |c.payload| <= MAX_PAYLOAD_SIZE
  {
    id + Encoded(c, pad)
  }

  /** The length field keeps only 16 bits of the length. */
  function CreatedFrame(id: WireId, payload: seq<byte>): seq<byte> {
    id + [CMD_CREATED, PROTOCOL_V1] + BigEndian(|payload| % 0x1_0000) + payload
  }

  class Writer {
    var bytes: seq<byte>

    constructor ()
      ensures bytes == []
    {
      bytes := [];
    }

    method ForwardCell(id: WireId, c: RawCell, noise: Option<nat -> byte>) returns (ok: bool)
      modifies this
      ensures ok == (|c.payload| <= MAX_PAYLOAD_SIZE && noise.Some?)
      ensures bytes == if ok then old(bytes) + CellFrame(id, c, Padding(MAX_PAYLOAD_SIZE - |c.payload|, noise.value)) else old(bytes)
    {
      var buf := Encode(c, noise);
      if buf == None {
        return false;
      }
      bytes := bytes + (id + buf.value);
      return true;
    }

    method SendCreated(id: WireId, payload: seq<byte>)
      modifies this
      ensures bytes == old(bytes) + CreatedFrame(id, payload)
    {
      var hdr := new byte[CREATED_HEADER];
      for k := 0 to ID_SIZE
        invariant hdr[..k] == id[..k] && bytes == old(bytes)
      {
        hdr[k] := id[k];
      }
      hdr[16], hdr[17] := CMD_CREATED, PROTOCOL_V1;
      var l := |payload| % 0x1_0000;
      hdr[18], hdr[19] := l / 256, l % 256;
      assert hdr[..] == id + [CMD_CREATED, PROTOCOL_V1] + BigEndian(l);
      bytes := bytes + hdr[..];
      bytes := bytes + payload;
      assert old(bytes) + hdr[..] + payload == old(bytes) + CreatedFrame(id, payload);
    }

    /** What a relay does with the answer to a forwarded EXTEND: reads it from below and sends it up. */
    method RelayCreated(r: Reader, id: WireId) returns (ok: bool)
      modifies this, r
      ensures var p := ParseCreated(old(r.Left()), false);
        && ok == p.0.Some? && r.Left() == p.1
        && bytes == if ok then old(bytes) + CreatedFrame(id, p.0.value) else old(bytes)
    {
      var payload := r.ReadCreated(false);
      if payload == None {
        return false;
      }
      SendCreated(id, payload.value);
      return true;
    }
  }

  // ---- what is written is what is read ----

  /** The cell comes back exactly, and the bytes after the frame are left for the next read. */
  lemma CellFrameParses(id: WireId, c: RawCell, pad: seq<byte>, rest: seq<byte>)
    requires WellFormed(c) && |pad| == MAX_PAYLOAD_SIZE - |c.payload|
    ensures ParseCell(CellFrame(id, c, pad) + rest) == (Some((id, c)), rest)
  {
    var s := CellFrame(id, c, pad) + rest;
    assert s[..ID_SIZE] == id && s[ID_SIZE..FRAME_SIZE] == Encoded(c, pad) && s[FRAME_SIZE..] == rest;
    RoundTrip(c, pad);
  }

  /** The header of an answer is the id, command 8, version 1 and the length, higher byte first. */
  lemma CreatedFrameIs(id: WireId, payload: seq<byte>)
    ensures var s := CreatedFrame(id, payload);
      && |s| == 20 + |payload| && s[..16] == id && s[16] == 8 && s[17] == 1
      && 256 * (s[18] as int) + s[19] as int == |payload| % 0x1_0000 && s[20..] == payload
  {
  }

  /** A CREATED payload comes back exactly if its length fits the 16-bit field and is not 0; both kinds of reader agree. */
  lemma CreatedFrameParses(id: WireId, payload: seq<byte>, rest: seq<byte>, strict: bool)
    ensures ParseCreated(CreatedFrame(id, payload) + rest, strict) == (Some(payload), rest) <==> 0 < |payload| < 0x1_0000
  {
    var l := |payload| % 0x1_0000;
    var s := CreatedFrame(id, payload) + rest;
    assert s[16] == CMD_CREATED && s[17] == PROTOCOL_V1 && s[18] == l / 256 && s[19] == l % 256;
    assert FromBigEndian(s[18], s[19]) == l;
    if 0 < |payload| < 0x1_0000 {
      assert s[CREATED_HEADER..CREATED_HEADER + l] == payload && s[CREATED_HEADER + l..] == rest;
    } else if |payload| > 0 && l > 0 {
      assert |s[CREATED_HEADER..CREATED_HEADER + l]| != |payload|;
    }
  }

  /** A cell on a link, with its padding. */
  datatype Frame = Frame(id: WireId, cell: RawCell, pad: seq<byte>)

  predicate Sendable(f: Frame) {
    WellFormed(f.cell) && |f.pad| == MAX_PAYLOAD_SIZE - |f.cell.payload|
  }

  predicate AllSendable(fs: seq<Frame>) {
    forall k :: 0 <= k < |fs| ==> Sendable(fs[k])
  }

  function CellBytes(fs: seq<Frame>): seq<byte>
    requires AllSendable(fs)
  {
    if fs == [] then [] else CellFrame(fs[0].id, fs[0].cell, fs[0].pad) + CellBytes(fs[1..])
  }

  datatype Answer = Answer(id: WireId, payload: seq<byte>)

  predicate AllAnswers(cs: seq<Answer>) {
    forall k :: 0 <= k < |cs| ==> 0 < |cs[k].payload| < 0x1_0000
  }

  function CreatedBytes(cs: seq<Answer>): seq<byte> {
    if cs == [] then [] else CreatedFrame(cs[0].id, cs[0].payload) + CreatedBytes(cs[1..])
  }

  /** Reading `k` answers, then cells to the end. Reading stops where a reader gives up. */
  function ParseAnswers(s: seq<byte>, k: nat, strict: bool): (seq<seq<byte>>, seq<byte>)
    decreases k
  {
    if k == 0 then ([], s) else
    var p := ParseCreated(s, strict);
    if p.0 == None then ([], p.1) else
    var more := ParseAnswers(p.1, k - 1, strict);
    ([p.0.value] + more.0, more.1)
  }

  function ParseCells(s: seq<byte>): seq<(WireId, RawCell)>
    decreases |s|
  {
    if |s| < FRAME_SIZE then [] else
    var p := ParseCell(s);
    if p.0 == None then [] else [p.0.value] + ParseCells(p.1)
  }

  function Payloads(cs: seq<Answer>): seq<seq<byte>> {
    seq(|cs|, k requires 0 <= k < |cs| => cs[k].payload)
  }

  lemma {:induction false} AnswersParse(cs: seq<Answer>, rest: seq<byte>, strict: bool)
    requires AllAnswers(cs)
    ensures ParseAnswers(CreatedBytes(cs) + rest, |cs|, strict) == (Payloads(cs), rest)
    decreases |cs|
  {
    FirstPayload(cs);
    hide Payloads;
    if cs == [] {
      assert CreatedBytes(cs) + rest == rest;
    } else {
      var s, more := CreatedBytes(cs) + rest, CreatedBytes(cs[1..]) + rest;
      hide ParseCreated, CreatedFrame;
      assert s == CreatedFrame(cs[0].id, cs[0].payload) + more;
      hide CreatedBytes;
      CreatedFrameParses(cs[0].id, cs[0].payload, more, strict);
      AnswersParse(cs[1..], rest, strict);
    }
  }

  lemma FirstPayload(cs: seq<Answer>)
    ensures Payloads(cs) == if cs == [] then [] else [cs[0].payload] + Payloads(cs[1..])
  {
  }

  lemma {:induction false} CellsParse(fs: seq<Frame>)
    requires AllSendable(fs)
    ensures ParseCells(CellBytes(fs)) == seq(|fs|, k requires 0 <= k < |fs| => (fs[k].id, fs[k].cell))
    decreases |fs|
  {
    if fs != [] {
      assert |CellBytes(fs)| >= FRAME_SIZE;
      assert Sendable(fs[0]);
      CellFrameParses(fs[0].id, fs[0].cell, fs[0].pad, CellBytes(fs[1..]));
      CellsParse(fs[1..]);
      hide ParseCell, CellFrame, Sendable;
    }
  }

  /** Reads `k` answers, or as many as there are. */
  method ReadAnswers(r: Reader, k: nat, strict: bool) returns (answers: seq<seq<byte>>)
    modifies r
    ensures var p := ParseAnswers(old(r.Left()), k, strict); answers == p.0 && (|answers| == k ==> r.Left() == p.1)
  {
    hide ParseCreated, Concat;
    answers := [];
    ghost var was := r.Left();
    var i := 0;
    assert [] + ParseAnswers(was, k, strict).0 == ParseAnswers(was, k, strict).0;
    while i < k
      invariant i <= k && |answers| == i
      invariant var rest := ParseAnswers(r.Left(), k - i, strict);
        ParseAnswers(was, k, strict) == (answers + rest.0, rest.1)
    {
      var a := r.ReadCreated(strict);
      if a == None {
        return;
      }
      ghost var rest := ParseAnswers(r.Left(), k - i - 1, strict).0;
      assert answers + ([a.value] + rest) == (answers + [a.value]) + rest;
      answers := answers + [a.value];
      i := i + 1;
    }
  }

  /** Reads cells to the first frame that is none. */
  method ReadCells(r: Reader) returns (cells: seq<(WireId, RawCell)>)
    modifies r
    ensures cells == ParseCells(old(r.Left()))
  {
    hide Decode, Concat;
    cells := [];
    ghost var tail := r.Left();
    while true
      invariant ParseCells(tail) == cells + ParseCells(r.Left())
      decreases |r.Left()|
    {
      var c := r.ReadCell();
      if c == None {
        return;
      }
      assert cells + ([c.value] + ParseCells(r.Left())) == (cells + [c.value]) + ParseCells(r.Left());
      cells := cells + [c.value];
    }
  }

  /** A link read the way it was written: the answers to the EXTENDs first, then the cells. However the network cuts the
      bytes into pieces, the readers get back the very sequence that was sent. */
  method ReadLink(r: Reader, k: nat, strict: bool) returns (answers: seq<seq<byte>>, cells: seq<(WireId, RawCell)>)
    modifies r
    ensures var p := ParseAnswers(old(r.Left()), k, strict);
      && answers == p.0 && (|answers| == k ==> cells == ParseCells(p.1)) && (|answers| < k ==> cells == [])
  {
    hide ParseAnswers, ParseCells, Concat;
    answers := ReadAnswers(r, k, strict);
    cells := [];
    if |answers| == k {
      cells := ReadCells(r);
    }
  }

  /** The sequence parsed from a link is the sequence written on it. */
  lemma LinkIsFaithful(cs: seq<Answer>, fs: seq<Frame>, strict: bool)
    requires AllAnswers(cs) && AllSendable(fs)
    ensures var p := ParseAnswers(CreatedBytes(cs) + CellBytes(fs), |cs|, strict);
      && |p.0| == |cs| && (forall k :: 0 <= k < |cs| ==> p.0[k] == cs[k].payload)
      && |ParseCells(p.1)| == |fs| && (forall k :: 0 <= k < |fs| ==> ParseCells(p.1)[k] == (fs[k].id, fs[k].cell))
  {
    AnswersParse(cs, CellBytes(fs), strict);
    CellsParse(fs);
  }

  /** The relays hand the answer up unchanged: the payload the last one sends is the one the client reads. */
  lemma {:induction false} AnswerReachesClient(id: WireId, payload: seq<byte>, hops: nat)
    requires 0 < |payload| < 0x1_0000
    ensures ParseCreated(RelayedBytes(id, CreatedFrame(id, payload), hops), true) == (Some(payload), [])
  {
    assert CreatedFrame(id, payload) + [] == CreatedFrame(id, payload);
    if hops == 0 {
      CreatedFrameParses(id, payload, [], true);
    } else {
      CreatedFrameParses(id, payload, [], false);
      AnswerReachesClient(id, payload, hops - 1);
    }
  }

  /** The bytes of an answer after `hops` relays have read it from below and sent it up. */
  function RelayedBytes(id: WireId, s: seq<byte>, hops: nat): seq<byte>
    decreases hops
  {
    if hops == 0 then s else
    match ParseCreated(s, false).0
    case None => []
    case Some(payload) => RelayedBytes(id, CreatedFrame(id, payload), hops - 1)
  }

  /** What the client writes when it gives a build up: twenty bytes and then the end of the stream. */
  function TeardownBytes(id: WireId): seq<byte> {
    id + [0, 0, 0xFE, 0]
  }

  /** They never make a cell, whatever cells went before: the relay sees a broken frame and no DESTROY. */
  lemma {:induction false} TeardownIsNoCell(id: WireId, fs: seq<Frame>)
    requires AllSendable(fs)
    ensures ParseCells(CellBytes(fs) + TeardownBytes(id)) == ParseCells(CellBytes(fs))
    decreases |fs|
  {
    if fs != [] {
      assert Sendable(fs[0]);
      var more := CellBytes(fs[1..]) + TeardownBytes(id);
      assert CellBytes(fs) + TeardownBytes(id) == CellFrame(fs[0].id, fs[0].cell, fs[0].pad) + more;
      CellFrameParses(fs[0].id, fs[0].cell, fs[0].pad, more);
      CellFrameParses(fs[0].id, fs[0].cell, fs[0].pad, CellBytes(fs[1..]));
      assert |CellBytes(fs)| >= FRAME_SIZE;
      TeardownIsNoCell(id, fs[1..]);
      hide ParseCell, CellFrame, Sendable, TeardownBytes;
    }
  }
}

/** EXTEND as a build sees it, as the wire sees it, and as a relay's handlers carry it out: the three agree. */
module BuildRelay {
  import opened MachineInts
  import opened Wrappers
  import opened Onion
  import opened RelaySpec
  import opened Sockets
  import opened KeyExchange
  import opened Repository
  import opened RelayWorld
  import CircuitBuild
  import Framing
  import Wire

  /** The relay at address `r` of the mesh is this relay: the same circuits in the same state, with a connection below exactly
      where the mesh has a next hop. */
  ghost predicate IsRelay(t: CircuitBuild.Tables, r: CircuitBuild.Addr, w: World)
    requires r in t
  {
    forall cid ::
      && (cid in t[r] <==> cid in w.table)
      && (cid in t[r] ==> t[r][cid].hop == w.table[cid].hop && (t[r][cid].next.Some? <==> w.table[cid].down.Some?))
  }

  /** The links of the circuit take bytes. */
  predicate LinksOpen(w: World, from: ConnId, cid: CircuitId) {
    && from !in w.closed
    && (cid in w.table ==>
          && w.table[cid].up !in w.closed
          && (w.table[cid].down.Some? ==> w.table[cid].down.value !in w.closed))
  }

  /** The relay's half of the key exchange. */
  function Derived(k: Kex, d: CircuitBuild.Draw, ext: CircuitBuild.Extension): Option<Ident> {
    match k.shared(d.relay, ext.clientPub)
    case None => None
    case Some(secret) => Some(k.derive(secret))
  }

  /** Whether an answer comes from below. */
  function AnsweredBelow(k: Kex, t: CircuitBuild.Tables, r: CircuitBuild.Addr, cid: CircuitId,
      ext: CircuitBuild.Extension, d: CircuitBuild.Draw, patience: nat): bool
    requires r in t && patience > 0
  {
    && cid in t[r] && t[r][cid].next.Some?
    && CircuitBuild.Answer(k, t, t[r][cid].next.value, cid, ext, d, patience - 1).1.Some?
  }

  /** A relay that knows the circuit stays as it is, wherever EXTEND goes from there. */
  lemma {:induction false} AnswerSpares(k: Kex, t: CircuitBuild.Tables, x: CircuitBuild.Addr, cid: CircuitId,
      ext: CircuitBuild.Extension, d: CircuitBuild.Draw, patience: nat, r: CircuitBuild.Addr)
    requires r in t && cid in t[r]
    ensures var after := CircuitBuild.Answer(k, t, x, cid, ext, d, patience).0; r in after && after[r] == t[r]
    decreases patience
  {
    if patience > 0 && x in t && cid in t[x] && t[x][cid].next.Some? {
      AnswerSpares(k, t, t[x][cid].next.value, cid, ext, d, patience - 1, r);
    }
  }

  /** At every relay EXTEND comes to, what the build's model says is what the handlers do: the tables agree before and after, the
      handler succeeds exactly if an answer goes up, and what is written is the EXTEND handed down, if the circuit was known, and
      then the answer. */
  lemma ExtendIsHandled(k: Kex, t: CircuitBuild.Tables, r: CircuitBuild.Addr, cid: CircuitId, ext: CircuitBuild.Extension,
      d: CircuitBuild.Draw, patience: nat, w: World, from: ConnId, dialled: Option<ConnId>)
    requires patience > 0 && r in t && IsRelay(t, r, w) && NoOrphans(w) && LinksOpen(w, from, cid)
    requires cid !in w.table ==> (dialled.Some? <==> ext.next.Some? && ext.next.value in t && d.dialOk)
    ensures var a := CircuitBuild.Answer(k, t, r, cid, ext, d, patience);
      var answered := AnsweredBelow(k, t, r, cid, ext, d, patience);
      var o := StepExtend(w, from, cid, Extension(Derived(k, d, ext), ext.next.Some?), dialled, answered);
      && r in a.0 && IsRelay(a.0, r, o.value) && (o.ok <==> a.1.Some?)
      && o.value.log == w.log
           + (if cid in w.table && w.table[cid].down.Some? then [ExtendOut(w.table[cid].down.value, cid)] else [])
           + (if a.1.Some? then [CreatedOut(if cid in w.table then w.table[cid].up else from, cid)] else [])
  {
    var answered := AnsweredBelow(k, t, r, cid, ext, d, patience);
    ExtendIsAnswered(w, from, cid, Extension(Derived(k, d, ext), ext.next.Some?), dialled, answered);
    var o := StepExtend(w, from, cid, Extension(Derived(k, d, ext), ext.next.Some?), dialled, answered);
    if cid in t[r] {
      AnswerSpares(k, t, r, cid, ext, d, patience, r);
      hide StepExtend;
      assert o.value.table == w.table;
    } else {
      assert OpenIds(w.streams, cid) == {};
      hide StepExtend, OpenIds;
      var a := CircuitBuild.Answer(k, t, r, cid, ext, d, patience);
      if a.1.Some? {
        EntryAdded(t, r, w, cid, a.0[r][cid], o.value.table[cid]);
        assert a.0 == CircuitBuild.Put(t, r, cid, a.0[r][cid]);
        SameTables(a.0, r, w.(table := w.table[cid := o.value.table[cid]]), o.value);
      }
    }
  }

  lemma EntryAdded(t: CircuitBuild.Tables, r: CircuitBuild.Addr, w: World, cid: CircuitId, link: CircuitBuild.Link, e: Entry)
    requires r in t && IsRelay(t, r, w) && link.hop == e.hop && (link.next.Some? <==> e.down.Some?)
    ensures IsRelay(CircuitBuild.Put(t, r, cid, link), r, w.(table := w.table[cid := e]))
  {
  }

  lemma SameTables(t: CircuitBuild.Tables, r: CircuitBuild.Addr, w: World, v: World)
    requires r in t && IsRelay(t, r, w) && w.table == v.table
    ensures IsRelay(t, r, v)
  {
  }

  /** On the wire: a relay that does not know the circuit writes one answer and stores the fresh state exactly if its handler
      succeeds; one that does hands EXTEND down and waits, if there is a relay below, and when the answer comes writes it up. */
  lemma WireExtendIsHandled(s: Wire.State, i: nat, made: Option<Wire.Made>, w: World, from: ConnId, cid: CircuitId,
      id: Option<Ident>, dialled: Option<ConnId>, answered: bool)
    requires Wire.Shape(s) && i < |s.nodes| && NoOrphans(w) && LinksOpen(w, from, cid)
    requires if Wire.Known(s.nodes[i]) then
        cid in w.table && w.table[cid].hop == s.nodes[i].hop.value && (w.table[cid].down.Some? <==> i + 1 < |s.nodes|)
      else cid !in w.table
    requires made.Some? <==> id.Some? && (i + 1 < |s.nodes| ==> dialled.Some?)
    requires made.Some? ==> id == Some(made.value.id)
    ensures var u, o := Wire.Extending(s, i, made), StepExtend(w, from, cid, Extension(id, i + 1 < |s.nodes|), dialled, answered);
      if cid !in w.table then
        && (o.ok <==> made.Some?)
        && (if o.ok then
              && u.ups[i].answered == s.ups[i].answered + [Framing.Answer(s.id, made.value.payload)]
              && o.value.log == w.log + [CreatedOut(from, cid)]
              && u.nodes[i].hop == Some(o.value.table[cid].hop)
            else u == s && o.value == w)
      else
        var down, up := w.table[cid].down, w.table[cid].up;
        && u.ups == s.ups && (down == None ==> u == s && o.value == w)
        && (down.Some? ==>
              && u.nodes[i].waiting && u.down[i + 1] == s.down[i + 1] + [Wire.Extend]
              && o.value.log == w.log + [ExtendOut(down.value, cid)] + (if answered then [CreatedOut(up, cid)] else []))
  {
    ExtendIsAnswered(w, from, cid, Extension(id, i + 1 < |s.nodes|), dialled, answered);
    if cid !in w.table {
      assert OpenIds(w.streams, cid) == {};
    }
    hide StepExtend, OpenIds;
  }
}

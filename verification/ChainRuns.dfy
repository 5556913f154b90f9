/** The properties of whole runs of a circuit. */
module ChainRuns {
  import opened MachineInts
  import opened Nonces
  import opened Wrappers
  import opened Onion
  import opened RelaySpec
  import opened ClientSpec
  import opened Chain
  import opened ChainLinks
  import opened ChainInvariant
  import opened ChainAbove
  import opened ChainAboveKeeps
  import opened ChainBelow
  import opened ChainEnds
  import opened ChainFrames

  lemma StepKeeps(z: Sizes, s: State, step: Step)
    requires Inv(z, s) && z.Valid() && Enabled(s, step)
    ensures Inv(z, Apply(z, s, step))
  {
    hide Ask, Chunk, HandleAbove, HandleBelow, Read, EndRead, Take, HopOk, LinkOk, UpCell, InStepAt, Carries, DownExact;
    match step
    case AskConnect(target) => AskKeeps(z, s, ConnectMsg(target), Connected);
    case AskBegin(target) => AskKeeps(z, s, BeginDto(s.sid, target), Streaming);
    case SendChunk(bytes) => ChunkKeeps(z, s, Raw(bytes));
    case CloseStream(last) => CloseKeeps(z, s, last);
    case FromAbove(i, dialOk) => AboveKeeps(z, s, i, dialOk);
    case FromBelow(i, dialOk) => BelowKeeps(z, s, i, dialOk);
    case ReadChunk(bytes) => ReadKeeps(z, s, Raw(bytes));
    case ReadEnd => EndReadKeeps(z, s);
    case Receive => TakeKeeps(z, s);
    case LinkEnds => OutsideKeeps(z, s, s.(listening := false));
    case SinkBreaks => OutsideKeeps(z, s, s.(sinkOk := false));
    case Expire(i) => ExpireKeeps(z, s, i);
  }

  /** A broken connection outside the chain, or the end of the client's reading. */
  lemma OutsideKeeps(z: Sizes, s: State, s1: State)
    requires Inv(z, s) && (s1 == s.(sinkOk := false) || s1 == s.(listening := false))
    ensures Inv(z, s1)
  {
    hide LinkOk, HopOk, ClientOk, TornOk, DownExact, UpOk, InStep;
    DownSpared(z, s, s1);
    UpSpared(z, s, s1);
  }

  /** Counts and the record of losses only grow. */
  ghost predicate Later(s: State, t: State) {
    && Shape(s) && Shape(t) && |t.path| == |s.path|
    && |s.read| <= |t.read|
    && (forall i :: 0 <= i < |s.path| ==> s.hist[i].fromBelow <= t.hist[i].fromBelow)
    && (s.lost ==> t.lost)
  }

  lemma StepLater(z: Sizes, s: State, step: Step)
    requires Shape(s) && Enabled(s, step)
    ensures Later(s, Apply(z, s, step))
  {
    StepFrame(z, s, step);
    forall i | 0 <= i < |s.path|
      ensures s.hist[i].fromBelow <= Apply(z, s, step).hist[i].fromBelow
    {
      RelayFrame(z, s, step, i);
    }
    hide Apply;
  }

  /** Exactness of DATA is never gained. */
  lemma StepExact(z: Sizes, s: State, step: Step)
    requires Inv(z, s) && Enabled(s, step)
    ensures DownExact(Apply(z, s, step).hist) ==> DownExact(s.hist)
  {
    StepFrame(z, s, step);
    hide HandleAbove, HandleBelow, DownExact;
    if step.FromAbove? {
      AboveExact(z, s, step.i, step.dialOk);
    } else if step.FromBelow? {
      BelowExact(z, s, step.i, step.dialOk);
    } else if step.Expire? {
      ExpiryExact(s.hist, s.hist[step.i := s.hist[step.i].(expired := true)]);
    } else {
      hide Apply;
    }
  }

  lemma {:induction false} RunExact(z: Sizes, s: State, steps: seq<Step>, t: State)
    requires Inv(z, s) && z.Valid() && Reaches(z, s, steps, t)
    ensures DownExact(t.hist) ==> DownExact(s.hist)
    decreases |steps|
  {
    if steps != [] {
      StepKeeps(z, s, steps[0]);
      StepExact(z, s, steps[0]);
      hide Apply, Enabled, Inv, DownExact;
      RunExact(z, Apply(z, s, steps[0]), steps[1..], t);
    }
  }

  lemma {:induction false} RunLater(z: Sizes, s: State, steps: seq<Step>, t: State)
    requires Shape(s) && Reaches(z, s, steps, t)
    ensures Later(s, t)
    decreases |steps|
  {
    if steps != [] {
      hide Apply, Enabled;
      StepLater(z, s, steps[0]);
      RunLater(z, Apply(z, s, steps[0]), steps[1..], t);
    }
  }

  /** Every run keeps the invariant. */
  lemma {:induction false} RunKeeps(z: Sizes, s: State, steps: seq<Step>, t: State)
    requires Inv(z, s) && z.Valid() && Reaches(z, s, steps, t)
    ensures Inv(z, t)
    decreases |steps|
  {
    if steps != [] {
      hide Apply, Enabled, DownOk, ExitOk, UpOk, InStep, TornOk;
      StepKeeps(z, s, steps[0]);
      RunKeeps(z, Apply(z, s, steps[0]), steps[1..], t);
    }
  }
}

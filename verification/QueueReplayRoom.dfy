/** Which accepted lists a given kernel carries out: those in which every write to a pipe finds the slot it needs. */
module QueueReplayRoom {
  import opened Basics
  import opened QueueReplay
  import opened QueueReplayPipes
  import opened QueueReplayProofs

  /** A write to a pipe whose slots are all taken, the last one by a page the bytes do not fit in. */
  predicate Overflows(ps: seq<Position>, k: seq<Real>, e: Event)
    requires |k| == |ps|
  {
    var f := Find(ps, e.fd, 0);
    && e.Send? && !e.source.Move? && !e.source.Copy? && f.Some? && ps[f.value].kind.Pipe?
    && var o := Owner(ps, f.value);
       k[o].RealPipe? && |WriteSlots(k[o].slots, e.data)| > MaxSlots(ps[o].capacity)
  }

  predicate OverflowsIn(ps: seq<Position>, s: State, k: seq<Real>, es: seq<Event>, costs: seq<nat>)
    requires Sized(ps, s) && |k| == |ps| && |costs| == |es|
    decreases |es|
  {
    es != [] &&
    (Overflows(ps, k, es[0]) ||
      var t, l := Interpret(ps, s, es[0]), Effect(ps, k, es[0], costs[0]);
      t.Some? && l.Some? && OverflowsIn(ps, t.value, l.value, es[1..], costs[1..]))
  }

  /** Whatever the list has done so far: no pipe is promised room. */
  function Anything(ps: seq<Position>, closed: set<nat>): Past {
    Past(closed, Below(|ps|))
  }

  lemma {:induction false} StaysInStep(ps: seq<Position>, s: State, k: seq<Real>, past: Past)
    requires Rel(ps, s, k, past)
    ensures Rel(ps, s, k, Anything(ps, past.closed))
  {
    forall o: nat | IsOwner(ps, o)
      ensures InStep(ps, s.queues[o], Live(s.messages, o), k[o], o, Anything(ps, past.closed))
    {
      assert InStep(ps, s.queues[o], Live(s.messages, o), k[o], o, past);
    }
  }

  /** Whether or not the write is cramped. */
  lemma {:induction false} WriteThatFits(ps: seq<Position>, s: State, k: seq<Real>, closed: set<nat>, i: nat, e: Event,
                                         cost: nat)
    requires WellFormed(ps) && Rel(ps, s, k, Anything(ps, closed)) && i < |ps| && ps[i].kind.Pipe? && e.Send?
    requires Find(ps, e.fd, 0) == Some(i) && !e.source.Move? && !e.source.Copy? && e.data != []
    requires SendOp(ps, s, i, e).Some? && !Overflows(ps, k, e)
    ensures RealSend(ps, k, i, e, cost).Some?
    ensures Rel(ps, SendOp(ps, s, i, e).value, RealSend(ps, k, i, e, cost).value, Anything(ps, closed))
  {
    var o, past := Owner(ps, i), Anything(ps, closed);
    PipeSendShape(ps, s, i, e);
    assert InStep(ps, s.queues[o], Live(s.messages, o), k[o], o, past);
    WriteShape(k[o].slots, e.data);
    RelFrame(ps, s, SendOp(ps, s, i, e).value, k, RealSend(ps, k, i, e, cost).value, past, past, {o});
  }

  /** Of all reasons the kernel has to refuse an operation the interpreter accepted, only this one can occur. */
  lemma {:induction false} StepFailsExactly(ps: seq<Position>, s: State, k: seq<Real>, closed: set<nat>, e: Event,
                                            cost: nat)
    requires WellFormed(ps) && Rel(ps, s, k, Anything(ps, closed)) && cost <= CHARGE && Interpret(ps, s, e).Some?
    ensures Effect(ps, k, e, cost).None? <==> Overflows(ps, k, e)
    ensures Effect(ps, k, e, cost).Some? ==>
      Rel(ps, Interpret(ps, s, e).value, Effect(ps, k, e, cost).value, Anything(ps, closed + ClosedBy(ps, e)))
  {
    var past := Anything(ps, closed);
    if Cramped(ps, s, past.rough, e) {
      var i := Find(ps, e.fd, 0).value;
      assert closed + ClosedBy(ps, e) == closed;
      if !Overflows(ps, k, e) { WriteThatFits(ps, s, k, closed, i, e, cost); }
    } else {
      StepInStep(ps, s, k, past, e, cost);
      StaysInStep(ps, Interpret(ps, s, e).value, Effect(ps, k, e, cost).value, PastAfter(ps, past, e));
    }
  }

  lemma {:induction false} ReplaysExactlyFrom(ps: seq<Position>, s: State, k: seq<Real>, closed: set<nat>,
                                              es: seq<Event>, costs: seq<nat>)
    requires WellFormed(ps) && Rel(ps, s, k, Anything(ps, closed)) && |costs| == |es| && DryRun(ps, s, es).Some?
    requires forall c :: 0 <= c < |costs| ==> costs[c] <= CHARGE
    ensures Replay(ps, s, k, es, costs).Some? <==> !OverflowsIn(ps, s, k, es, costs)
    decreases |es|
  {
    if es != [] {
      StepFailsExactly(ps, s, k, closed, es[0], costs[0]);
      var t, l := Interpret(ps, s, es[0]).value, Effect(ps, k, es[0], costs[0]);
      if l.Some? { ReplaysExactlyFrom(ps, t, l.value, closed + ClosedBy(ps, es[0]), es[1..], costs[1..]); }
    }
  }

  /** For every kernel that holds what was captured, in whatever slots: an accepted list is carried out to its end if
      and only if no write in it overflows. */
  lemma {:induction false} ReplaysExactly(ps: seq<Position>, k: seq<Real>, pollOut: nat -> bool, es: seq<Event>,
                                          costs: seq<nat>)
    requires WellFormed(ps) && AtSnapshot(ps, k, pollOut) && Start(ps, pollOut).Some?
    requires |costs| == |es| && forall c :: 0 <= c < |costs| ==> costs[c] <= CHARGE
    requires DryRun(ps, Start(ps, pollOut).value, es).Some?
    ensures Replay(ps, Start(ps, pollOut).value, k, es, costs).Some? <==>
      !OverflowsIn(ps, Start(ps, pollOut).value, k, es, costs)
  {
    StartInStep(ps, k, pollOut);
    StaysInStep(ps, Start(ps, pollOut).value, k, NOTHING);
    ReplaysExactlyFrom(ps, Start(ps, pollOut).value, k, {}, es, costs);
  }
}

/** The loop that runs a recorded list, once over private queues alone and once over the kernel as well. */
module QueueReplayJob {
  import opened Basics
  import opened QueueReplay

  lemma {:induction false} DryRunNext(ps: seq<Position>, s: State, es: seq<Event>, n: nat)
    requires Sized(ps, s) && n < |es|
    ensures DryRun(ps, s, es[..n + 1]) ==
      match DryRun(ps, s, es[..n])
      case None => None
      case Some(t) => Interpret(ps, t, es[n])
    decreases n
  {
    assert es[..n + 1][0] == es[0] && es[..n + 1][1..] == es[1..][..n];
    if n > 0 {
      assert es[..n][0] == es[0] && es[..n][1..] == es[1..][..n - 1];
      var t := Interpret(ps, s, es[0]);
      if t.Some? { DryRunNext(ps, t.value, es[1..], n - 1); }
    }
  }

  /** One operation of the replay. */
  function Carry(ps: seq<Position>, s: State, k: seq<Real>, e: Event, cost: nat): Option<(State, seq<Real>)>
    requires Sized(ps, s) && |k| == |ps|
  {
    var t, l := Interpret(ps, s, e), Effect(ps, k, e, cost);
    if t.Some? && l.Some? then Some((t.value, l.value)) else None
  }

  lemma {:induction false} ReplayNext(ps: seq<Position>, s: State, k: seq<Real>, es: seq<Event>, costs: seq<nat>,
                                      n: nat)
    requires Sized(ps, s) && |k| == |ps| && |costs| == |es| && n < |es|
    ensures Replay(ps, s, k, es[..n + 1], costs[..n + 1]) ==
      match Replay(ps, s, k, es[..n], costs[..n])
      case None => None
      case Some(r) => Carry(ps, r.0, r.1, es[n], costs[n])
    decreases n
  {
    assert es[..n + 1][0] == es[0] && es[..n + 1][1..] == es[1..][..n];
    assert costs[..n + 1][0] == costs[0] && costs[..n + 1][1..] == costs[1..][..n];
    if n > 0 {
      assert es[..n][0] == es[0] && es[..n][1..] == es[1..][..n - 1];
      assert costs[..n][0] == costs[0] && costs[..n][1..] == costs[1..][..n - 1];
      var r := Carry(ps, s, k, es[0], costs[0]);
      if r.Some? { ReplayNext(ps, r.value.0, r.value.1, es[1..], costs[1..], n - 1); }
    }
  }

  /** Whatever comes after an operation that fails. */
  lemma {:induction false} DryRunFails(ps: seq<Position>, s: State, es: seq<Event>, n: nat)
    requires Sized(ps, s) && n <= |es|
    ensures DryRun(ps, s, es[..n]).None? ==> DryRun(ps, s, es).None?
    decreases n
  {
    if n > 0 {
      assert es[..n][0] == es[0] && es[..n][1..] == es[1..][..n - 1];
      var t := Interpret(ps, s, es[0]);
      if t.Some? { DryRunFails(ps, t.value, es[1..], n - 1); }
    }
  }

  lemma {:induction false} ReplayFails(ps: seq<Position>, s: State, k: seq<Real>, es: seq<Event>, costs: seq<nat>,
                                       n: nat)
    requires Sized(ps, s) && |k| == |ps| && |costs| == |es| && n <= |es|
    ensures Replay(ps, s, k, es[..n], costs[..n]).None? ==> Replay(ps, s, k, es, costs).None?
    decreases n
  {
    if n > 0 {
      assert es[..n][0] == es[0] && es[..n][1..] == es[1..][..n - 1];
      assert costs[..n][0] == costs[0] && costs[..n][1..] == costs[1..][..n - 1];
      var r := Carry(ps, s, k, es[0], costs[0]);
      if r.Some? { ReplayFails(ps, r.value.0, r.value.1, es[1..], costs[1..], n - 1); }
    }
  }

  class Job {
    const positions: seq<Position>
    var queues: seq<Queue>
    var flags: seq<Flags>
    var messages: seq<Control>
    var kernel: seq<Real>

    constructor (positions: seq<Position>, start: State, kernel: seq<Real>)
      requires Sized(positions, start) && |kernel| == |positions|
      ensures this.positions == positions && View() == start && this.kernel == kernel && Valid()
    {
      this.positions := positions;
      queues, flags, messages := start.queues, start.flags, start.messages;
      this.kernel := kernel;
    }

    ghost predicate Valid()
      reads this
    {
      Sized(positions, View()) && |kernel| == |positions|
    }

    function View(): State
      reads this
    {
      State(queues, flags, messages)
    }

    /** The dry run leaves the kernel alone; the replay applies each operation right after its checks and stops at the
        first that is refused or not carried out as recorded: `done` is how many went before, and queues and kernel are
        as these have left them. */
    method ResourceEvents(events: seq<Event>, costs: seq<nat>, apply: bool)
      returns (ok: bool, ghost done: nat)
      requires Valid() && |costs| == |events|
      modifies this
      ensures Valid()
      ensures !apply ==> kernel == old(kernel) && (ok <==> DryRun(positions, old(View()), events).Some?)
      ensures !apply && ok ==> Some(View()) == DryRun(positions, old(View()), events)
      ensures apply ==> (ok <==> Replay(positions, old(View()), old(kernel), events, costs).Some?)
      ensures apply && ok ==> Some((View(), kernel)) == Replay(positions, old(View()), old(kernel), events, costs)
      ensures !ok ==> done < |events|
      ensures !apply && !ok ==>
        Some(View()) == DryRun(positions, old(View()), events[..done]) &&
          Interpret(positions, View(), events[done]).None?
      ensures apply && !ok ==>
        && Some((View(), kernel)) == Replay(positions, old(View()), old(kernel), events[..done], costs[..done])
        && Carry(positions, View(), kernel, events[done], costs[done]).None?
    {
      var index := 0;
      done := 0;
      while index < |events|
        invariant 0 <= index == done <= |events| && Valid()
        invariant !apply ==> Some(View()) == DryRun(positions, old(View()), events[..index])
        invariant apply ==>
          Some((View(), kernel)) == Replay(positions, old(View()), old(kernel), events[..index], costs[..index])
        invariant !apply ==> kernel == old(kernel)
      {
        DryRunNext(positions, old(View()), events, index);
        ReplayNext(positions, old(View()), old(kernel), events, costs, index);
        var next := Interpret(positions, View(), events[index]);
        if next.None? {
          DryRunFails(positions, old(View()), events, index + 1);
          ReplayFails(positions, old(View()), old(kernel), events, costs, index + 1);
          return false, index;
        }
        if apply {
          var applied := Effect(positions, kernel, events[index], costs[index]);
          if applied.None? {
            ReplayFails(positions, old(View()), old(kernel), events, costs, index + 1);
            return false, index;
          }
          kernel := applied.value;
        }
        queues, flags, messages := next.value.queues, next.value.flags, next.value.messages;
        index := index + 1;
        done := index;
      }
      assert events[..index] == events && costs[..index] == costs;
      return true, index;
    }
  }
}

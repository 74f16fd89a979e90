/** Which runs break the barrier.  A lease is never lost to a process that starts moving under it; it is lent wrongly,
    at the moment a decision starts while another process moves, and that process is one whose flag is stale. */
module TracerBreach {
  import opened Basics
  import opened Tracer
  import opened TracerSafety
  import opened TracerDecisions

  /** Another process than `p` runs user code, or can be moved to by a group stop. */
  predicate Intrudes(s: State, p: nat, q: nat) {
    q in s.procs && q != p && (s.procs[q].Running? || s.procs[q].Listening?)
  }

  predicate Intruded(s: State, p: nat) {
    exists q :: q in s.procs && Intrudes(s, p, q)
  }

  /** A decision holds its lease while another process moves. */
  predicate Broken(s: State) {
    exists p :: p in s.items && s.items[p].lease && Intruded(s, p)
  }

  /** The flag of a live process says it is in a vfork, and nothing the tracer could still be told of explains that. */
  predicate Stale(s: State, q: nat) {
    q in s.procs && Flagged(s, q) && !InsideVfork(s.procs[q]) && !UnseenExec(s.procs[q])
  }

  /** A decision starts although another process moves, which the tracer passes over because of its stale flag. */
  predicate Breaks(s: State, a: Action) {
    a.StartDecision? && a.started && exists q :: q in s.procs && Stale(s, q) && Intrudes(s, a.pid, q)
  }

  lemma {:induction false} IntruderIsStale(s: State, p: nat, q: nat)
    requires Inv(s) && Enabled(s, StartDecision(p, true)) && Intrudes(s, p, q)
    ensures Stale(s, q)
  {
    assert q in s.items;
  }

  lemma {:induction false} LentWronglyExactly(s: State, p: nat)
    requires Inv(s) && Enabled(s, StartDecision(p, true)) && !Broken(s)
    ensures Broken(Apply(s, StartDecision(p, true))) <==> Intruded(s, p)
  {
    var t := Apply(s, StartDecision(p, true));
    assert forall x, q :: Intrudes(t, x, q) == Intrudes(s, x, q);
    assert Intruded(t, p) == Intruded(s, p);
    assert t.items[p].lease;
  }

  lemma {:induction false} EditLendsNothing(s: State, x: nat, item: Item, barrier: Option<nat>, p: nat)
    requires x in s.items && (item.lease ==> s.items[x].lease)
    ensures var t := PutItem(s, x, item).(barrier := barrier);
      p in t.items && t.items[p].lease ==> p in s.items && s.items[p].lease
  {
  }

  lemma {:induction false} JobEndLendsNothing(s: State, x: nat, kept: bool, p: nat)
    requires Enabled(s, JobEnds(x, kept))
    ensures var t := Apply(s, JobEnds(x, kept));
      p in t.items && t.items[p].lease ==> p in s.items && s.items[p].lease
  {
    var item := s.items[x].(job := false, armed := false, pending := false, lease := false);
    EditLendsNothing(s, x, if kept then item.(observed := true) else item, ClearBarrier(s, x).barrier, p);
  }

  lemma {:induction false} RemovalKeepsLeases(s: State, a: Action, p: nat)
    requires Enabled(s, a) && (a.ReportDeath? || a.Detach?)
    requires p in Apply(s, a).items && Apply(s, a).items[p].lease
    ensures p in s.items && s.items[p].lease
  {
  }

  lemma {:induction false} RecordsLendNothing(s: State, a: Action, p: nat)
    requires Enabled(s, a) && OfRecords(a) && a != StartDecision(p, true)
    ensures p in Apply(s, a).items && Apply(s, a).items[p].lease ==> p in s.items && s.items[p].lease
  {
    match a
    case StartDecision(x, started) =>
      if started { assert Apply(s, a).items == s.items[x := s.items[x].(job := true, lease := true)]; } else {
        EditLendsNothing(s, x, s.items[x].(pending := false), None, p);
      }
    case Arm(x) => EditLendsNothing(s, x, s.items[x].(armed := true), s.barrier, p);
    case ReleaseLease(x) =>
      EditLendsNothing(s, x, s.items[x].(pending := false, lease := false), ClearBarrier(s, x).barrier, p);
    case JobEnds(x, kept) => JobEndLendsNothing(s, x, kept, p);
    case _ =>
  }

  /** No step but the start of a decision lends a lease. */
  lemma {:induction false} LeaseStays(s: State, a: Action, p: nat)
    requires Inv(s) && Enabled(s, a) && p in Apply(s, a).items && Apply(s, a).items[p].lease
    ensures (a == StartDecision(p, true)) || (p in s.items && s.items[p].lease)
  {
    if OfKernel(a) {
      KernelLeavesRecords(s, a);
    } else if OfRecords(a) {
      if a != StartDecision(p, true) { RecordsLendNothing(s, a, p); }
    } else {
      match a
      case Report(x) => ReportShape(s, x);
      case ReportDeath(_) => RemovalKeepsLeases(s, a, p);
      case Detach(_) => RemovalKeepsLeases(s, a, p);
      case _ =>
    }
  }

  lemma {:induction false} KernelLeavesRecords(s: State, a: Action)
    requires Enabled(s, a) && OfKernel(a)
    ensures Apply(s, a).items == s.items
  {
  }

  lemma {:induction false} KernelStartsNobody(s: State, a: Action, p: nat, q: nat)
    requires Inv(s) && Enabled(s, a) && OfKernel(a) && Intrudes(Apply(s, a), p, q)
    ensures Intrudes(s, p, q)
  {
  }

  lemma {:induction false} RecordsStartNobody(s: State, a: Action)
    requires Enabled(s, a) && OfRecords(a)
    ensures Apply(s, a).procs == s.procs
  {
  }

  /** Nobody starts moving while a lease is out. */
  lemma {:induction false} NobodyStarts(s: State, a: Action, p: nat, q: nat)
    requires Inv(s) && Enabled(s, a) && p in s.items && s.items[p].lease
    requires Intrudes(Apply(s, a), p, q)
    ensures Intrudes(s, p, q)
  {
    if OfKernel(a) {
      KernelStartsNobody(s, a, p, q);
    } else if OfRecords(a) {
      RecordsStartNobody(s, a);
    } else {
      match a
      case Report(x) => ReportShape(s, x);
      case _ =>
    }
  }

  /** A whole barrier breaks exactly when a decision starts while a process with a stale flag moves. */
  lemma {:induction false} StepBreaksExactly(s: State, a: Action)
    requires Inv(s) && Enabled(s, a) && !Broken(s)
    ensures Broken(Apply(s, a)) <==> Breaks(s, a)
  {
    var t := Apply(s, a);
    if a.StartDecision? && a.started {
      LentWronglyExactly(s, a.pid);
      if q :| q in s.procs && Intrudes(s, a.pid, q) { IntruderIsStale(s, a.pid, q); }
    } else if Broken(t) {
      var p :| p in t.items && t.items[p].lease && Intruded(t, p);
      var q :| q in t.procs && Intrudes(t, p, q);
      LeaseStays(s, a, p);
      NobodyStarts(s, a, p, q);
      assert Intruded(s, p);
    }
  }

  predicate EverBroken(s: State, run: seq<Action>)
    requires Possible(s, run)
    decreases |run|
  {
    Broken(s) || (run != [] && EverBroken(Apply(s, run[0]), run[1..]))
  }

  predicate EverBreaks(s: State, run: seq<Action>)
    requires Possible(s, run)
    decreases |run|
  {
    run != [] && (Breaks(s, run[0]) || EverBreaks(Apply(s, run[0]), run[1..]))
  }

  lemma {:induction false} BreaksExactly(s: State, run: seq<Action>)
    requires Inv(s) && Possible(s, run) && !Broken(s)
    ensures EverBroken(s, run) <==> EverBreaks(s, run)
    decreases |run|
  {
    if run != [] {
      StepKeepsInv(s, run[0]);
      StepBreaksExactly(s, run[0]);
      if !Breaks(s, run[0]) { BreaksExactly(Apply(s, run[0]), run[1..]); }
    }
  }

  /** From every state the tracer can come to with its barrier whole, stale flags or not: a continuation breaks the
      barrier exactly if in it a decision starts while another process moves that has a stale flag; nobody else can move
      when a decision may start. */
  lemma {:induction false} ContinuationBreaksExactly(s: State, root: nat, before: seq<Action>, after: seq<Action>)
    requires Initial(s, root) && Possible(s, before) && Possible(Run(s, before), after) && !Broken(Run(s, before))
    ensures EverBroken(Run(s, before), after) <==> EverBreaks(Run(s, before), after)
    ensures forall p, q :: Enabled(Run(s, before), StartDecision(p, true)) && Intrudes(Run(s, before), p, q) ==>
              Stale(Run(s, before), q)
  {
    InitialInv(s, root);
    RunKeepsInv(s, before);
    var t := Run(s, before);
    BreaksExactly(t, after);
    forall p, q | Enabled(t, StartDecision(p, true)) && Intrudes(t, p, q) ensures Stale(t, q) {
      IntruderIsStale(t, p, q);
    }
  }

  /** A stale flag is all it takes: while its process runs, any other process whose decision is due gets it, and the
      barrier is broken, as soon as everyone else is stopped or flagged. */
  lemma {:induction false} StaleFlagLetsIn(s: State, p: nat, q: nat)
    requires Inv(s) && Stale(s, q) && s.procs[q].Running? && q != p
    requires !s.draining && s.barrier.None? && Ready(s)
    requires p in s.items && s.items[p].pending && s.items[p].stopped && !s.items[p].job
    ensures Possible(s, [PickBarrier(p), StartDecision(p, true)])
    ensures Broken(Run(s, [PickBarrier(p), StartDecision(p, true)]))
  {
    var run := [PickBarrier(p), StartDecision(p, true)];
    var rest := [StartDecision(p, true)];
    assert run[1..] == rest && rest[1..] == [];
    var s1 := Apply(s, run[0]);
    var s2 := Apply(s1, rest[0]);
    assert Possible(s2, rest[1..]) && Run(s2, rest[1..]) == s2;
    assert Possible(s1, rest) && Run(s1, rest) == s2;
    assert Intrudes(s2, p, q) && Intruded(s2, p) && s2.items[p].lease;
  }
}

/** When a decision is due.  Every exec the session watches makes one due, on whatever record the tracer had; from then
    on nobody is continued until the process's own decision starts in vain, gives back its lease or ends, or the tracer
    gives the process up. */
module TracerDue {
  import opened Basics
  import opened Tracer
  import opened TracerSafety
  import opened TracerDecisions
  import opened TracerRelease

  predicate Due(s: State, p: nat) {
    p in s.items && s.items[p].pending
  }

  /** The report of an exec that is counted above one, while the session does not retire. */
  predicate MakesDue(s: State, a: Action, p: nat)
    requires Enabled(s, a)
  {
    a == Report(p) && s.procs[p].event.Exec? && s.execs >= 1 && !s.retiring
  }

  /** What ends the waiting of `p`. */
  predicate Settles(a: Action, p: nat) {
    a == StartDecision(p, false) || a == ReleaseLease(p) || (a.JobEnds? && a.pid == p) || a == ReportDeath(p) ||
    a == Detach(p)
  }

  /** After the report of an exec the process waits for a decision exactly if the exec is watched or it waited before,
      whatever record there was. */
  lemma {:induction false} ExecIsDue(s: State, p: nat)
    requires Enabled(s, Report(p)) && s.procs[p].event.Exec?
    ensures Due(Apply(s, Report(p)), p) <==> (s.execs >= 1 && !s.retiring) || Due(s, p)
  {
    var item, previous := Settled(ItemOf(s, p, false), s.procs[p].event), s.procs[p].event.previous;
    var s1 := Noted(s, p);
    var s2 := Replaced(s1, p, previous);
    assert p in s2.items && s2.items[p] == item;
    assert HandleReport(s, p) == Enlist(s1, p, previous);
    assert item.pending <==> Due(s, p);
  }

  lemma {:induction false} SettledDue(item: Item, e: Event)
    ensures Settled(item, e).pending == item.pending
  {
    var stopped := item.(stopped := true, listening := false);
    assert stopped.pending == item.pending;
  }

  lemma {:induction false} NotedDue(s: State, p: nat)
    requires Stopped(s, p)
    ensures Due(Noted(s, p), p) <==> Due(s, p)
  {
    var e := s.procs[p].event;
    var item := ItemOf(s, p, e.Stop?);
    SettledDue(item, e);
    assert Noted(s, p).items == s.items[p := Settled(item, e)];
  }

  lemma {:induction false} BirthLeavesDue(s: State, child: nat, p: nat)
    ensures Due(Acknowledge(s, child), p) <==> Due(s, p)
  {
  }

  lemma {:induction false} ReporterDue(s: State, p: nat)
    requires Enabled(s, Report(p))
    ensures Due(HandleReport(s, p), p) <==> MakesDue(s, Report(p), p) || Due(s, p)
  {
    var s1 := Noted(s, p);
    NotedDue(s, p);
    match s.procs[p].event
    case Exec(_) => ExecIsDue(s, p);
    case Born(_, child) => BirthLeavesDue(s1, child, p);
    case Stop(group) => StopLeavesDue(s1, p);
    case _ =>
  }

  lemma {:induction false} StopLeavesDue(s: State, p: nat)
    requires p in s.items
    ensures Due(PutItem(s, p, s.items[p].(listening := true)), p) <==> Due(s, p)
  {
  }

  lemma {:induction false} ReportLeavesDue(s: State, q: nat, p: nat)
    requires ReleaseInv(s) && Enabled(s, Report(q)) && p != q
    ensures Due(Apply(s, Report(q)), p) <==> Due(s, p)
  {
    ReportShape(s, q);
    if Due(s, p) {
      assert Held(s, p);
      HeldIsNoThread(s, q, p);
    }
  }

  /** Bookkeeping on the record of `q`. */
  lemma {:induction false} EditsDue(s: State, t: State, q: nat, item: Item, p: nat)
    requires q in s.items && t.items == s.items[q := item]
    ensures Due(t, p) <==> if p == q then item.pending else Due(s, p)
  {
  }

  lemma {:induction false} DecisionLeavesDue(s: State, q: nat, started: bool, p: nat)
    requires Enabled(s, StartDecision(q, started))
    ensures Due(Apply(s, StartDecision(q, started)), p) <==> Due(s, p) && !Settles(StartDecision(q, started), p)
  {
    var item := if started then s.items[q].(job := true, lease := true) else s.items[q].(pending := false);
    EditsDue(s, Apply(s, StartDecision(q, started)), q, item, p);
  }

  lemma {:induction false} JobLeavesDue(s: State, a: Action, p: nat)
    requires Enabled(s, a) && (a.Arm? || a.ReleaseLease? || a.JobEnds?)
    ensures Due(Apply(s, a), p) <==> Due(s, p) && !Settles(a, p)
  {
    var q := a.pid;
    match a
    case Arm(_) => EditsDue(s, Apply(s, a), q, s.items[q].(armed := true), p);
    case ReleaseLease(_) => EditsDue(s, Apply(s, a), q, s.items[q].(pending := false, lease := false), p);
    case JobEnds(_, kept) =>
      var item := s.items[q].(job := false, armed := false, pending := false, lease := false);
      EditsDue(s, Apply(s, a), q, if kept then item.(observed := true) else item, p);
  }

  lemma {:induction false} RecordsLeaveDue(s: State, a: Action, p: nat)
    requires Enabled(s, a) && OfRecords(a)
    ensures Due(Apply(s, a), p) <==> Due(s, p) && !Settles(a, p)
  {
    match a
    case PickBarrier(_) => assert Apply(s, a).items == s.items;
    case StartDecision(q, started) => DecisionLeavesDue(s, q, started, p);
    case _ => JobLeavesDue(s, a, p);
  }

  lemma {:induction false} TracerLeavesDue(s: State, a: Action, p: nat)
    requires Enabled(s, a)
    requires a.ReportDeath? || a.Continue? || a.RestoreImage? || a.Retire? || a.Drain? || a.Detach?
    ensures Due(Apply(s, a), p) <==> Due(s, p) && !Settles(a, p)
  {
  }

  /** One step: only the report of a watched exec makes a decision due, and only the five steps of `Settles` end it. */
  lemma {:induction false} StepDueExactly(s: State, a: Action, p: nat)
    requires ReleaseInv(s) && Enabled(s, a)
    ensures Due(Apply(s, a), p) <==> MakesDue(s, a, p) || (Due(s, p) && !Settles(a, p))
  {
    if OfKernel(a) { KernelLeaves(s, a); }
    else if OfRecords(a) { RecordsLeaveDue(s, a, p); }
    else if !a.Report? { TracerLeavesDue(s, a, p); }
    else if a.pid == p { ReporterDue(s, p); }
    else { ReportLeavesDue(s, a.pid, p); }
  }

  // ---------------------------------------------------------------- whole runs

  lemma {:induction false} RunSplits(s: State, run: seq<Action>, i: nat)
    requires Possible(s, run) && i <= |run|
    ensures Possible(s, run[..i]) && Possible(Run(s, run[..i]), run[i..])
    ensures Run(s, run) == Run(Run(s, run[..i]), run[i..])
    ensures i < |run| ==> Enabled(Run(s, run[..i]), run[i])
    decreases i
  {
    if i == 0 {
      assert run[..0] == [] && run[0..] == run;
    } else {
      RunSplits(Apply(s, run[0]), run[1..], i - 1);
      assert run[..i][1..] == run[1..][..i - 1] && run[1..][i - 1..] == run[i..];
      assert i < |run| ==> run[1..][i - 1] == run[i];
    }
  }

  /** The i-th action of the run makes a decision on `p` due. */
  predicate DueAt(s: State, run: seq<Action>, i: nat, p: nat) {
    && i < |run| && Possible(s, run[..i]) && Enabled(Run(s, run[..i]), run[i])
    && MakesDue(Run(s, run[..i]), run[i], p)
  }

  predicate NoneSettles(run: seq<Action>, from: nat, p: nat) {
    forall j :: from <= j < |run| ==> !Settles(run[j], p)
  }

  lemma {:induction false} InPrefix(s: State, run: seq<Action>, i: nat, n: nat, p: nat)
    requires i < n <= |run|
    ensures DueAt(s, run[..n], i, p) <==> DueAt(s, run, i, p)
  {
    assert run[..n][..i] == run[..i];
  }

  /** The report of the i-th action is the last word on `p`. */
  predicate LastWord(s: State, run: seq<Action>, i: nat, p: nat) {
    DueAt(s, run, i, p) && NoneSettles(run, i + 1, p)
  }

  lemma {:induction false} LastWordStays(s: State, run: seq<Action>, i: nat, p: nat)
    requires run != [] && i < |run| - 1
    ensures LastWord(s, run, i, p) <==> LastWord(s, run[..|run| - 1], i, p) && !Settles(run[|run| - 1], p)
  {
    var n := |run| - 1;
    InPrefix(s, run, i, n, p);
    if NoneSettles(run[..n], i + 1, p) && !Settles(run[n], p) {
      forall j | i + 1 <= j < |run| ensures !Settles(run[j], p) { assert j < n ==> run[..n][j] == run[j]; }
    }
  }

  /** In every run a decision on `p` is due exactly if some report of a watched exec of `p` made it so and none of the
      five steps came after it. */
  lemma {:induction false} DueExactly(s: State, root: nat, run: seq<Action>, p: nat)
    requires Initial(s, root) && Possible(s, run)
    ensures Due(Run(s, run), p) <==> exists i: nat :: i < |run| && LastWord(s, run, i, p)
    decreases |run|
  {
    if run != [] {
      var n := |run| - 1;
      var init, a := run[..n], run[n];
      RunSplits(s, run, n);
      assert run[n..] == [a];
      var t := Run(s, init);
      assert Run(s, run) == Apply(t, a);
      ReachedListed(s, root, init);
      StepDueExactly(t, a, p);
      DueExactly(s, root, init, p);
      assert LastWord(s, run, n, p) <==> MakesDue(t, a, p);
      forall i: nat | i < n
        ensures LastWord(s, run, i, p) <==> LastWord(s, init, i, p) && !Settles(a, p)
      {
        LastWordStays(s, run, i, p);
      }
    }
  }

  /** After the report of a watched exec, whatever the run does then: as long as none of the five steps is taken for the
      process, its decision is due and no process at all is continued. */
  lemma {:induction false} ExecWaitsForItsDecision(s: State, root: nat, before: seq<Action>, p: nat, after: seq<Action>)
    requires Initial(s, root) && Possible(s, before) && Enabled(Run(s, before), Report(p))
    requires MakesDue(Run(s, before), Report(p), p)
    requires Possible(Apply(Run(s, before), Report(p)), after) && NoneSettles(after, 0, p)
    ensures var t := Run(Apply(Run(s, before), Report(p)), after);
      Due(t, p) && forall q :: !Enabled(t, Continue(q))
  {
    ReachedListed(s, root, before);
    var u := Apply(Run(s, before), Report(p));
    StepKeepsListed(Run(s, before), Report(p));
    ExecIsDue(Run(s, before), p);
    DueStays(u, after, p);
  }

  lemma {:induction false} DueStays(s: State, run: seq<Action>, p: nat)
    requires ReleaseInv(s) && Possible(s, run) && Due(s, p) && NoneSettles(run, 0, p)
    ensures Due(Run(s, run), p)
    decreases |run|
  {
    if run != [] {
      StepKeepsListed(s, run[0]);
      StepDueExactly(s, run[0], p);
      assert forall j :: 0 <= j < |run| - 1 ==> run[1..][j] == run[j + 1];
      DueStays(Apply(s, run[0]), run[1..], p);
    }
  }

  /** While a decision is due and the session does not drain, the barrier is taken or can be taken for it. */
  lemma {:induction false} DueIsTakenUp(s: State, root: nat, run: seq<Action>, p: nat)
    requires Initial(s, root) && Possible(s, run) && Due(Run(s, run), p) && !Run(s, run).draining
    ensures var t := Run(s, run);
      && (t.barrier.None? ==> Enabled(t, PickBarrier(p)))
      && (t.barrier == Some(p) && Ready(t) && !t.items[p].job ==>
           Enabled(t, StartDecision(p, true)) && Enabled(t, StartDecision(p, false)))
  {
    ReachedListed(s, root, run);
    assert Held(Run(s, run), p) && HeldRecord(Run(s, run), p);
  }
}

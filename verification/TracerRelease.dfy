/** Whom the tracer lets go.  A process with a job never; one whose decision is merely due when the session drains: then
    it is detached and goes on without a decision. */
module TracerRelease {
  import opened Basics
  import opened Tracer
  import opened TracerSafety
  import opened TracerDecisions
  import opened TracerBreach
  import opened TracerStaleFlag

  // ---------------------------------------------------------------- the records of held processes

  /** A held process is stopped for the tracer, and its record is not that of an earlier image. */
  predicate HeldRecord(s: State, p: nat) {
    p in s.procs && p in s.items && s.items[p].stopped && !s.items[p].listening && !s.items[p].observed
  }

  predicate HeldListed(s: State) {
    forall p :: p in s.items && Held(s, p) ==> HeldRecord(s, p)
  }

  predicate ReleaseInv(s: State) {
    HeldInv(s) && HeldListed(s)
  }

  lemma {:induction false} KernelKeepsListed(s: State, a: Action)
    requires ReleaseInv(s) && Enabled(s, a) && OfKernel(a)
    ensures HeldListed(Apply(s, a))
  {
    var t := Apply(s, a);
    KernelLeaves(s, a);
    forall p | Held(t, p) ensures HeldRecord(t, p) {
      assert Held(s, p) && HeldRecord(s, p) && HeldMode(s.procs[p]);
    }
  }

  lemma {:induction false} KernelLeaves(s: State, a: Action)
    requires Enabled(s, a) && OfKernel(a)
    ensures var t := Apply(s, a);
      && t.items == s.items && t.barrier == s.barrier && t.draining == s.draining
      && forall p :: p in s.procs && p !in t.procs ==> s.procs[p].Running?
  {
  }

  /** What a held process still has to report can only be an exec by a sibling thread. */
  lemma {:induction false} HeldReportsExecs(s: State, p: nat)
    requires ReleaseInv(s) && Enabled(s, Report(p)) && Held(s, p)
    ensures s.procs[p].event.Exec?
  {
    assert HeldRecord(s, p);
  }

  lemma {:induction false} ReporterListed(s: State, p: nat)
    requires ReleaseInv(s) && Enabled(s, Report(p))
    ensures var t := HandleReport(s, p); Held(t, p) ==> HeldRecord(t, p)
  {
    var t := HandleReport(s, p);
    ReportHoldsShape(s, p);
    if Held(t, p) {
      assert Held(s, p) || s.procs[p].event.Exec?;
      if Held(s, p) { HeldReportsExecs(s, p); }
      ExecRecord(s, p);
    }
  }

  /** The record an exec report leaves: the kept one, or what the decision on a new image makes of it. */
  lemma {:induction false} ExecLeaves(s: State, p: nat)
    requires Stopped(s, p) && s.procs[p].event.Exec?
    ensures var t, item := HandleReport(s, p), Settled(ItemOf(s, p, false), s.procs[p].event);
      p in t.items && (t.items[p] == item || t.items[p] == Decided(item))
  {
    var s1, previous := Noted(s, p), s.procs[p].event.previous;
    var s2 := Replaced(s1, p, previous);
    assert p in s2.items && s2.items[p] == s1.items[p];
    assert HandleReport(s, p) == Enlist(s1, p, previous);
  }

  lemma {:induction false} ExecRecord(s: State, p: nat)
    requires ReleaseInv(s) && Enabled(s, Report(p)) && s.procs[p].event.Exec?
    requires Held(s, p) || (p in HandleReport(s, p).items && HandleReport(s, p).items[p].pending)
    ensures var t := HandleReport(s, p);
      p in t.items && t.items[p].stopped && !t.items[p].listening && !t.items[p].observed
  {
    ExecLeaves(s, p);
    assert Held(s, p) ==> HeldRecord(s, p);
  }

  lemma {:induction false} ReportKeepsListed(s: State, p: nat)
    requires ReleaseInv(s) && Enabled(s, Report(p))
    ensures HeldListed(HandleReport(s, p))
  {
    var t := HandleReport(s, p);
    ReportHoldsShape(s, p);
    ReporterListed(s, p);
    forall q | q != p && Held(t, q) ensures HeldRecord(t, q) {
      assert Held(s, q) && HeldRecord(s, q);
      assert OnlyAwaits(s.items[q], t.items[q]);
    }
  }

  /** Job bookkeeping: a hold that is new or goes on has the record it had. */
  lemma {:induction false} EditKeepsListed(s: State, p: nat, item: Item, barrier: Option<nat>)
    requires ReleaseInv(s) && p in s.items && (barrier == s.barrier || barrier == None || barrier == Some(p))
    requires item.stopped == s.items[p].stopped && item.listening == s.items[p].listening
    requires var t := PutItem(s, p, item).(barrier := barrier);
      Held(t, p) ==> Held(s, p) && item.observed == s.items[p].observed
    ensures HeldListed(PutItem(s, p, item).(barrier := barrier))
  {
    var t := PutItem(s, p, item).(barrier := barrier);
    forall q | Held(t, q) ensures HeldRecord(t, q) { assert Held(s, q) && HeldRecord(s, q); }
  }

  lemma {:induction false} RecordsKeepListed(s: State, a: Action)
    requires ReleaseInv(s) && Enabled(s, a) && OfRecords(a)
    ensures HeldListed(Apply(s, a))
  {
    match a
    case PickBarrier(p) =>
      assert PutItem(s, p, s.items[p]).(barrier := Some(p)) == Apply(s, a);
      EditKeepsListed(s, p, s.items[p], Some(p));
    case StartDecision(p, started) =>
      if started { EditKeepsListed(s, p, s.items[p].(job := true, lease := true), s.barrier); } else {
        EditKeepsListed(s, p, s.items[p].(pending := false), None);
      }
    case Arm(p) => EditKeepsListed(s, p, s.items[p].(armed := true), s.barrier);
    case ReleaseLease(p) =>
      EditKeepsListed(s, p, s.items[p].(pending := false, lease := false), ClearBarrier(s, p).barrier);
    case JobEnds(p, kept) => JobEndKeepsListed(s, p, kept);
    case _ =>
  }

  lemma {:induction false} JobEndKeepsListed(s: State, p: nat, kept: bool)
    requires ReleaseInv(s) && Enabled(s, JobEnds(p, kept))
    ensures HeldListed(Apply(s, JobEnds(p, kept)))
  {
    var item := s.items[p].(job := false, armed := false, pending := false, lease := false);
    EditKeepsListed(s, p, if kept then item.(observed := true) else item, ClearBarrier(s, p).barrier);
  }

  lemma {:induction false} ContinueKeepsListed(s: State, p: nat)
    requires ReleaseInv(s) && Enabled(s, Continue(p))
    ensures HeldListed(Resumed(s, p))
  {
    var t := Resumed(s, p);
    forall q | Held(t, q) ensures HeldRecord(t, q) {
      assert q != p;
      assert Held(s, q) && HeldRecord(s, q);
    }
  }

  lemma {:induction false} OthersKeepListed(s: State, a: Action)
    requires ReleaseInv(s) && Enabled(s, a)
    requires a.ReportDeath? || a.Detach? || a.RestoreImage? || a.Retire? || a.Drain?
    ensures HeldListed(Apply(s, a))
  {
    var t := Apply(s, a);
    forall q | Held(t, q) ensures HeldRecord(t, q) { assert Held(s, q) && HeldRecord(s, q); }
  }

  lemma {:induction false} StepKeepsListed(s: State, a: Action)
    requires ReleaseInv(s) && Enabled(s, a)
    ensures ReleaseInv(Apply(s, a))
  {
    StepKeepsHeld(s, a);
    if OfKernel(a) { KernelKeepsListed(s, a); }
    else if OfRecords(a) { RecordsKeepListed(s, a); }
    else if a.Report? { ReportKeepsListed(s, a.pid); }
    else if a.Continue? { ContinueKeepsListed(s, a.pid); }
    else { OthersKeepListed(s, a); }
  }

  lemma {:induction false} RunKeepsListed(s: State, run: seq<Action>)
    requires ReleaseInv(s) && Possible(s, run)
    ensures ReleaseInv(Run(s, run))
    decreases |run|
  {
    if run != [] {
      StepKeepsListed(s, run[0]);
      RunKeepsListed(Apply(s, run[0]), run[1..]);
    }
  }

  lemma {:induction false} ReachedListed(s: State, root: nat, run: seq<Action>)
    requires Initial(s, root) && Possible(s, run)
    ensures ReleaseInv(Run(s, run))
  {
    InitialInv(s, root);
    RunKeepsListed(s, run);
  }

  // ---------------------------------------------------------------- letting go

  /** The step gives up a live process, or sets it moving. */
  predicate LetsGo(s: State, a: Action, p: nat)
    requires Enabled(s, a)
  {
    var t := Apply(s, a);
    && p in s.procs && !s.procs[p].Dead?
    && (p !in t.procs || t.procs[p].Running? || t.procs[p].Listening? || t.procs[p].InVfork?)
  }

  lemma {:induction false} KernelLetsNoneGo(s: State, a: Action, p: nat)
    requires ReleaseInv(s) && Enabled(s, a) && OfKernel(a) && Held(s, p)
    ensures !LetsGo(s, a, p)
  {
    assert HeldRecord(s, p) && HeldMode(s.procs[p]);
  }

  lemma {:induction false} TracerLetsNoneGo(s: State, a: Action, p: nat)
    requires ReleaseInv(s) && Enabled(s, a) && Held(s, p)
    requires OfRecords(a) || a.RestoreImage? || a.Retire? || a.Drain? || a.ReportDeath?
    ensures !LetsGo(s, a, p)
  {
    assert HeldRecord(s, p) && HeldMode(s.procs[p]);
    if OfRecords(a) { RecordsStartNobody(s, a); }
  }

  lemma {:induction false} ReportLetsNoneGo(s: State, q: nat, p: nat)
    requires ReleaseInv(s) && Enabled(s, Report(q)) && Held(s, p)
    ensures !LetsGo(s, Report(q), p)
  {
    assert HeldRecord(s, p) && HeldMode(s.procs[p]);
    ReportShape(s, q);
  }

  /** A process with a job, or whose decision is due, is not continued; and of all steps only its own detaching lets it
      go. */
  lemma {:induction false} OnlyDetachingLetsGo(s: State, a: Action, p: nat)
    requires ReleaseInv(s) && Enabled(s, a) && p in s.items && (s.items[p].job || s.items[p].pending)
    ensures a != Continue(p)
    ensures LetsGo(s, a, p) <==> a == Detach(p) && !s.procs[p].Dead?
  {
    assert Held(s, p) && HeldRecord(s, p) && HeldMode(s.procs[p]);
    if OfKernel(a) { KernelLetsNoneGo(s, a, p); }
    else if a.Report? { ReportLetsNoneGo(s, a.pid, p); }
    else if !a.Continue? && !a.Detach? { TracerLetsNoneGo(s, a, p); }
  }

  // ---------------------------------------------------------------- a process with a job

  lemma {:induction false} RecordsKeepJobs(s: State, a: Action, p: nat)
    requires Enabled(s, a) && OfRecords(a) && p in s.items && s.items[p].job && !(a.JobEnds? && a.pid == p)
    ensures p in Apply(s, a).items && Apply(s, a).items[p].job
  {
    if a.pid != p { assert Apply(s, a).items[p] == s.items[p]; }
  }

  /** A thread that an exec replaces is not held. */
  lemma {:induction false} HeldIsNoThread(s: State, q: nat, p: nat)
    requires ReleaseInv(s) && Enabled(s, Report(q)) && Held(s, p)
    ensures s.procs[q].event == Exec(p) ==> p == q
  {
    assert HeldRecord(s, p);
    assert Replacing(s.procs[q], q) ==> Lingers(s, s.procs[q].event.previous, q);
  }

  /** A record with a job is its process's own, and is neither replaced by an exec report nor dropped with a thread. */
  lemma {:induction false} ReportKeepsJobs(s: State, q: nat, p: nat)
    requires ReleaseInv(s) && Enabled(s, Report(q)) && p in s.items && s.items[p].job
    ensures p in HandleReport(s, q).items && HandleReport(s, q).items[p].job
  {
    assert Held(s, p) && HeldRecord(s, p);
    ReportShape(s, q);
    var t := HandleReport(s, q);
    if p == q {
      HeldReportsExecs(s, p);
      ExecLeaves(s, p);
    } else {
      HeldIsNoThread(s, q, p);
      assert OnlyAwaits(s.items[p], t.items[p]);
    }
  }

  lemma {:induction false} OthersKeepJobs(s: State, a: Action, p: nat)
    requires Enabled(s, a) && p in s.items && s.items[p].job && a != ReportDeath(p)
    requires a.ReportDeath? || a.Continue? || a.RestoreImage? || a.Retire? || a.Drain?
    ensures p in Apply(s, a).items && Apply(s, a).items[p].job
  {
  }

  lemma {:induction false} StepKeepsJob(s: State, a: Action, p: nat)
    requires ReleaseInv(s) && Enabled(s, a) && p in s.items && s.items[p].job
    requires !(a.JobEnds? && a.pid == p) && a != ReportDeath(p)
    ensures p in Apply(s, a).items && Apply(s, a).items[p].job
  {
    assert Busy(s);
    if OfKernel(a) { KernelLeaves(s, a); }
    else if OfRecords(a) { RecordsKeepJobs(s, a, p); }
    else if a.Report? { ReportKeepsJobs(s, a.pid, p); }
    else { OthersKeepJobs(s, a, p); }
  }

  lemma {:induction false} JobIsOver(s: State, a: Action, p: nat)
    requires Enabled(s, a) && ((a.JobEnds? && a.pid == p) || a == ReportDeath(p))
    ensures p in Apply(s, a).items ==> !Apply(s, a).items[p].job
  {
  }

  /** As long as its job is outstanding a process is neither continued nor detached, no step lets it go, and it keeps
      its record and its job through every step but the job's own end and the report of its death. */
  lemma {:induction false} OutstandingJobStays(s: State, root: nat, run: seq<Action>, a: Action, p: nat)
    requires Initial(s, root) && Possible(s, run) && Enabled(Run(s, run), a)
    requires var t := Run(s, run); p in t.items && t.items[p].job
    ensures a != Continue(p) && a != Detach(p) && !LetsGo(Run(s, run), a, p)
    ensures var u := Apply(Run(s, run), a);
      p in u.items && u.items[p].job <==> !(a.JobEnds? && a.pid == p) && a != ReportDeath(p)
  {
    ReachedListed(s, root, run);
    var t := Run(s, run);
    assert Busy(t);
    OnlyDetachingLetsGo(t, a, p);
    if !(a.JobEnds? && a.pid == p) && a != ReportDeath(p) { StepKeepsJob(t, a, p); } else { JobIsOver(t, a, p); }
  }

  // ---------------------------------------------------------------- a process whose decision is due

  /** A process whose decision is due, and has not started, is never continued.  Some step lets it go exactly if the
      session drains, nobody has a job, and the process lives and is not waiting for its parent's event: it is then
      detached although its decision never came. */
  lemma {:induction false} PendingLetGoExactly(s: State, root: nat, run: seq<Action>, p: nat)
    requires Initial(s, root) && Possible(s, run)
    requires var t := Run(s, run); p in t.items && t.items[p].pending && !t.items[p].job
    ensures var t := Run(s, run); p in t.procs && t.items[p].stopped && !t.items[p].listening
    ensures var t := Run(s, run);
      && (forall a :: Enabled(t, a) ==> a != Continue(p) && (LetsGo(t, a, p) ==> a == Detach(p)))
      && ((exists a :: Enabled(t, a) && LetsGo(t, a, p)) <==>
           t.draining && !Busy(t) && !t.items[p].awaiting && !t.procs[p].Dead?)
  {
    ReachedListed(s, root, run);
    var t := Run(s, run);
    assert Held(t, p) && HeldRecord(t, p);
    forall a | Enabled(t, a)
      ensures a != Continue(p) && (LetsGo(t, a, p) <==> a == Detach(p) && !t.procs[p].Dead?)
    {
      OnlyDetachingLetsGo(t, a, p);
    }
    if t.draining && !Busy(t) && !t.items[p].awaiting && !t.procs[p].Dead? {
      assert Enabled(t, Detach(p)) && LetsGo(t, Detach(p), p);
    }
  }

  // ---------------------------------------------------------------- a decision that never comes

  /** A session with one process. */
  function Alone(m: Mode, item: Item, retiring: bool, draining: bool, execs: nat): State {
    State(map[1 := m], map[], map[1 := item], None, retiring, draining, execs > 0, execs)
  }

  lemma {:induction false} SecondExecIsDue(rest: seq<Action>, due: Item, r: State)
    requires due == FreshItem(false).(stopped := true, pending := true)
    requires var s := Alone(Trapped(Exec(1), true), due, false, false, 2); Possible(s, rest) && Run(s, rest) == r
    ensures var s := Alone(Running, FreshItem(false), false, false, 1);
      var run := [Trap(1, Exec(1))] + ([Report(1)] + rest);
      Possible(s, run) && Run(s, run) == r
  {
    var blank := FreshItem(false);
    var s1, s2 := Alone(Running, blank, false, false, 1), Alone(Trapped(Exec(1), false), blank, false, false, 1);
    OneScene(s2, Report(1), Alone(Trapped(Exec(1), true), due, false, false, 2), rest);
    OneScene(s1, Trap(1, Exec(1)), s2, [Report(1)] + rest);
  }

  lemma {:induction false} FirstExecIsSkipped(rest: seq<Action>, r: State)
    requires var s := Alone(Trapped(Exec(1), true), FreshItem(false).(stopped := true), false, false, 1);
      Possible(s, rest) && Run(s, rest) == r
    ensures var s := Alone(Running, FreshItem(false), false, false, 0);
      var run := [Trap(1, Exec(1))] + ([Report(1)] + rest);
      Possible(s, run) && Run(s, run) == r
  {
    var blank := FreshItem(false);
    var s0, s1 := Alone(Running, blank, false, false, 0), Alone(Trapped(Exec(1), false), blank, false, false, 0);
    OneScene(s1, Report(1), Alone(Trapped(Exec(1), true), blank.(stopped := true), false, false, 1), rest);
    OneScene(s0, Trap(1, Exec(1)), s1, [Report(1)] + rest);
  }

  lemma {:induction false} GoesOn(rest: seq<Action>, r: State)
    requires var s := Alone(Running, FreshItem(false), false, false, 1); Possible(s, rest) && Run(s, rest) == r
    ensures var s := Alone(Trapped(Exec(1), true), FreshItem(false).(stopped := true), false, false, 1);
      Possible(s, [Continue(1)] + rest) && Run(s, [Continue(1)] + rest) == r
  {
    var blank := FreshItem(false);
    OneScene(Alone(Trapped(Exec(1), true), blank.(stopped := true), false, false, 1), Continue(1),
      Alone(Running, blank, false, false, 1), rest);
  }

  lemma {:induction false} Drains(due: Item)
    requires due == FreshItem(false).(stopped := true, pending := true)
    ensures var s, run := Alone(Trapped(Exec(1), true), due, false, false, 2), [Retire] + ([Drain] + []);
      Possible(s, run) && Run(s, run) == Alone(Trapped(Exec(1), true), due, true, true, 2)
  {
    var s5 := Alone(Trapped(Exec(1), true), due, false, false, 2);
    var s6, s7 := s5.(retiring := true), Alone(Trapped(Exec(1), true), due, true, true, 2);
    OneScene(s6, Drain, s7, []);
    OneScene(s5, Retire, s6, [Drain] + []);
  }

  lemma {:induction false} Draining(due: Item)
    requires due == FreshItem(false).(stopped := true, pending := true)
    ensures Dropped(Alone(Trapped(Exec(1), true), due, true, true, 2), 1)
  {
  }

  /** A program execs twice, and its session drains before the decision on the second exec starts: the program is let go
      without one. */
  lemma {:induction false} DueDecisionNeverComes()
    ensures exists s, run :: Initial(s, 1) && Possible(s, run) && Dropped(Run(s, run), 1)
  {
    var due := FreshItem(false).(stopped := true, pending := true);
    var r := Alone(Trapped(Exec(1), true), due, true, true, 2);
    var rest := [Retire] + ([Drain] + []);
    Drains(due);
    Draining(due);
    Chained(rest, due, r);
  }

  lemma {:induction false} Chained(rest: seq<Action>, due: Item, r: State)
    requires due == FreshItem(false).(stopped := true, pending := true)
    requires var s := Alone(Trapped(Exec(1), true), due, false, false, 2); Possible(s, rest) && Run(s, rest) == r
    ensures exists s, run :: Initial(s, 1) && Possible(s, run) && Run(s, run) == r
  {
    SecondExecIsDue(rest, due, r);
    var second := [Trap(1, Exec(1))] + ([Report(1)] + rest);
    GoesOn(second, r);
    FirstExecIsSkipped([Continue(1)] + second, r);
    assert Initial(Alone(Running, FreshItem(false), false, false, 0), 1);
  }

  /** The decision is due, and the next step lets the process go. */
  predicate Dropped(s: State, p: nat) {
    && p in s.items && s.items[p].pending && !s.items[p].job
    && Enabled(s, Detach(p)) && LetsGo(s, Detach(p), p)
  }
}

/** Whose turn it is.  The barrier is always that of a process whose decision is due, so that nobody is kept without a
    reason; a child waits for its parent's event exactly as long as that has not come; a group stop is listened to and
    every other stop is ended; and the session winds down for its own reasons only, and for good. */
module TracerTurns {
  import opened Basics
  import opened Tracer
  import opened TracerSafety
  import opened TracerDecisions
  import opened TracerRelease
  import opened TracerDue

  // ---------------------------------------------------------------- the barrier is due

  predicate BarrierDue(s: State) {
    !s.draining && s.barrier.Some? ==> Due(s, s.barrier.value)
  }

  lemma {:induction false} RecordsKeepBarrierDue(s: State, a: Action)
    requires ReleaseInv(s) && BarrierDue(s) && Enabled(s, a) && OfRecords(a)
    ensures BarrierDue(Apply(s, a))
  {
    if s.barrier.Some? { RecordsLeaveDue(s, a, s.barrier.value); }
  }

  lemma {:induction false} ReportKeepsBarrierDue(s: State, p: nat)
    requires ReleaseInv(s) && BarrierDue(s) && Enabled(s, Report(p))
    ensures BarrierDue(HandleReport(s, p))
  {
    ReportShape(s, p);
    ReportHoldsShape(s, p);
    if !s.draining && s.barrier.Some? { StepDueExactly(s, Report(p), s.barrier.value); }
  }

  lemma {:induction false} StepKeepsBarrierDue(s: State, a: Action)
    requires ReleaseInv(s) && BarrierDue(s) && Enabled(s, a)
    ensures BarrierDue(Apply(s, a))
  {
    if OfKernel(a) { KernelLeaves(s, a); }
    else if OfRecords(a) { RecordsKeepBarrierDue(s, a); }
    else if a.Report? { ReportKeepsBarrierDue(s, a.pid); }
  }

  lemma {:induction false} RunKeepsBarrierDue(s: State, run: seq<Action>)
    requires ReleaseInv(s) && BarrierDue(s) && Possible(s, run)
    ensures ReleaseInv(Run(s, run)) && BarrierDue(Run(s, run))
    decreases |run|
  {
    if run != [] {
      StepKeepsListed(s, run[0]);
      StepKeepsBarrierDue(s, run[0]);
      RunKeepsBarrierDue(Apply(s, run[0]), run[1..]);
    }
  }

  /** In every run, while the session does not drain: the barrier is of a process whose decision is due; so if none is,
      exactly the listed processes are continued that are stopped, have no job and do not await their parent's event. */
  lemma {:induction false} ContinuedExactly(s: State, root: nat, run: seq<Action>)
    requires Initial(s, root) && Possible(s, run) && !Run(s, run).draining
    ensures var t := Run(s, run); t.barrier.Some? ==> Due(t, t.barrier.value)
    ensures var t := Run(s, run);
      forall p :: Enabled(t, Continue(p)) <==>
        && (forall q :: !Due(t, q)) && p in t.items && t.items[p].stopped && !t.items[p].job && !t.items[p].awaiting
  {
    InitialInv(s, root);
    RunKeepsBarrierDue(s, run);
    var t := Run(s, run);
    assert (forall q :: !Due(t, q)) <==> NothingPending(t) by {
      assert forall q :: q in t.items ==> (Due(t, q) <==> t.items[q].pending);
    }
  }

  // ---------------------------------------------------------------- how a stop ends

  /** While the session does not drain, what the tracer heard of a stop decides whether it listens to it. */
  predicate ListensRight(s: State, p: nat) {
    !s.draining && p in s.procs && s.procs[p].Trapped? && s.procs[p].reported && p in s.items && s.items[p].stopped ==>
      (s.items[p].listening <==> s.procs[p].event == Stop(true))
  }

  ghost predicate ListensInv(s: State) {
    forall p :: ListensRight(s, p)
  }

  lemma {:induction false} ReporterListens(s: State, p: nat)
    requires Enabled(s, Report(p))
    ensures ListensRight(HandleReport(s, p), p)
  {
    ReportShape(s, p);
    match s.procs[p].event
    case Exec(_) =>
      ExecLeaves(s, p);
      SettledDeaf(ItemOf(s, p, false), s.procs[p].event);
    case Born(_, child) => BornListens(s, p, child);
    case Stop(group) => if !s.draining { StopListens(s, p); }
    case _ => SettledDeaf(ItemOf(s, p, false), s.procs[p].event);
  }

  lemma {:induction false} SettledDeaf(item: Item, e: Event)
    ensures !Settled(item, e).listening && Settled(item, e).stopped
  {
    var stopped := item.(stopped := true, listening := false);
    assert !stopped.listening;
  }

  lemma {:induction false} BornListens(s: State, p: nat, child: nat)
    requires Stopped(s, p) && s.procs[p].event.Born? && s.procs[p].event.child == child
    ensures p in HandleReport(s, p).items && !HandleReport(s, p).items[p].listening
  {
    var s1 := Noted(s, p);
    SettledDeaf(ItemOf(s, p, false), s.procs[p].event);
    assert p in s1.items && !s1.items[p].listening;
    assert HandleReport(s, p) == Acknowledge(s1, child);
  }

  lemma {:induction false} StopListens(s: State, p: nat)
    requires Stopped(s, p) && s.procs[p].event.Stop? && !s.draining
    ensures p in HandleReport(s, p).items
    ensures HandleReport(s, p).items[p].listening <==> s.procs[p].event.group
  {
    SettledDeaf(ItemOf(s, p, true), s.procs[p].event);
  }

  lemma {:induction false} ReportKeepsListens(s: State, p: nat)
    requires ListensInv(s) && Enabled(s, Report(p))
    ensures ListensInv(HandleReport(s, p))
  {
    var t := HandleReport(s, p);
    ReportShape(s, p);
    ReportHoldsShape(s, p);
    ReporterListens(s, p);
    forall q | q != p ensures ListensRight(t, q) {
      assert ListensRight(s, q);
    }
  }

  lemma {:induction false} KernelKeepsListens(s: State, a: Action)
    requires ListensInv(s) && Enabled(s, a) && OfKernel(a)
    ensures ListensInv(Apply(s, a))
  {
    var t := Apply(s, a);
    KernelLeaves(s, a);
    forall q ensures ListensRight(t, q) {
      assert ListensRight(s, q);
      assert q in t.procs && t.procs[q].Trapped? && t.procs[q].reported ==> q in s.procs && s.procs[q] == t.procs[q];
    }
  }

  lemma {:induction false} RecordsKeepListens(s: State, a: Action)
    requires ListensInv(s) && Enabled(s, a) && OfRecords(a)
    ensures ListensInv(Apply(s, a))
  {
    var t := Apply(s, a);
    forall q ensures ListensRight(t, q) {
      assert ListensRight(s, q);
    }
  }

  lemma {:induction false} OthersKeepListens(s: State, a: Action)
    requires ReleaseInv(s) && ListensInv(s) && Enabled(s, a)
    requires a.ReportDeath? || a.Continue? || a.RestoreImage? || a.Retire? || a.Drain? || a.Detach?
    ensures ListensInv(Apply(s, a))
  {
    var t := Apply(s, a);
    if a.RestoreImage? { assert Held(s, a.pid) && HeldRecord(s, a.pid); }
    forall q ensures ListensRight(t, q) {
      assert ListensRight(s, q);
    }
  }

  lemma {:induction false} StepKeepsListens(s: State, a: Action)
    requires ReleaseInv(s) && ListensInv(s) && Enabled(s, a)
    ensures ListensInv(Apply(s, a))
  {
    if OfKernel(a) { KernelKeepsListens(s, a); }
    else if OfRecords(a) { RecordsKeepListens(s, a); }
    else if a.Report? { ReportKeepsListens(s, a.pid); }
    else { OthersKeepListens(s, a); }
  }

  lemma {:induction false} RunKeepsListens(s: State, run: seq<Action>)
    requires ReleaseInv(s) && ListensInv(s) && Possible(s, run)
    ensures ListensInv(Run(s, run))
    decreases |run|
  {
    if run != [] {
      StepKeepsListed(s, run[0]);
      StepKeepsListens(s, run[0]);
      RunKeepsListens(Apply(s, run[0]), run[1..]);
    }
  }

  /** In every run, when a process is continued whose stop was reported: a group stop goes on and is listened to, a
      vfork event leaves it blocked, and after any other it runs. */
  lemma {:induction false} StopEndsExactly(s: State, root: nat, run: seq<Action>, p: nat)
    requires Initial(s, root) && Possible(s, run) && Enabled(Run(s, run), Continue(p))
    requires var t := Run(s, run); p in t.procs && t.procs[p].Trapped? && t.procs[p].reported
    ensures var t := Run(s, run); var m := Apply(t, Continue(p)).procs[p];
      && (m.Listening? <==> t.procs[p].event == Stop(true))
      && (m.InVfork? <==> t.procs[p].event.Born? && t.procs[p].event.kind.Vfork?)
      && (m.Running? <==> !m.Listening? && !m.InVfork?)
  {
    InitialInv(s, root);
    RunKeepsListens(s, run);
    assert ListensRight(Run(s, run), p);
  }

  // ---------------------------------------------------------------- an armed job

  lemma {:induction false} ReportKeepsArmed(s: State, q: nat, p: nat)
    requires ReleaseInv(s) && Enabled(s, Report(q)) && p in s.items && s.items[p].job && s.items[p].armed
    ensures p in HandleReport(s, q).items && HandleReport(s, q).items[p].armed
  {
    assert Held(s, p) && HeldRecord(s, p);
    ReportShape(s, q);
    ReportKeepsJobs(s, q, p);
    if p == q {
      HeldReportsExecs(s, p);
      ExecLeaves(s, p);
    } else {
      assert OnlyAwaits(s.items[p], HandleReport(s, q).items[p]);
    }
  }

  lemma {:induction false} RecordsKeepArmed(s: State, a: Action, p: nat)
    requires Enabled(s, a) && OfRecords(a) && p in s.items && s.items[p].armed && !(a.JobEnds? && a.pid == p)
    ensures p in Apply(s, a).items && Apply(s, a).items[p].armed
  {
    if a.pid != p { assert Apply(s, a).items[p] == s.items[p]; }
  }

  predicate Armed(s: State, p: nat) {
    p in s.items && s.items[p].job && s.items[p].armed
  }

  lemma {:induction false} StepKeepsArmed(s: State, a: Action, p: nat)
    requires ReleaseInv(s) && Enabled(s, a) && Armed(s, p) && !(a.JobEnds? && a.pid == p)
    ensures Armed(Apply(s, a), p)
  {
    StepKeepsJob(s, a, p);
    if OfKernel(a) { KernelLeaves(s, a); }
    else if OfRecords(a) { RecordsKeepArmed(s, a, p); }
    else if a.Report? { ReportKeepsArmed(s, a.pid, p); }
  }

  /** Once a job is armed only its own end is the end of it: until then no step drops the process's record, not even if
      the process dies. */
  lemma {:induction false} ArmedJobStays(s: State, root: nat, before: seq<Action>, p: nat, after: seq<Action>)
    requires Initial(s, root) && Possible(s, before) && Enabled(Run(s, before), Arm(p))
    requires Possible(Apply(Run(s, before), Arm(p)), after)
    requires forall i :: 0 <= i < |after| ==> !(after[i].JobEnds? && after[i].pid == p)
    ensures Armed(Run(Apply(Run(s, before), Arm(p)), after), p)
  {
    ReachedListed(s, root, before);
    StepKeepsListed(Run(s, before), Arm(p));
    ArmedStays(Apply(Run(s, before), Arm(p)), p, after);
  }

  lemma {:induction false} ArmedStays(s: State, p: nat, run: seq<Action>)
    requires ReleaseInv(s) && Armed(s, p) && Possible(s, run)
    requires forall i :: 0 <= i < |run| ==> !(run[i].JobEnds? && run[i].pid == p)
    ensures Armed(Run(s, run), p)
    decreases |run|
  {
    if run != [] {
      StepKeepsListed(s, run[0]);
      StepKeepsArmed(s, run[0], p);
      ArmedStays(Apply(s, run[0]), p, run[1..]);
    }
  }

  /** Restoring the image of a process leaves it dead, or stopped in the new image and heard of; nobody else is
      touched. */
  lemma {:induction false} RestoredOrDead(s: State, root: nat, run: seq<Action>, p: nat, dies: bool)
    requires Initial(s, root) && Possible(s, run) && Enabled(Run(s, run), RestoreImage(p, dies))
    ensures var t := Run(s, run); var u := Apply(t, RestoreImage(p, dies));
      && u == t.(procs := u.procs) && u.procs.Keys == t.procs.Keys
      && (forall q :: q in t.procs && q != p ==> u.procs[q] == t.procs[q])
      && (p in t.procs ==> (u.procs[p].Dead? <==> dies || t.procs[p].Dead?))
      && (p in t.procs && !u.procs[p].Dead? ==> u.procs[p] == Trapped(Signal, true))
  {
    ReachedListed(s, root, run);
    assert Held(Run(s, run), p) && HeldRecord(Run(s, run), p);
  }

  // ---------------------------------------------------------------- signs along a run

  type Sign = (State, Action) -> bool

  /** The i-th step of the run gives the sign. */
  predicate Gives(s: State, run: seq<Action>, i: nat, sign: Sign)
    requires Possible(s, run)
  {
    i < |run| && (RunSplits(s, run, i); sign(Run(s, run[..i]), run[i]))
  }

  predicate NoneGives(s: State, run: seq<Action>, from: nat, sign: Sign)
    requires Possible(s, run)
  {
    forall j: nat :: from <= j < |run| ==> !Gives(s, run, j, sign)
  }

  /** Every step makes it hold, ends it, or leaves it. */
  ghost predicate Turns(s: State, holds: State -> bool, makes: Sign, ends: Sign) {
    forall a :: Enabled(s, a) ==> (holds(Apply(s, a)) <==> makes(s, a) || (holds(s) && !ends(s, a)))
  }

  lemma {:induction false} GivesInPrefix(s: State, run: seq<Action>, i: nat, n: nat, sign: Sign)
    requires Possible(s, run) && i < n <= |run| && Possible(s, run[..n])
    ensures Gives(s, run[..n], i, sign) <==> Gives(s, run, i, sign)
  {
    assert run[..n][..i] == run[..i];
  }

  lemma {:induction false} NoneGivesOneMore(s: State, run: seq<Action>, from: nat, sign: Sign)
    requires Possible(s, run) && run != [] && from <= |run| - 1 && Possible(s, run[..|run| - 1])
    ensures NoneGives(s, run, from, sign) <==>
      NoneGives(s, run[..|run| - 1], from, sign) && !Gives(s, run, |run| - 1, sign)
  {
    var n := |run| - 1;
    var init := run[..n];
    forall j: nat | j < n ensures Gives(s, init, j, sign) <==> Gives(s, run, j, sign) {
      GivesInPrefix(s, run, j, n, sign);
    }
    if NoneGives(s, run, from, sign) {
      forall j: nat | from <= j < n ensures !Gives(s, init, j, sign) {
        assert !Gives(s, run, j, sign);
      }
    }
    if NoneGives(s, init, from, sign) && !Gives(s, run, n, sign) {
      forall j: nat | from <= j < |run| ensures !Gives(s, run, j, sign) {
        if j < n { assert !Gives(s, init, j, sign); }
      }
    }
  }

  predicate LastGiven(s: State, run: seq<Action>, i: nat, makes: Sign, ends: Sign)
    requires Possible(s, run)
  {
    Gives(s, run, i, makes) && NoneGives(s, run, i + 1, ends)
  }

  /** What starts false holds exactly if some step made it hold and none after that ended it. */
  lemma {:induction false} TurnsExactly(s: State, run: seq<Action>, holds: State -> bool, makes: Sign, ends: Sign)
    requires ReleaseInv(s) && Possible(s, run) && !holds(s)
    requires forall t :: ReleaseInv(t) ==> Turns(t, holds, makes, ends)
    ensures holds(Run(s, run)) <==> exists i: nat :: LastGiven(s, run, i, makes, ends)
    decreases |run|
  {
    if run != [] {
      var n := |run| - 1;
      var init := run[..n];
      RunSplits(s, run, n);
      assert run[n..] == [run[n]];
      var t := Run(s, init);
      assert Run(s, run) == Apply(t, run[n]);
      RunKeepsListed(s, init);
      TurnsExactly(s, init, holds, makes, ends);
      assert Turns(t, holds, makes, ends);
      assert Gives(s, run, n, makes) <==> makes(t, run[n]);
      forall i: nat | i < n
        ensures LastGiven(s, run, i, makes, ends) <==> LastGiven(s, init, i, makes, ends) && !ends(t, run[n])
      {
        GivesInPrefix(s, run, i, n, makes);
        NoneGivesOneMore(s, run, i + 1, ends);
        assert Gives(s, run, n, ends) <==> ends(t, run[n]);
      }
      assert LastGiven(s, run, n, makes, ends) <==> makes(t, run[n]);
      LastOneMore(s, run, init, n, ends(t, run[n]), makes(t, run[n]), makes, ends);
    }
  }

  lemma {:induction false} LastOneMore(s: State, run: seq<Action>, init: seq<Action>, n: nat, ended: bool, made: bool,
                                       makes: Sign, ends: Sign)
    requires Possible(s, run) && Possible(s, init) && |run| == n + 1 && |init| == n
    requires forall i: nat :: i < n ==>
      (LastGiven(s, run, i, makes, ends) <==> LastGiven(s, init, i, makes, ends) && !ended)
    requires LastGiven(s, run, n, makes, ends) <==> made
    ensures (exists i: nat :: LastGiven(s, run, i, makes, ends)) <==>
      made || ((exists i: nat :: LastGiven(s, init, i, makes, ends)) && !ended)
  {
    if i: nat :| LastGiven(s, run, i, makes, ends) {
      assert i < n ==> LastGiven(s, init, i, makes, ends);
    }
    if (exists i: nat :: LastGiven(s, init, i, makes, ends)) && !ended {
      var i: nat :| LastGiven(s, init, i, makes, ends);
      assert LastGiven(s, run, i, makes, ends);
    }
  }

  // ---------------------------------------------------------------- waiting for the parent's event

  predicate Awaits(s: State, p: nat) {
    p in s.items && s.items[p].awaiting
  }

  predicate Reporting(s: State, a: Action) {
    a.Report? && Stopped(s, a.pid)
  }

  predicate ReportsExec(s: State, a: Action) {
    Reporting(s, a) && s.procs[a.pid].event.Exec?
  }

  predicate ReportsBirth(s: State, a: Action) {
    Reporting(s, a) && s.procs[a.pid].event.Born?
  }

  /** A process the tracer has not heard of is first heard of by a stop of its own. */
  predicate HeardFirst(s: State, a: Action, p: nat) {
    a == Report(p) && Reporting(s, a) && p !in s.items && s.procs[p].event.Stop?
  }

  /** Its parent's event is reported, or its record goes: with the process, with its thread, or to make room for that of
      a new image. */
  predicate Named(s: State, a: Action, p: nat) {
    || (ReportsBirth(s, a) && s.procs[a.pid].event.child == p)
    || a == ReportDeath(p)
    || (ReportsExec(s, a) && a.pid != p && s.procs[a.pid].event.previous == p)
    || (a == Report(p) && ReportsExec(s, a) && p in s.items && s.items[p].observed && s.execs >= 1 && !s.retiring)
  }

  function FirstHeardOf(p: nat): Sign {
    (s: State, a: Action) => HeardFirst(s, a, p)
  }

  function NamedSign(p: nat): Sign {
    (s: State, a: Action) => Named(s, a, p)
  }

  lemma {:induction false} SettledAwaits(item: Item, e: Event)
    ensures Settled(item, e).awaiting == item.awaiting && Settled(item, e).observed == item.observed
  {
    var stopped := item.(stopped := true, listening := false);
    assert stopped.awaiting == item.awaiting;
  }

  lemma {:induction false} NotedAwaits(s: State, q: nat, p: nat)
    requires Stopped(s, q)
    ensures Awaits(Noted(s, q), p) <==> Awaits(s, p) || (p == q && p !in s.items && s.procs[p].event.Stop?)
  {
    var e := s.procs[q].event;
    var item := ItemOf(s, q, e.Stop?);
    SettledAwaits(item, e);
    assert Noted(s, q).items == s.items[q := Settled(item, e)];
  }

  lemma {:induction false} BirthAwaits(s: State, child: nat, p: nat)
    ensures Awaits(Acknowledge(s, child), p) <==> Awaits(s, p) && p != child
  {
  }

  lemma {:induction false} EnlistAwaits(s: State, q: nat, previous: nat, p: nat)
    requires q in s.items
    ensures Awaits(Enlist(s, q, previous), p) <==>
      Awaits(s, p) && !(p != q && previous == p) && !(p == q && s.items[q].observed && s.execs >= 1 && !s.retiring)
  {
    var s2 := Replaced(s, q, previous);
    assert q in s2.items && s2.items[q] == s.items[q];
    assert Awaits(s2, p) <==> Awaits(s, p) && !(p != q && previous == p);
  }

  lemma {:induction false} ReportAwaits(s: State, q: nat, p: nat)
    requires Enabled(s, Report(q))
    ensures Awaits(HandleReport(s, q), p) <==>
      HeardFirst(s, Report(q), p) || (Awaits(s, p) && !Named(s, Report(q), p))
  {
    var s1, e := Noted(s, q), s.procs[q].event;
    NotedAwaits(s, q, p);
    match e
    case Born(_, child) => BirthAwaits(s1, child, p);
    case Exec(previous) =>
      SettledAwaits(ItemOf(s, q, false), e);
      EnlistAwaits(s1, q, previous, p);
    case Stop(group) => assert Awaits(HandleReport(s, q), p) <==> Awaits(s1, p);
    case _ =>
  }

  lemma {:induction false} OthersLeaveAwaits(s: State, a: Action, p: nat)
    requires Enabled(s, a) && !OfKernel(a) && !OfRecords(a) && !a.Report?
    ensures Awaits(Apply(s, a), p) <==> Awaits(s, p) && a != ReportDeath(p)
  {
  }

  lemma {:induction false} EditAwaits(s: State, t: State, q: nat, item: Item, p: nat)
    requires q in s.items && t.items == s.items[q := item] && item.awaiting == s.items[q].awaiting
    ensures Awaits(t, p) <==> Awaits(s, p)
  {
  }

  lemma {:induction false} RecordsLeaveAwaits(s: State, a: Action, p: nat)
    requires Enabled(s, a) && OfRecords(a)
    ensures Awaits(Apply(s, a), p) <==> Awaits(s, p)
  {
    match a
    case PickBarrier(_) => assert Apply(s, a).items == s.items;
    case StartDecision(q, started) =>
      EditAwaits(s, Apply(s, a), q, if started then s.items[q].(job := true, lease := true)
        else s.items[q].(pending := false), p);
    case Arm(q) => EditAwaits(s, Apply(s, a), q, s.items[q].(armed := true), p);
    case ReleaseLease(q) => EditAwaits(s, Apply(s, a), q, s.items[q].(pending := false, lease := false), p);
    case JobEnds(q, kept) =>
      var item := s.items[q].(job := false, armed := false, pending := false, lease := false);
      EditAwaits(s, Apply(s, a), q, if kept then item.(observed := true) else item, p);
  }

  /** One step: a child starts to wait when it is first heard of by its own stop, and waits no longer when it is
      named. */
  lemma {:induction false} StepAwaitsExactly(s: State, a: Action, p: nat)
    requires Enabled(s, a)
    ensures Awaits(Apply(s, a), p) <==> HeardFirst(s, a, p) || (Awaits(s, p) && !Named(s, a, p))
  {
    if OfKernel(a) { KernelLeaves(s, a); }
    else if OfRecords(a) { RecordsLeaveAwaits(s, a, p); }
    else if a.Report? { ReportAwaits(s, a.pid, p); }
    else { OthersLeaveAwaits(s, a, p); }
  }

  /** In every run a process waits for its parent's event exactly if it was first heard of by its own stop and has not
      been named since; until then it is neither continued nor detached. */
  lemma {:induction false} AwaitsExactly(s: State, root: nat, run: seq<Action>, p: nat)
    requires Initial(s, root) && Possible(s, run)
    ensures Awaits(Run(s, run), p) <==>
      exists i: nat :: LastGiven(s, run, i, FirstHeardOf(p), NamedSign(p))
    ensures Awaits(Run(s, run), p) ==> !Enabled(Run(s, run), Continue(p)) && !Enabled(Run(s, run), Detach(p))
  {
    ReachedListed(s, root, []);
    var holds: State -> bool, makes, ends := (t => Awaits(t, p)), FirstHeardOf(p), NamedSign(p);
    forall t ensures Turns(t, holds, makes, ends) {
      forall a | Enabled(t, a) ensures holds(Apply(t, a)) <==> makes(t, a) || (holds(t) && !ends(t, a)) {
        StepAwaitsExactly(t, a, p);
      }
    }
    TurnsExactly(s, run, holds, makes, ends);
  }

  // ---------------------------------------------------------------- the session

  predicate Never(s: State, a: Action) {
    false
  }

  /** A child is born before anything was launched, or the session is told to drain. */
  predicate EndsSession(s: State, a: Action) {
    a.Drain? || (ReportsBirth(s, a) && !s.launched)
  }

  predicate Retires(s: State, a: Action) {
    a.Retire? || EndsSession(s, a)
  }

  lemma {:induction false} ReportSession(s: State, p: nat)
    requires Enabled(s, Report(p))
    ensures var t, a := HandleReport(s, p), Report(p);
      && t.launched == (s.launched || ReportsExec(s, a))
      && t.execs == s.execs + (if ReportsExec(s, a) then 1 else 0)
      && t.draining == (s.draining || EndsSession(s, a)) && t.retiring == (s.retiring || EndsSession(s, a))
  {
    match s.procs[p].event
    case Exec(previous) => EnlistSession(Noted(s, p), p, previous);
    case Born(_, child) => assert HandleReport(s, p) == Acknowledge(Noted(s, p), child);
    case _ =>
  }

  lemma {:induction false} EnlistSession(s: State, p: nat, previous: nat)
    requires p in s.items
    ensures var t := Enlist(s, p, previous);
      t.launched && t.execs == s.execs + 1 && t.draining == s.draining && t.retiring == s.retiring
  {
  }

  lemma {:induction false} StepSession(s: State, a: Action)
    requires Enabled(s, a)
    ensures var t := Apply(s, a);
      && t.launched == (s.launched || ReportsExec(s, a))
      && t.execs == s.execs + (if ReportsExec(s, a) then 1 else 0)
      && t.draining == (s.draining || EndsSession(s, a))
      && t.retiring == (s.retiring || a.Retire? || EndsSession(s, a))
  {
    if a.Report? { ReportSession(s, a.pid); }
  }

  /** In every run: the program counts as launched once an exec was reported; the session drains once it was told to or
      a birth was reported before that, and retires once it drains or was told to retire. */
  lemma {:induction false} SessionExactly(s: State, root: nat, run: seq<Action>)
    requires Initial(s, root) && Possible(s, run)
    ensures Run(s, run).launched <==> exists i: nat :: Gives(s, run, i, ReportsExec)
    ensures Run(s, run).draining <==> exists i: nat :: Gives(s, run, i, EndsSession)
    ensures Run(s, run).retiring <==> exists i: nat :: Gives(s, run, i, Retires)
  {
    LaunchedExactly(s, root, run);
    DrainsExactly(s, root, run);
    RetiresExactly(s, root, run);
  }

  lemma {:induction false} LaunchedExactly(s: State, root: nat, run: seq<Action>)
    requires Initial(s, root) && Possible(s, run)
    ensures Run(s, run).launched <==> exists i: nat :: Gives(s, run, i, ReportsExec)
  {
    forall t, a | Enabled(t, a) ensures Apply(t, a).launched <==> ReportsExec(t, a) || t.launched { StepSession(t, a); }
    SessionSign(s, root, run, (t: State) => t.launched, ReportsExec);
  }

  lemma {:induction false} DrainsExactly(s: State, root: nat, run: seq<Action>)
    requires Initial(s, root) && Possible(s, run)
    ensures Run(s, run).draining <==> exists i: nat :: Gives(s, run, i, EndsSession)
  {
    forall t, a | Enabled(t, a) ensures Apply(t, a).draining <==> EndsSession(t, a) || t.draining { StepSession(t, a); }
    SessionSign(s, root, run, (t: State) => t.draining, EndsSession);
  }

  lemma {:induction false} RetiresExactly(s: State, root: nat, run: seq<Action>)
    requires Initial(s, root) && Possible(s, run)
    ensures Run(s, run).retiring <==> exists i: nat :: Gives(s, run, i, Retires)
  {
    forall t, a | Enabled(t, a) ensures Apply(t, a).retiring <==> Retires(t, a) || t.retiring { StepSession(t, a); }
    SessionSign(s, root, run, (t: State) => t.retiring, Retires);
  }

  lemma {:induction false} SessionSign(s: State, root: nat, run: seq<Action>, holds: State -> bool, makes: Sign)
    requires Initial(s, root) && Possible(s, run) && !holds(s)
    requires forall t, a :: Enabled(t, a) ==> (holds(Apply(t, a)) <==> makes(t, a) || holds(t))
    ensures holds(Run(s, run)) <==> exists i: nat :: Gives(s, run, i, makes)
  {
    ReachedListed(s, root, []);
    TurnsExactly(s, run, holds, makes, Never);
    assert forall i: nat :: Gives(s, run, i, makes) ==> LastGiven(s, run, i, makes, Never);
  }

  /** Winding down is for good: from then on no barrier is taken, no job begins and nobody is continued. */
  lemma {:induction false} DrainingStartsNothing(s: State, run: seq<Action>)
    requires s.draining && Possible(s, run)
    ensures var t := Run(s, run);
      && t.draining && (t.barrier == s.barrier || t.barrier.None?) && forall p :: !Enabled(t, Continue(p))
    ensures var t := Run(s, run); forall p :: p in t.items && t.items[p].job ==> p in s.items && s.items[p].job
    decreases |run|
  {
    if run != [] {
      DrainingStep(s, run[0]);
      DrainingStartsNothing(Apply(s, run[0]), run[1..]);
    }
  }

  lemma {:induction false} DrainingStep(s: State, a: Action)
    requires s.draining && Enabled(s, a)
    ensures var t := Apply(s, a);
      && t.draining && (t.barrier == s.barrier || t.barrier.None?)
      && forall p :: p in t.items && t.items[p].job ==> p in s.items && s.items[p].job
  {
    StepSession(s, a);
    if OfKernel(a) { KernelLeaves(s, a); }
    else if a.Report? { ReportShape(s, a.pid); }
  }
}

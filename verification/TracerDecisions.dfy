/** Two further results about the tracer: a process with a job or a due decision is stopped for as long as it is listed,
    and the exact condition under which the flag `vforking` can be trusted. */
module TracerDecisions {
  import opened Basics
  import opened Tracer
  import opened TracerSafety

  // ---------------------------------------------------------------- held processes

  /** From its exec until its decision is over a process is held. */
  predicate Held(s: State, p: nat) {
    p in s.items && (s.items[p].job || s.items[p].pending || (!s.draining && s.barrier == Some(p)))
  }

  predicate HeldMode(m: Mode) {
    m.Dead? || (m.Trapped? && (m.event.Exec? || m.event.Signal?))
  }

  predicate HeldStay(s: State) {
    forall p :: p in s.procs && Held(s, p) ==> HeldMode(s.procs[p])
  }

  /** Only the first thread of a process is ever held. */
  predicate HeldLead(s: State) {
    && (forall p :: Held(s, p) ==> p !in s.leader)
    && (forall p :: p in s.procs && s.procs[p].Trapped? && s.procs[p].event.Exec? ==> p !in s.leader)
    && (!s.draining && s.barrier.Some? ==> s.barrier.value in s.items)
  }

  predicate HeldInv(s: State) {
    Inv(s) && HeldStay(s) && HeldLead(s)
  }

  lemma {:induction false} ModeKeepsHeld(s: State, p: nat, m: Mode)
    requires HeldInv(s) && p in s.procs
    requires Held(s, p) ==> HeldMode(m)
    requires m.Trapped? && m.event.Exec? ==> p !in s.leader
    ensures HeldStay(PutMode(s, p, m)) && HeldLead(PutMode(s, p, m))
  {
    var t := PutMode(s, p, m);
    assert forall q :: Held(t, q) == Held(s, q);
  }

  lemma {:induction false} BirthKeepsHeld(s: State, p: nat, kind: Birth, c: nat)
    requires HeldInv(s) && Enabled(s, Birthing(p, kind, c))
    ensures HeldStay(Apply(s, Birthing(p, kind, c))) && HeldLead(Apply(s, Birthing(p, kind, c)))
  {
    var t := Apply(s, Birthing(p, kind, c));
    assert forall q :: Held(t, q) == Held(s, q);
    assert forall q :: q != c && q in t.leader ==> q in s.leader;
  }

  lemma {:induction false} SiblingKeepsHeld(s: State, x: nat, l: nat)
    requires HeldInv(s) && Enabled(s, SiblingExec(x, l))
    ensures HeldStay(Apply(s, SiblingExec(x, l))) && HeldLead(Apply(s, SiblingExec(x, l)))
  {
    var t := Apply(s, SiblingExec(x, l));
    assert forall q :: Held(t, q) == Held(s, q);
  }

  lemma {:induction false} KernelKeepsHeld(s: State, a: Action)
    requires HeldInv(s) && Enabled(s, a) && OfKernel(a)
    ensures HeldStay(Apply(s, a)) && HeldLead(Apply(s, a))
  {
    match a
    case Trap(p, e) => ModeKeepsHeld(s, p, Trapped(e, false));
    case Birthing(p, kind, c) => BirthKeepsHeld(s, p, kind, c);
    case FirstTrap(p) => ModeKeepsHeld(s, p, Trapped(Stop(false), false));
    case VforkEnds(p) => ModeKeepsHeld(s, p, Trapped(VforkDone, false));
    case ListenTrap(p) => ModeKeepsHeld(s, p, Trapped(Stop(true), false));
    case Die(p) => ModeKeepsHeld(s, p, Dead);
    case SiblingExec(t, l) => SiblingKeepsHeld(s, t, l);
  }

  /** What a report does to the holds: it makes one only for the reporter, and only after an exec. */
  predicate ReportHolds(s: State, p: nat, t: State)
    requires Stopped(s, p)
  {
    && Reported(s, p, t)
    && (s.draining ==> t.draining)
    && (p in t.items && t.items[p].pending ==> s.procs[p].event.Exec? || (p in s.items && s.items[p].pending))
  }

  lemma {:induction false} ExecHolds(s1: State, p: nat, previous: nat)
    requires p in s1.items
    ensures var t := Enlist(s1, p, previous); t.draining == s1.draining && p in t.items
  {
  }

  lemma {:induction false} ReportHoldsShape(s: State, p: nat)
    requires Stopped(s, p)
    ensures ReportHolds(s, p, HandleReport(s, p))
  {
    ReportShape(s, p);
    match s.procs[p].event
    case Exec(previous) => ExecHolds(Noted(s, p), p, previous);
    case Born(_, child) => assert HandleReport(s, p) == Acknowledge(Noted(s, p), child);
    case _ =>
  }

  lemma {:induction false} ReportKeepsHeld(s: State, p: nat, t: State)
    requires HeldInv(s) && Enabled(s, Report(p)) && ReportHolds(s, p, t)
    ensures HeldStay(t) && HeldLead(t)
  {
    assert forall q :: q != p && Held(t, q) ==> Held(s, q);
    assert Held(t, p) ==> Held(s, p) || s.procs[p].event.Exec?;
  }

  lemma {:induction false} EditKeepsHeld(s: State, p: nat, item: Item, barrier: Option<nat>)
    requires HeldInv(s) && p in s.items
    requires (item.job || item.pending) ==> Held(s, p)
    requires barrier == s.barrier || barrier == None || (barrier == Some(p) && Held(s, p))
    ensures HeldStay(PutItem(s, p, item).(barrier := barrier)) && HeldLead(PutItem(s, p, item).(barrier := barrier))
  {
    var t := PutItem(s, p, item).(barrier := barrier);
    assert forall q :: Held(t, q) ==> Held(s, q);
  }

  lemma {:induction false} DropKeepsHeld(s: State, p: nat, barrier: Option<nat>)
    requires HeldInv(s)
    requires barrier == s.barrier || barrier == None
    requires !s.draining ==> barrier != Some(p)
    ensures var t := DropItem(DropProcess(s, p), p).(barrier := barrier); HeldStay(t) && HeldLead(t)
  {
    var t := DropItem(DropProcess(s, p), p).(barrier := barrier);
    assert forall q :: Held(t, q) ==> Held(s, q);
  }

  lemma {:induction false} ContinueKeepsHeld(s: State, p: nat)
    requires HeldInv(s) && Enabled(s, Continue(p))
    ensures HeldStay(Resumed(s, p)) && HeldLead(Resumed(s, p))
  {
    var item := s.items[p].(stopped := false, listening := false);
    EditKeepsHeld(s, p, item, s.barrier);
    UnmarkKeepsInv(s, p, item);
    var s1 := PutItem(s, p, item);
    assert s1 == PutItem(s, p, item).(barrier := s.barrier);
    if Stopped(s, p) {
      ModeKeepsHeld(s1, p, if s.items[p].listening then Listening else Resume(s.procs[p]));
    }
  }

  lemma {:induction false} RecordKeepsHeld(s: State, a: Action)
    requires HeldInv(s) && Enabled(s, a)
    requires OfRecords(a)
    ensures HeldStay(Apply(s, a)) && HeldLead(Apply(s, a))
  {
    var t := Apply(s, a);
    EditKeepsHeld(s, a.pid, t.items[a.pid], t.barrier);
    assert t == PutItem(s, a.pid, t.items[a.pid]).(barrier := t.barrier);
  }

  lemma {:induction false} RestoreKeepsHeld(s: State, p: nat, dies: bool)
    requires HeldInv(s) && Enabled(s, RestoreImage(p, dies))
    ensures HeldStay(Apply(s, RestoreImage(p, dies))) && HeldLead(Apply(s, RestoreImage(p, dies)))
  {
    if Stopped(s, p) { ModeKeepsHeld(s, p, if dies then Dead else Trapped(Signal, true)); }
  }

  lemma {:induction false} WindDownKeepsHeld(s: State, a: Action)
    requires HeldInv(s) && Enabled(s, a) && (a.Retire? || a.Drain?)
    ensures HeldStay(Apply(s, a)) && HeldLead(Apply(s, a))
  {
    assert forall q :: Held(Apply(s, a), q) ==> Held(s, q);
  }

  lemma {:induction false} StepKeepsHeld(s: State, a: Action)
    requires HeldInv(s) && Enabled(s, a)
    ensures HeldInv(Apply(s, a))
  {
    StepKeepsInv(s, a);
    if OfKernel(a) {
      KernelKeepsHeld(s, a);
    } else {
      match a
      case Report(p) => ReportHoldsShape(s, p); ReportKeepsHeld(s, p, HandleReport(s, p));
      case ReportDeath(p) => DropKeepsHeld(s, p, ClearBarrier(s, p).barrier);
      case Detach(p) => DropKeepsHeld(s, p, s.barrier);
      case Continue(p) => ContinueKeepsHeld(s, p);
      case RestoreImage(p, dies) => RestoreKeepsHeld(s, p, dies);
      case Retire => WindDownKeepsHeld(s, a);
      case Drain => WindDownKeepsHeld(s, a);
      case _ => RecordKeepsHeld(s, a);
    }
  }

  lemma {:induction false} RunKeepsHeld(s: State, run: seq<Action>)
    requires HeldInv(s) && Possible(s, run)
    ensures HeldInv(Run(s, run))
    decreases |run|
  {
    if run != [] {
      StepKeepsHeld(s, run[0]);
      RunKeepsHeld(Apply(s, run[0]), run[1..]);
    }
  }

  /** A listed process with an outstanding job, or one still waiting for its decision, is dead, still in its exec stop,
      or in the stop of the restorer that the job itself asked for. */
  lemma {:induction false} HeldProcessesStayStopped(s: State, root: nat, run: seq<Action>, p: nat)
    requires Initial(s, root) && Possible(s, run)
    requires var t := Run(s, run); p in t.procs && p in t.items && (t.items[p].job || t.items[p].pending)
    ensures HeldMode(Run(s, run).procs[p])
  {
    RunKeepsHeld(s, run);
    assert Held(Run(s, run), p);
  }

  // ---------------------------------------------------------------- the vfork flag

  /** An exec the tracer has not been told of. */
  predicate UnseenExec(m: Mode) {
    m.Trapped? && m.event.Exec? && !m.reported
  }

  predicate InsideVfork(m: Mode) {
    m.Dead? || m.InVfork? || m == Trapped(VforkDone, false) || (m.Trapped? && m.event.Born? && m.event.kind.Vfork?)
  }

  /** The flag tells the truth as far as the tracer can know: a flagged process is between its vfork event and the
      report of what ended the vfork, be it the child or an exec. */
  predicate Accurate(s: State) {
    forall p :: p in s.procs && Flagged(s, p) ==> InsideVfork(s.procs[p]) || UnseenExec(s.procs[p])
  }

  predicate FlaggedDeaf(s: State) {
    forall p :: p in s.procs && Flagged(s, p) ==> !s.items[p].listening
  }

  /** Nobody is flagged and held. */
  predicate FlaggedFree(s: State) {
    forall p :: p in s.items && Flagged(s, p) ==> !Held(s, p)
  }

  predicate Sincere(s: State) {
    Accurate(s) && FlaggedDeaf(s) && FlaggedFree(s)
  }

  predicate Truthful(s: State) {
    HeldInv(s) && Sincere(s)
  }

  /** The exec report does not start a record of its own: it is the root's first and is skipped, or the session retires,
      or no earlier image of the process has had its decision. */
  predicate KeepsRecord(s: State, p: nat) {
    s.execs == 0 || s.retiring || (p in s.items && !s.items[p].observed)
  }

  /** The tracer is told of an exec over a flagged process, and the record and its flag stay; or it lets go of a flagged
      process that has come out of its vfork by an exec it was not told of. */
  predicate Misleads(s: State, a: Action)
    requires Enabled(s, a)
  {
    match a
    case Report(p) => s.procs[p].event.Exec? && Flagged(s, p) && KeepsRecord(s, p)
    case Continue(p) => Flagged(s, p) && p in s.procs && UnseenExec(s.procs[p])
    case _ => false
  }

  /** Reports set the flag exactly at a vfork event, and a flagged reporter of another event had the flag before. */
  lemma {:induction false} ReportFlags(s: State, p: nat)
    requires Stopped(s, p)
    ensures var t := HandleReport(s, p); var e := s.procs[p].event;
      && (Flagged(t, p) ==> Flagged(s, p) || (e.Born? && e.kind.Vfork?))
      && (Flagged(t, p) ==> !e.VforkDone?)
      && (Flagged(t, p) && t.items[p].listening ==> e.Stop?)
      && (e.Exec? ==> (Flagged(t, p) <==> Flagged(s, p) && KeepsRecord(s, p)))
  {
    NotedFlags(s, p);
    match s.procs[p].event
    case Exec(previous) => ExecFlags(Noted(s, p), p, previous); ExecKeepsFlag(s, p);
    case Born(_, child) => BornFlags(Noted(s, p), p, child);
    case Stop(_) => StopFlags(s, p);
    case _ =>
  }

  lemma {:induction false} NotedFlags(s: State, p: nat)
    requires Stopped(s, p)
    ensures var t, e := Noted(s, p), s.procs[p].event;
      && p in t.items && !t.items[p].listening
      && (Flagged(t, p) ==> Flagged(s, p) || (e.Born? && e.kind.Vfork?)) && (Flagged(t, p) ==> !e.VforkDone?)
  {
  }

  lemma {:induction false} BornFlags(s1: State, p: nat, child: nat)
    requires p in s1.items && !s1.items[p].listening
    ensures var t := Acknowledge(s1, child); p in t.items && !t.items[p].listening && Flagged(t, p) == Flagged(s1, p)
  {
  }

  lemma {:induction false} StopFlags(s: State, p: nat)
    requires Stopped(s, p) && s.procs[p].event.Stop?
    ensures Flagged(HandleReport(s, p), p) == Flagged(Noted(s, p), p)
  {
  }

  lemma {:induction false} ExecFlags(s1: State, p: nat, previous: nat)
    requires p in s1.items && !s1.items[p].listening
    ensures var t := Enlist(s1, p, previous);
      p in t.items && !t.items[p].listening && (Flagged(t, p) ==> Flagged(s1, p))
  {
  }

  lemma {:induction false} ExecKeepsFlag(s: State, p: nat)
    requires Stopped(s, p) && s.procs[p].event.Exec?
    ensures Flagged(HandleReport(s, p), p) <==> Flagged(s, p) && KeepsRecord(s, p)
  {
    var s1 := Noted(s, p);
    var s2 := Replaced(s1, p, s.procs[p].event.previous);
    assert HandleReport(s, p) == Enlist(s1, p, s.procs[p].event.previous);
    assert p in s2.items && s2.items[p] == s1.items[p] && s2.retiring == s.retiring;
    assert s1.items[p].vforking == Flagged(s, p) && (p in s.items ==> s1.items[p].observed == s.items[p].observed);
  }

  lemma {:induction false} OthersUnflagged(s: State, p: nat, t: State)
    requires Stopped(s, p) && ReportHolds(s, p, t) && Sincere(s)
    ensures forall q :: q != p && Flagged(t, q) ==> Flagged(s, q) && !Held(t, q)
    ensures forall q :: q != p && q in t.procs && Flagged(t, q) ==>
              (InsideVfork(t.procs[q]) || UnseenExec(t.procs[q])) && !t.items[q].listening
  {
    forall q | q != p && Flagged(t, q) ensures Flagged(s, q) && !Held(t, q) {
      assert q in s.items && t.items[q].vforking == s.items[q].vforking;
      assert !Held(s, q);
    }
  }

  lemma {:induction false} ReportStaysTruthful(s: State, p: nat)
    requires Truthful(s) && Enabled(s, Report(p)) && !Misleads(s, Report(p))
    ensures Sincere(HandleReport(s, p))
  {
    var t, e := HandleReport(s, p), s.procs[p].event;
    ReportHoldsShape(s, p);
    ReportFlags(s, p);
    OthersUnflagged(s, p, t);
    if Flagged(t, p) {
      assert !e.Exec? && !e.VforkDone?;
      assert Flagged(s, p) || (e.Born? && e.kind.Vfork?);
      assert !Held(s, p);
      assert !Held(t, p);
      assert t.procs[p] == Trapped(e, true);
    }
  }

  /** A report of an exec that keeps the flag leaves it wrong. */
  lemma {:induction false} KeptFlagMisleads(s: State, p: nat)
    requires Enabled(s, Report(p)) && Misleads(s, Report(p))
    ensures !Accurate(HandleReport(s, p))
  {
    ReportShape(s, p);
    ReportFlags(s, p);
    var t := HandleReport(s, p);
    assert Flagged(t, p) && p in t.procs && t.procs[p] == Trapped(s.procs[p].event, true);
  }

  lemma {:induction false} ModeStaysTruthful(s: State, p: nat, m: Mode)
    requires Sincere(s)
    requires Flagged(s, p) ==> (InsideVfork(m) || UnseenExec(m)) && (p in s.procs || !s.items[p].listening)
    ensures Sincere(PutMode(s, p, m))
  {
    assert forall q :: Flagged(PutMode(s, p, m), q) == Flagged(s, q) && Held(PutMode(s, p, m), q) == Held(s, q);
  }

  lemma {:induction false} KernelStaysTruthful(s: State, a: Action)
    requires Truthful(s) && Enabled(s, a) && OfKernel(a)
    ensures Sincere(Apply(s, a))
  {
    match a
    case Trap(p, e) => ModeStaysTruthful(s, p, Trapped(e, false));
    case Birthing(p, kind, c) =>
      var e := Born(kind, c);
      ModeStaysTruthful(s, p, Trapped(e, false));
      ModeStaysTruthful(PutMode(s, p, Trapped(e, false)), c, Starting);
      assert forall q :: Held(Apply(s, a), q) == Held(s, q);
    case FirstTrap(p) => ModeStaysTruthful(s, p, Trapped(Stop(false), false));
    case VforkEnds(p) => ModeStaysTruthful(s, p, Trapped(VforkDone, false));
    case ListenTrap(p) => ModeStaysTruthful(s, p, Trapped(Stop(true), false));
    case Die(p) => ModeStaysTruthful(s, p, Dead);
    case SiblingExec(t, l) =>
      assert forall q :: Held(DropProcess(s, t), q) == Held(s, q) && Flagged(DropProcess(s, t), q) == Flagged(s, q);
      ModeStaysTruthful(DropProcess(s, t), l, Trapped(Exec(t), false));
  }

  lemma {:induction false} RecordStaysTruthful(s: State, p: nat, item: Item, barrier: Option<nat>)
    requires Sincere(s) && p in s.items
    requires item.vforking == s.items[p].vforking && (item.listening ==> s.items[p].listening)
    requires item.job == s.items[p].job && item.pending == s.items[p].pending && barrier == s.barrier
    ensures Sincere(PutItem(s, p, item).(barrier := barrier))
  {
    var t := PutItem(s, p, item).(barrier := barrier);
    assert forall q :: Flagged(t, q) == Flagged(s, q) && Held(t, q) == Held(s, q);
  }

  /** Ending a stop never sets a truly flagged process running: it resumes into its vfork. */
  lemma {:induction false} ContinueStaysTruthful(s: State, p: nat)
    requires Truthful(s) && Enabled(s, Continue(p)) && !Misleads(s, Continue(p))
    ensures Sincere(Resumed(s, p))
  {
    var item := s.items[p].(stopped := false, listening := false);
    RecordStaysTruthful(s, p, item, s.barrier);
    var s1 := PutItem(s, p, item);
    assert s1 == PutItem(s, p, item).(barrier := s.barrier);
    if Stopped(s, p) {
      assert SeenStop(s.procs[p]);
      ModeStaysTruthful(s1, p, if s.items[p].listening then Listening else Resume(s.procs[p]));
    }
  }

  lemma {:induction false} LetGoMisleads(s: State, p: nat)
    requires FlaggedDeaf(s) && Enabled(s, Continue(p)) && Misleads(s, Continue(p))
    ensures !Accurate(Resumed(s, p))
  {
    var t := Resumed(s, p);
    assert p in t.procs && Flagged(t, p) && t.procs[p] == Running;
  }

  lemma {:induction false} RestoreStaysTruthful(s: State, p: nat, dies: bool)
    requires Truthful(s) && Enabled(s, RestoreImage(p, dies))
    ensures Sincere(Apply(s, RestoreImage(p, dies)))
  {
    if Stopped(s, p) {
      assert Held(s, p);
      ModeStaysTruthful(s, p, if dies then Dead else Trapped(Signal, true));
    }
  }

  predicate OfRecords(a: Action) {
    a.PickBarrier? || a.StartDecision? || a.Arm? || a.ReleaseLease? || a.JobEnds?
  }

  predicate SameFlags(s: State, t: State) {
    && t.procs == s.procs && t.items.Keys == s.items.Keys
    && (forall q :: q in s.items ==> t.items[q].vforking == s.items[q].vforking)
    && (forall q :: q in s.items ==> t.items[q].listening == s.items[q].listening)
    && forall q :: q in s.items && Held(t, q) ==> Held(s, q)
  }

  lemma {:induction false} StartShape(s: State, p: nat, started: bool)
    requires Enabled(s, StartDecision(p, started))
    ensures SameFlags(s, Apply(s, StartDecision(p, started)))
  {
  }

  lemma {:induction false} EditShape(s: State, p: nat, item: Item, barrier: Option<nat>)
    requires p in s.items && item.vforking == s.items[p].vforking && item.listening == s.items[p].listening
    requires (item.job ==> s.items[p].job) && !item.pending && (barrier == s.barrier || barrier == None)
    ensures SameFlags(s, PutItem(s, p, item).(barrier := barrier))
  {
  }

  lemma {:induction false} ReleaseShape(s: State, p: nat)
    requires Enabled(s, ReleaseLease(p))
    ensures SameFlags(s, Apply(s, ReleaseLease(p)))
  {
    EditShape(s, p, s.items[p].(pending := false, lease := false), ClearBarrier(s, p).barrier);
  }

  lemma {:induction false} JobEndsShape(s: State, p: nat, kept: bool)
    requires Enabled(s, JobEnds(p, kept))
    ensures SameFlags(s, Apply(s, JobEnds(p, kept)))
  {
    var item := s.items[p].(job := false, armed := false, pending := false, lease := false);
    EditShape(s, p, if kept then item.(observed := true) else item, ClearBarrier(s, p).barrier);
  }

  lemma {:induction false} RecordsShape(s: State, a: Action)
    requires Enabled(s, a) && OfRecords(a)
    ensures SameFlags(s, Apply(s, a))
  {
    match a
    case StartDecision(p, started) => StartShape(s, p, started);
    case ReleaseLease(p) => ReleaseShape(s, p);
    case JobEnds(p, kept) => JobEndsShape(s, p, kept);
    case _ =>
  }

  lemma {:induction false} RecordsStayTruthful(s: State, t: State)
    requires Sincere(s) && SameFlags(s, t)
    ensures Sincere(t)
  {
    assert forall q :: Flagged(t, q) == Flagged(s, q);
  }

  lemma {:induction false} DroppedStaysTruthful(s: State, p: nat, barrier: Option<nat>)
    requires Sincere(s) && (barrier == s.barrier || barrier == None)
    ensures Sincere(DropItem(DropProcess(s.(barrier := barrier), p), p))
  {
    var t := DropItem(DropProcess(s.(barrier := barrier), p), p);
    assert forall q :: (Flagged(t, q) ==> Flagged(s, q)) && (Held(t, q) ==> Held(s, q));
  }

  lemma {:induction false} WindDownStaysTruthful(s: State, a: Action)
    requires Sincere(s) && (a.Retire? || a.Drain?) && Enabled(s, a)
    ensures Sincere(Apply(s, a))
  {
    assert forall q :: Flagged(Apply(s, a), q) == Flagged(s, q) && (Held(Apply(s, a), q) ==> Held(s, q));
  }

  lemma {:induction false} StepStaysTruthful(s: State, a: Action)
    requires Truthful(s) && Enabled(s, a) && !Misleads(s, a)
    ensures Truthful(Apply(s, a))
  {
    StepKeepsHeld(s, a);
    if OfKernel(a) {
      KernelStaysTruthful(s, a);
    } else if OfRecords(a) {
      RecordsShape(s, a);
      RecordsStayTruthful(s, Apply(s, a));
    } else {
      match a
      case Report(p) => ReportStaysTruthful(s, p);
      case ReportDeath(p) => DroppedStaysTruthful(s, p, ClearBarrier(s, p).barrier);
      case Detach(p) => DroppedStaysTruthful(s, p, s.barrier);
      case Continue(p) => ContinueStaysTruthful(s, p);
      case RestoreImage(p, dies) => RestoreStaysTruthful(s, p, dies);
      case Retire => WindDownStaysTruthful(s, a);
      case Drain => WindDownStaysTruthful(s, a);
      case _ =>
    }
  }

  predicate AccurateThroughout(s: State, run: seq<Action>)
    requires Possible(s, run)
    decreases |run|
  {
    Accurate(s) && (run == [] || AccurateThroughout(Apply(s, run[0]), run[1..]))
  }

  predicate Misled(s: State, run: seq<Action>)
    requires Possible(s, run)
    decreases |run|
  {
    run != [] && (Misleads(s, run[0]) || Misled(Apply(s, run[0]), run[1..]))
  }

  /** Among all steps, exactly those mislead. */
  lemma {:induction false} StepMisleadsExactly(s: State, a: Action)
    requires Truthful(s) && Enabled(s, a)
    ensures Accurate(Apply(s, a)) <==> !Misleads(s, a)
    ensures !Misleads(s, a) ==> Truthful(Apply(s, a))
  {
    if !Misleads(s, a) {
      StepStaysTruthful(s, a);
    } else if a.Report? {
      KeptFlagMisleads(s, a.pid);
    } else {
      LetGoMisleads(s, a.pid);
    }
  }

  lemma {:induction false} AccurateExactly(s: State, run: seq<Action>)
    requires Truthful(s) && Possible(s, run)
    ensures AccurateThroughout(s, run) <==> !Misled(s, run)
    ensures !Misled(s, run) ==> Truthful(Run(s, run))
    decreases |run|
  {
    if run != [] {
      StepMisleadsExactly(s, run[0]);
      if !Misleads(s, run[0]) { AccurateExactly(Apply(s, run[0]), run[1..]); }
    }
  }

  /** The flag is right in every state of a run exactly if the tracer is never told of an exec over a flagged process
      whose record it keeps, and never lets go of one before it is told. */
  lemma {:induction false} FlagIsAccurateExactly(s: State, root: nat, run: seq<Action>)
    requires Initial(s, root) && Possible(s, run)
    ensures AccurateThroughout(s, run) <==> !Misled(s, run)
  {
    InitialInv(s, root);
    AccurateExactly(s, run);
  }

  /** The barrier: in a run without such a step, no other process runs user code, or can be moved to by a group stop,
      while a decision holds its lease. */
  lemma {:induction false} BarrierHolds(s: State, root: nat, run: seq<Action>, p: nat, q: nat)
    requires Initial(s, root) && Possible(s, run) && !Misled(s, run)
    requires var t := Run(s, run); p in t.items && t.items[p].lease && q in t.procs && q != p
    ensures var t := Run(s, run); t.procs[q].Starting? || t.procs[q].InVfork? || t.procs[q].Trapped? || t.procs[q].Dead?
  {
    InitialInv(s, root);
    AccurateExactly(s, run);
    if !Flagged(Run(s, run), q) { OnlyFlaggedRunUnderLease(s, root, run, p, q); }
  }
}

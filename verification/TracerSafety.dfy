/** What the barrier guarantees over every run of kernel and tracer. */
module TracerSafety {
  import opened Basics
  import opened Tracer

  // ---------------------------------------------------------------- the inductive invariant

  predicate SeenStop(m: Mode) {
    m.Dead? || (m.Trapped? && (m.reported || m.event.Exec?))
  }

  /** A record marked stopped belongs to a process that is, and whose stop was reported or replaced by an exec. */
  predicate MarkedStopped(s: State) {
    forall p :: p in s.items && s.items[p].stopped && p in s.procs ==> SeenStop(s.procs[p])
  }

  /** A process the tracer has not heard of has not run yet. */
  predicate UnlistedWaits(s: State) {
    forall p :: p in s.procs && p !in s.items ==> s.procs[p].Starting? || s.procs[p].Trapped? || s.procs[p].Dead?
  }

  predicate JobsStopped(s: State) {
    forall p :: p in s.items && s.items[p].job ==> s.items[p].stopped
  }

  predicate LeaseIsBarrier(s: State) {
    forall p :: p in s.items && s.items[p].lease ==> s.items[p].job && s.barrier == Some(p)
  }

  predicate QuietBut(s: State, p: nat) {
    forall q :: q in s.procs && q != p && (s.procs[q].Running? || s.procs[q].Listening?) ==> Flagged(s, q)
  }

  /** While a lease is out, any other process that runs is one the tracer believes blocked in vfork. */
  predicate OthersQuiet(s: State) {
    forall p :: p in s.items && s.items[p].lease ==> QuietBut(s, p)
  }

  predicate Replacing(m: Mode, p: nat) {
    m.Trapped? && !m.reported && m.event.Exec? && m.event.previous != p
  }

  predicate Lingers(s: State, t: nat, p: nat) {
    t in s.items && !s.items[t].stopped && t !in s.procs && t in s.leader && s.leader[t] == p
  }

  /** Until the exec of a sibling thread is reported, the thread's record lingers although the thread is gone. */
  predicate ReplacedThreads(s: State) {
    forall p :: p in s.procs && Replacing(s.procs[p], p) ==> Lingers(s, s.procs[p].event.previous, p)
  }

  predicate Inv(s: State) {
    MarkedStopped(s) && UnlistedWaits(s) && JobsStopped(s) && LeaseIsBarrier(s) && OthersQuiet(s) && ReplacedThreads(s)
  }

  lemma {:induction false} InitialInv(s: State, root: nat)
    requires Initial(s, root)
    ensures Inv(s)
  {
  }

  predicate OfKernel(a: Action) {
    a.Trap? || a.Birthing? || a.FirstTrap? || a.VforkEnds? || a.ListenTrap? || a.Die? || a.SiblingExec?
  }

  lemma {:induction false} HaltKeepsInv(s: State, p: nat, m: Mode)
    requires Inv(s) && p in s.procs
    requires (m.Trapped? || m.Dead?) && !Replacing(m, p)
    requires p in s.items && s.items[p].stopped ==> SeenStop(m)
    ensures Inv(PutMode(s, p, m))
  {
  }

  lemma {:induction false} BirthKeepsInv(s: State, p: nat, kind: Birth, c: nat)
    requires Inv(s) && Enabled(s, Birthing(p, kind, c))
    ensures Inv(Apply(s, Birthing(p, kind, c)))
  {
    HaltKeepsInv(s, p, Trapped(Born(kind, c), false));
    var s1 := PutMode(s, p, Trapped(Born(kind, c), false));
    var t := Apply(s, Birthing(p, kind, c));
    assert t.procs == s1.procs[c := Starting];
    assert forall q :: q != c && q in s1.leader ==> q in t.leader && t.leader[q] == s1.leader[q];
    assert ReplacedThreads(t);
  }

  lemma {:induction false} SiblingExecKeepsInv(s: State, t: nat, l: nat)
    requires Inv(s) && Enabled(s, SiblingExec(t, l))
    ensures Inv(Apply(s, SiblingExec(t, l)))
  {
  }

  lemma {:induction false} KernelKeepsInv(s: State, a: Action)
    requires Inv(s) && Enabled(s, a) && OfKernel(a)
    ensures Inv(Apply(s, a))
  {
    match a
    case Trap(p, e) => HaltKeepsInv(s, p, Trapped(e, false));
    case Birthing(p, kind, c) => BirthKeepsInv(s, p, kind, c);
    case FirstTrap(p) => HaltKeepsInv(s, p, Trapped(Stop(false), false));
    case VforkEnds(p) => HaltKeepsInv(s, p, Trapped(VforkDone, false));
    case ListenTrap(p) => HaltKeepsInv(s, p, Trapped(Stop(true), false));
    case Die(p) => HaltKeepsInv(s, p, Dead);
    case SiblingExec(t, l) => SiblingExecKeepsInv(s, t, l);
  }

  /** Nothing but `awaiting` differs. */
  predicate OnlyAwaits(was: Item, now: Item) {
    now.(awaiting := was.awaiting) == was
  }

  /** What a report leaves of any record: nobody's mode but the reporter's `reported` mark changes, nobody gains a job,
      a lease or a stop mark except the reporter. */
  predicate Reported(s: State, p: nat, t: State)
    requires Stopped(s, p)
  {
    && t.procs == s.procs[p := Trapped(s.procs[p].event, true)]
    && t.barrier == s.barrier && t.leader == s.leader
    && (forall q :: q in t.items && q != p && q !in s.items ==> t.items[q] == FreshItem(false))
    && (forall q :: q in t.items && q != p && q in s.items ==> OnlyAwaits(s.items[q], t.items[q]))
    && (forall q :: q in s.items && q !in t.items ==> s.procs[p].event == Exec(q))
    && p in t.items && t.items[p].stopped
    && (t.items[p].job ==> p in s.items && s.items[p].job)
    && (t.items[p].lease ==> p in s.items && s.items[p].lease && (s.items[p].job ==> t.items[p].job))
  }

  /** The state between noting the stop and handling its event. */
  function Noted(s: State, p: nat): State
    requires Stopped(s, p)
  {
    var e := s.procs[p].event;
    PutItem(PutMode(s, p, Trapped(e, true)), p, Settled(ItemOf(s, p, e.Stop?), e))
  }

  lemma {:induction false} NotedShape(s: State, p: nat)
    requires Stopped(s, p)
    ensures Reported(s, p, Noted(s, p)) && Noted(s, p).items.Keys == s.items.Keys + {p}
  {
  }

  lemma {:induction false} ExecShape(s: State, p: nat, s1: State, previous: nat)
    requires Stopped(s, p) && Reported(s, p, s1) && s1.items.Keys == s.items.Keys + {p}
    requires s.procs[p].event == Exec(previous)
    ensures Reported(s, p, Enlist(s1, p, previous))
  {
    ReplacedShape(s, p, s1, previous);
    var s2 := Replaced(s1, p, previous).(launched := true, execs := s1.execs + 1);
    assert Reported(s, p, s2);
    DecidedShape(s, p, s2, Decided(s2.items[p]));
  }

  lemma {:induction false} ReportShape(s: State, p: nat)
    requires Stopped(s, p)
    ensures Reported(s, p, HandleReport(s, p))
  {
    var s1 := Noted(s, p);
    NotedShape(s, p);
    match s.procs[p].event
    case Born(_, child) => AcknowledgeShape(s, p, s1, child);
    case Exec(previous) => ExecShape(s, p, s1, previous);
    case Stop(group) => DecidedShape(s, p, s1, s1.items[p].(listening := true));
    case _ =>
  }

  lemma {:induction false} AcknowledgeShape(s: State, p: nat, s1: State, child: nat)
    requires Stopped(s, p) && Reported(s, p, s1) && s1.items.Keys == s.items.Keys + {p}
    ensures Reported(s, p, Acknowledge(s1, child))
  {
    AwaitedShape(s, p, s1, child, ItemOf(s1, child, false).(awaiting := false));
  }

  /** A record may be added, or stop awaiting its parent's event. */
  lemma {:induction false} AwaitedShape(s: State, p: nat, s1: State, child: nat, item: Item)
    requires Stopped(s, p) && Reported(s, p, s1) && s1.items.Keys == s.items.Keys + {p}
    requires if child in s1.items then item == s1.items[child].(awaiting := false) else item == FreshItem(false)
    ensures Reported(s, p, PutItem(s1, child, item))
  {
    if child != p && child in s.items { assert OnlyAwaits(s.items[child], s1.items[child]); }
  }

  lemma {:induction false} ReplacedShape(s: State, p: nat, s1: State, previous: nat)
    requires Stopped(s, p) && Reported(s, p, s1) && s1.items.Keys == s.items.Keys + {p}
    requires s.procs[p].event == Exec(previous)
    ensures Reported(s, p, Replaced(s1, p, previous))
  {
  }

  lemma {:induction false} DecidedShape(s: State, p: nat, t: State, item: Item)
    requires Stopped(s, p) && Reported(s, p, t)
    requires item.stopped && (item.job ==> t.items[p].job)
    requires item.lease ==> t.items[p].lease && (t.items[p].job ==> item.job)
    ensures Reported(s, p, PutItem(t, p, item))
  {
  }

  lemma {:induction false} ReportKeepsMarks(s: State, p: nat, t: State)
    requires Inv(s) && Enabled(s, Report(p)) && Reported(s, p, t)
    ensures MarkedStopped(t) && JobsStopped(t) && LeaseIsBarrier(t)
  {
  }

  lemma {:induction false} ReportKeepsQuiet(s: State, p: nat, t: State)
    requires Inv(s) && Enabled(s, Report(p)) && Reported(s, p, t)
    ensures OthersQuiet(t)
  {
  }

  lemma {:induction false} ReportKeepsInv(s: State, p: nat, t: State)
    requires Inv(s) && Enabled(s, Report(p)) && Reported(s, p, t)
    ensures Inv(t)
  {
    ReportKeepsMarks(s, p, t);
    ReportKeepsQuiet(s, p, t);
    assert UnlistedWaits(t);
    assert ReplacedThreads(t);
  }

  lemma {:induction false} DeathKeepsInv(s: State, p: nat)
    requires Inv(s) && Enabled(s, ReportDeath(p))
    ensures Inv(Apply(s, ReportDeath(p)))
  {
  }

  lemma {:induction false} DetachKeepsInv(s: State, p: nat)
    requires Inv(s) && Enabled(s, Detach(p))
    ensures Inv(Apply(s, Detach(p)))
  {
  }

  /** The heart of the barrier: when everyone is stopped or believed in vfork, the lease may be lent. */
  lemma {:induction false} StartKeepsInv(s: State, p: nat, started: bool)
    requires Inv(s) && Enabled(s, StartDecision(p, started))
    ensures Inv(Apply(s, StartDecision(p, started)))
  {
    assert QuietBut(s, p);
  }

  lemma {:induction false} UnmarkKeepsInv(s: State, p: nat, item: Item)
    requires Inv(s) && p in s.items && (forall q :: q in s.items ==> !s.items[q].lease)
    requires !item.stopped && !item.job && !item.lease
    ensures Inv(PutItem(s, p, item))
  {
    assert ReplacedThreads(PutItem(s, p, item));
  }

  lemma {:induction false} MoveKeepsInv(s: State, p: nat, m: Mode)
    requires Inv(s) && p in s.procs && p in s.items && (forall q :: q in s.items ==> !s.items[q].lease)
    requires !s.items[p].stopped && !Replacing(m, p)
    ensures Inv(PutMode(s, p, m))
  {
  }

  lemma {:induction false} ContinueKeepsInv(s: State, p: nat)
    requires Inv(s) && Enabled(s, Continue(p))
    ensures Inv(Resumed(s, p))
  {
    var item := s.items[p].(stopped := false, listening := false);
    UnmarkKeepsInv(s, p, item);
    var s1 := PutItem(s, p, item);
    if Stopped(s, p) {
      MoveKeepsInv(s1, p, if s.items[p].listening then Listening else Resume(s.procs[p]));
    }
  }

  /** Job bookkeeping: a record may lose its job, provided the lease goes with it, and the barrier with the lease. */
  lemma {:induction false} EditKeepsInv(s: State, p: nat, item: Item, barrier: Option<nat>)
    requires Inv(s) && p in s.items
    requires item.stopped == s.items[p].stopped && item.vforking == s.items[p].vforking
    requires item.job ==> s.items[p].job
    requires item.lease ==> item.job && s.items[p].lease && barrier == s.barrier
    requires barrier == s.barrier || (barrier == None && s.barrier == Some(p))
    ensures Inv(PutItem(s, p, item).(barrier := barrier))
  {
    var t := PutItem(s, p, item).(barrier := barrier);
    assert forall q :: Flagged(t, q) == Flagged(s, q);
    assert forall q :: q in s.items && q != p ==> q in t.items && t.items[q] == s.items[q];
    assert ReplacedThreads(t) && OthersQuiet(t);
  }

  lemma {:induction false} JobKeepsInv(s: State, a: Action)
    requires Inv(s) && Enabled(s, a)
    requires a.Arm? || a.ReleaseLease? || a.JobEnds?
    ensures Inv(Apply(s, a))
  {
    match a
    case Arm(p) => EditKeepsInv(s, p, s.items[p].(armed := true), s.barrier);
    case ReleaseLease(p) =>
      EditKeepsInv(s, p, s.items[p].(pending := false, lease := false), ClearBarrier(s, p).barrier);
    case JobEnds(p, kept) => JobEndKeepsInv(s, p, kept);
  }

  lemma {:induction false} JobEndKeepsInv(s: State, p: nat, kept: bool)
    requires Inv(s) && Enabled(s, JobEnds(p, kept))
    ensures Inv(Apply(s, JobEnds(p, kept)))
  {
    var item := s.items[p].(job := false, armed := false, pending := false, lease := false);
    EditKeepsInv(s, p, if kept then item.(observed := true) else item, ClearBarrier(s, p).barrier);
  }

  lemma {:induction false} StepKeepsInv(s: State, a: Action)
    requires Inv(s) && Enabled(s, a)
    ensures Inv(Apply(s, a))
  {
    if OfKernel(a) {
      KernelKeepsInv(s, a);
    } else {
      match a
      case Report(p) => ReportShape(s, p); ReportKeepsInv(s, p, HandleReport(s, p));
      case ReportDeath(p) => DeathKeepsInv(s, p);
      case StartDecision(p, started) => StartKeepsInv(s, p, started);
      case Continue(p) => ContinueKeepsInv(s, p);
      case Arm(_) => JobKeepsInv(s, a);
      case ReleaseLease(_) => JobKeepsInv(s, a);
      case JobEnds(_, _) => JobKeepsInv(s, a);
      case RestoreImage(p, dies) =>
        if Stopped(s, p) { HaltKeepsInv(s, p, if dies then Dead else Trapped(Signal, true)); }
      case Detach(p) => DetachKeepsInv(s, p);
      case _ =>
    }
  }

  lemma {:induction false} RunKeepsInv(s: State, run: seq<Action>)
    requires Inv(s) && Possible(s, run)
    ensures Inv(Run(s, run))
    decreases |run|
  {
    if run != [] {
      StepKeepsInv(s, run[0]);
      RunKeepsInv(Apply(s, run[0]), run[1..]);
    }
  }

  /** Whatever the interleaving: while a decision holds its lease, the only other processes that may run code or sit in
      a group stop are ones the tracer has flagged as blocked in vfork. */
  lemma {:induction false} OnlyFlaggedRunUnderLease(s: State, root: nat, run: seq<Action>, p: nat, q: nat)
    requires Initial(s, root) && Possible(s, run)
    requires var t := Run(s, run);
      p in t.items && t.items[p].lease && q in t.procs && q != p && !Flagged(t, q)
    ensures var t := Run(s, run); t.procs[q].Starting? || t.procs[q].InVfork? || t.procs[q].Trapped? || t.procs[q].Dead?
  {
    InitialInv(s, root);
    RunKeepsInv(s, run);
    assert QuietBut(Run(s, run), p);
  }
}

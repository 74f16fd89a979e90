/** The stop-the-world barrier of the process tracer in descriptor mode.  The kernel moves the traced
    processes on its own; the tracer sees them through wait reports and moves them by ptrace requests.
    Every step of either side is atomic and the steps interleave in any order. */
module Tracer {
  import opened Basics

  datatype Birth = Fork | Vfork | Clone | Thread

  /** Why a process is in a ptrace stop. */
  datatype Event =
    | Signal
    | Stop(group: bool)
    | Born(kind: Birth, child: nat)
    | VforkDone
    | Exec(previous: nat)

  /** The kernel's side of one traced process or thread. */
  datatype Mode =
    | Starting                                 // attached at birth, traps before any user code
    | Running                                  // may run user code
    | InVfork                                  // blocked until its child lets go, then traps
    | Listening                                // in a group stop the tracer listens to
    | Trapped(event: Event, reported: bool)
    | Dead

  /** The tracer's record of one process.  `observed` says that an earlier image of it has had its decision;
      `lease` is history: a decision was started and its lease has not been given back. */
  datatype Item = Item(stopped: bool, pending: bool, listening: bool, awaiting: bool, vforking: bool,
                       observed: bool, job: bool, armed: bool, lease: bool)

  /** `leader` maps each thread that is not the first of its process to the one that is. */
  datatype State = State(procs: map<nat, Mode>, leader: map<nat, nat>, items: map<nat, Item>,
                         barrier: Option<nat>, retiring: bool, draining: bool, launched: bool, execs: nat)

  datatype Action =
    // the kernel
    | Trap(pid: nat, event: Event)
    | Birthing(pid: nat, kind: Birth, child: nat)
    | FirstTrap(pid: nat)
    | VforkEnds(pid: nat)
    | ListenTrap(pid: nat)
    | Die(pid: nat)
    | SiblingExec(thread: nat, first: nat)
    // the tracer
    | Report(pid: nat)
    | ReportDeath(pid: nat)
    | PickBarrier(pid: nat)
    | StartDecision(pid: nat, started: bool)
    | Continue(pid: nat)
    | Arm(pid: nat)
    | ReleaseLease(pid: nat)
    | RestoreImage(pid: nat, dies: bool)
    | JobEnds(pid: nat, kept: bool)
    | Retire
    | Drain
    | Detach(pid: nat)

  predicate Is(s: State, pid: nat, mode: Mode) {
    pid in s.procs && s.procs[pid] == mode
  }

  predicate Stopped(s: State, pid: nat) {
    pid in s.procs && s.procs[pid].Trapped?
  }

  predicate Flagged(s: State, pid: nat) {
    pid in s.items && s.items[pid].vforking
  }

  function FreshItem(awaiting: bool): Item {
    Item(false, false, false, awaiting, false, false, false, false, false)
  }

  function ItemOf(s: State, pid: nat, awaiting: bool): Item {
    if pid in s.items then s.items[pid] else FreshItem(awaiting)
  }

  function PutItem(s: State, pid: nat, item: Item): State {
    s.(items := s.items[pid := item])
  }

  function PutMode(s: State, pid: nat, mode: Mode): State {
    s.(procs := s.procs[pid := mode])
  }

  function DropItem(s: State, pid: nat): State {
    s.(items := s.items - {pid})
  }

  function DropProcess(s: State, pid: nat): State {
    s.(procs := s.procs - {pid})
  }

  function ClearBarrier(s: State, pid: nat): State {
    if s.barrier == Some(pid) then s.(barrier := None) else s
  }

  /** The tracer waits for nobody: every process it lists is stopped, or cannot run because of a vfork. */
  predicate Ready(s: State) {
    forall p :: p in s.items ==> s.items[p].stopped || s.items[p].vforking
  }

  predicate NothingPending(s: State) {
    forall p :: p in s.items ==> !s.items[p].pending
  }

  predicate Busy(s: State) {
    exists p :: p in s.items && s.items[p].job
  }

  predicate Enabled(s: State, a: Action) {
    match a
    case Trap(p, e) => Is(s, p, Running) && (e.Signal? || e.Stop? || (e == Exec(p) && p !in s.leader))
    case Birthing(p, _, c) => Is(s, p, Running) && c !in s.procs && c !in s.items
    case FirstTrap(p) => Is(s, p, Starting)
    case VforkEnds(p) => Is(s, p, InVfork)
    case ListenTrap(p) => Is(s, p, Listening)
    case Die(p) => p in s.procs
    case SiblingExec(t, l) => Is(s, t, Running) && l in s.procs && t in s.leader && s.leader[t] == l && l !in s.leader
    case Report(p) => Stopped(s, p) && !s.procs[p].reported
    case ReportDeath(p) => Is(s, p, Dead) && (p in s.items ==> !s.items[p].armed)
    case PickBarrier(p) => !s.draining && s.barrier.None? && p in s.items && s.items[p].pending
    case StartDecision(p, _) =>
      !s.draining && s.barrier == Some(p) && Ready(s) && p in s.items && s.items[p].stopped && !s.items[p].job
    case Continue(p) =>
      && !s.draining && s.barrier.None? && NothingPending(s)
      && p in s.items && s.items[p].stopped && !s.items[p].job && !s.items[p].awaiting
    case Arm(p) => p in s.items && s.items[p].job
    case ReleaseLease(p) => p in s.items && s.items[p].job && s.items[p].armed
    case RestoreImage(p, _) => p in s.items && s.items[p].job && s.items[p].armed
    case JobEnds(p, _) => p in s.items && s.items[p].job
    case Retire => true
    case Drain => s.retiring || (!Busy(s) && s.barrier.None?)
    case Detach(p) =>
      s.draining && !Busy(s) && p in s.items && s.items[p].stopped && !s.items[p].listening && !s.items[p].awaiting
  }

  function Settled(item: Item, e: Event): Item {
    var stopped := item.(stopped := true, listening := false);
    if e.Born? && e.kind.Vfork? then stopped.(vforking := true)
    else if e.VforkDone? then stopped.(vforking := false)
    else stopped
  }

  /** A parent's event names its child: the child may run from now on.  Before the launch this ends the session. */
  function Acknowledge(s: State, child: nat): State {
    var s1 := PutItem(s, child, ItemOf(s, child, false).(awaiting := false));
    if s.launched then s1 else s1.(retiring := true, draining := true)
  }

  /** A thread that execs takes the number of its process's first thread, and dies unannounced under its own. */
  function Replaced(s: State, p: nat, previous: nat): State {
    if previous != p then DropItem(s, previous) else s
  }

  function Decided(item: Item): Item {
    if item.observed then FreshItem(false).(stopped := true, pending := true) else item.(pending := true)
  }

  /** Every exec but one that makes the count one waits for a decision; one that follows an observed image gets a record
      of its own. */
  function Enlist(s: State, p: nat, previous: nat): State
    requires p in s.items
  {
    var s1 := Replaced(s, p, previous).(launched := true, execs := s.execs + 1);
    if s1.execs <= 1 || s1.retiring then s1 else PutItem(s1, p, Decided(s1.items[p]))
  }

  /** The wait report of a stop, in the order the trace loop handles it. */
  function HandleReport(s: State, p: nat): State
    requires Stopped(s, p)
  {
    var e := s.procs[p].event;
    var item := Settled(ItemOf(s, p, e.Stop?), e);
    var s1 := PutItem(PutMode(s, p, Trapped(e, true)), p, item);
    match e
    case Born(_, child) => Acknowledge(s1, child)
    case Stop(group) => if !s.draining && group then PutItem(s1, p, item.(listening := true)) else s1
    case Exec(previous) => Enlist(s1, p, previous)
    case _ => s1
  }

  /** What a process does when its ptrace stop is ended. */
  function Resume(m: Mode): Mode {
    match m
    case Trapped(Born(Vfork, _), _) => InVfork
    case Trapped(_, _) => Running
    case _ => m
  }

  /** PTRACE_CONT, or PTRACE_LISTEN for a group stop; neither does anything to a process that is not stopped. */
  function Resumed(s: State, p: nat): State
    requires p in s.items
  {
    var s1 := PutItem(s, p, s.items[p].(stopped := false, listening := false));
    if !Stopped(s, p) then s1
    else if s.items[p].listening then PutMode(s1, p, Listening)
    else PutMode(s1, p, Resume(s.procs[p]))
  }

  function Apply(s: State, a: Action): State
    requires Enabled(s, a)
  {
    match a
    case Trap(p, e) => PutMode(s, p, Trapped(e, false))
    case Birthing(p, kind, c) =>
      var first := if p in s.leader then s.leader[p] else p;
      PutMode(PutMode(s, p, Trapped(Born(kind, c), false)), c, Starting).(
        leader := if kind.Thread? then s.leader[c := first] else s.leader - {c})
    case FirstTrap(p) => PutMode(s, p, Trapped(Stop(false), false))
    case VforkEnds(p) => PutMode(s, p, Trapped(VforkDone, false))
    case ListenTrap(p) => PutMode(s, p, Trapped(Stop(true), false))
    case Die(p) => PutMode(s, p, Dead)
    case SiblingExec(t, l) => PutMode(DropProcess(s, t), l, Trapped(Exec(t), false))
    case Report(p) => HandleReport(s, p)
    case ReportDeath(p) => DropItem(DropProcess(ClearBarrier(s, p), p), p)
    case PickBarrier(p) => s.(barrier := Some(p))
    case StartDecision(p, started) =>
      if started then PutItem(s, p, s.items[p].(job := true, lease := true))
      else PutItem(s, p, s.items[p].(pending := false)).(barrier := None)
    case Continue(p) => Resumed(s, p)
    case Arm(p) => PutItem(s, p, s.items[p].(armed := true))
    case ReleaseLease(p) => ClearBarrier(PutItem(s, p, s.items[p].(pending := false, lease := false)), p)
    case RestoreImage(p, dies) =>
      if Stopped(s, p) then PutMode(s, p, if dies then Dead else Trapped(Signal, true)) else s
    case JobEnds(p, kept) =>
      var item := s.items[p].(job := false, armed := false, pending := false, lease := false);
      ClearBarrier(PutItem(s, p, if kept then item.(observed := true) else item), p)
    case Retire => s.(retiring := true)
    case Drain => s.(retiring := true, draining := true)
    case Detach(p) => DropItem(DropProcess(s, p), p)
  }

  /** One process before its first stop: the tracer seized it and asked it to stop.  Execs are counted from one, so that
      each waits for a decision, or from zero, so that the root's first does not. */
  predicate Initial(s: State, root: nat) {
    && s == State(map[root := Running], map[], map[root := FreshItem(false)], None, false, false, false, s.execs)
    && s.execs <= 1
  }

  predicate Possible(s: State, run: seq<Action>)
    decreases |run|
  {
    run == [] || (Enabled(s, run[0]) && Possible(Apply(s, run[0]), run[1..]))
  }

  function Run(s: State, run: seq<Action>): State
    requires Possible(s, run)
    decreases |run|
  {
    if run == [] then s else Run(Apply(s, run[0]), run[1..])
  }
}

/** A sealed effect transaction as a state machine.  Every `await` is a step boundary: between any two steps, any other
    caller's step may run.  The backend, the callers and the order in which settled promises resume are unconstrained.
    `seen` is history; no step reads it. */
module EffectTransaction {
  import opened Basics

  datatype Phase = Sealed | Validating | Validated | Committing | Committed | Aborting | Aborted | Poisoned

  datatype Disposition = Recoverable | Fatal

  /** The promise chain inside the commit gate: reserved, waiting for a validation, in the
      backend, settling, settled. */
  datatype Attempt =
    | Idle
    | Reserved
    | Awaiting(proof: Option<nat>)
    | Effecting
    | Returned
    | Threw(disposition: Disposition)
    | Done

  /** An entry of the lifecycle lane; `query` names the reconstruction whose proof it runs. */
  datatype Ticket = Proof(id: nat, query: Option<nat>) | Close

  /** A validate call that waits for the commit attempt it found in progress. */
  datatype Waiter = Waiter(attempt: nat, query: Option<nat>)

  /** A reconstruction: being evaluated, without a result, with a result that needs no release, or with one that does.
      A result that cannot be handed over is one whose release follows at once. */
  datatype Query = Evaluating | Empty | Free | Live | Releasing | Released

  datatype Transfer = Unasked | Moving | HandedOver | Dropped

  datatype Finalizing = Open | Drained | Disposing | Finished

  datatype Fact =
    | Asked(id: nat)
    | OwnStarted(id: nat)
    | OwnEnded(id: nat, valid: bool)
    | QueryStarted(id: nat, query: nat, asked: bool)
    | QueryEnded(query: nat)
    | Admitted
    | EffectStarted
    | EffectEnded
    | Failed(disposition: Disposition)
    | Settled
    | Closed
    | Kept(query: nat)
    | ReleaseStarted(query: nat)
    | ReleaseEnded(query: nat)
    | MoveStarted
    | MoveEnded(given: bool)
    | BranchDisposed

  // ---------------------------------------------------------------- an observer of the facts

  datatype Stage = Never | Acting | Lost | Spoiled | Won

  /** Of proofs: which own validation started last and has seen nothing fail, end or take effect since (`clean`);
      whether the last to end was such a one and valid, with none started since (`trusted`); whether one is running;
      whether the last own one to end was valid and no commit has failed since (`proved`); for each proof asked for
      while a commit was under way and had not succeeded, which; and how own proofs ended. */
  datatype Proofs = Proofs(clean: Option<nat>, trusted: bool, proving: bool, proved: bool, during: map<nat, nat>,
                           ended: map<nat, bool>)

  /** How far the backend's commit is, whether one is under way, and how many were admitted. */
  datatype Commits = Commits(stage: Stage, underway: bool, admitted: nat)

  /** Closed, with no commit under way, won or spoiled then (`calm`); and the branch disposed of. */
  datatype Ends = Ends(closed: bool, calm: bool, disposed: bool)

  /** The reconstructions handed out, and the inputs given away. */
  datatype Lent = Lent(kept: set<nat>, releasing: set<nat>, released: set<nat>, moving: bool, moved: bool, given: bool)

  /** What an observer remembers of the facts so far, and whether every one was allowed when it happened. */
  datatype Seen = Seen(proofs: Proofs, commits: Commits, ends: Ends, lent: Lent, ordered: bool)

  /** The proof was asked for during the commit that is under way. */
  predicate Intrudes(h: Seen, id: nat) {
    h.commits.underway && id in h.proofs.during && h.proofs.during[id] == h.commits.admitted
  }

  /** The contract of the transaction towards its backend. */
  predicate Allowed(h: Seen, f: Fact) {
    match f
    case Asked(_) => true
    case OwnStarted(id) => !h.proofs.proving && !h.ends.disposed && !Intrudes(h, id)
    case QueryStarted(id, q, asked) =>
      !h.proofs.proving && !h.ends.disposed && !Intrudes(h, id) && (asked ==> q !in h.lent.releasing)
    case OwnEnded(_, _) => h.proofs.proving
    case QueryEnded(_) => h.proofs.proving
    case Admitted => !h.commits.underway && !h.ends.closed && !h.commits.stage.Won? && !h.commits.stage.Spoiled?
    case EffectStarted => h.commits.underway && h.proofs.trusted && (h.commits.stage.Never? || h.commits.stage.Lost?)
    case EffectEnded => h.commits.stage.Acting?
    case Failed(d) =>
      && h.commits.underway
      && (if d.Fatal? then h.commits.stage.Acting? else !h.commits.stage.Won? && !h.commits.stage.Spoiled?)
    case Settled => h.commits.underway && !h.commits.stage.Acting?
    case Closed => !h.ends.closed
    case Kept(q) => q !in h.lent.kept && !h.ends.disposed
    case ReleaseStarted(q) => q in h.lent.kept && q !in h.lent.releasing
    case ReleaseEnded(q) => q in h.lent.releasing && q !in h.lent.released
    case MoveStarted => h.commits.stage.Won? && !h.ends.closed && !h.lent.moving
    case MoveEnded(given) => h.lent.moving && !h.lent.moved && (given <==> !h.ends.closed)
    case BranchDisposed =>
      && h.ends.closed && !h.ends.disposed && !h.commits.underway && !h.proofs.proving
      && (h.lent.moving ==> h.lent.moved) && h.lent.kept <= h.lent.released
  }

  function Remember(h: Seen, f: Fact): Seen {
    match f
    case Asked(_) => h.(proofs := RememberProof(h, f))
    case OwnStarted(_) => h.(proofs := RememberProof(h, f))
    case QueryStarted(_, _, _) => h.(proofs := RememberProof(h, f))
    case OwnEnded(_, _) => h.(proofs := RememberProof(h, f))
    case QueryEnded(_) => h.(proofs := RememberProof(h, f))
    case Admitted => h.(commits := h.commits.(underway := true, admitted := h.commits.admitted + 1))
    case EffectStarted => h.(proofs := Spent(h.proofs), commits := h.commits.(stage := Acting))
    case EffectEnded => h.(proofs := Spent(h.proofs), commits := h.commits.(stage := Won))
    case Failed(d) =>
      h.(proofs := Spent(h.proofs).(proved := false),
         commits := h.commits.(stage := if d.Fatal? then Spoiled else Lost))
    case Settled => h.(commits := h.commits.(underway := false))
    case Closed => h.(ends := h.ends.(closed := true, calm := Calm(h.commits)))
    case BranchDisposed => h.(ends := h.ends.(disposed := true))
    case _ => h.(lent := RememberLent(h.lent, f))
  }

  function RememberProof(h: Seen, f: Fact): Proofs {
    match f
    case Asked(id) =>
      if h.commits.underway && !h.commits.stage.Won?
      then h.proofs.(during := h.proofs.during[id := h.commits.admitted]) else h.proofs
    case OwnStarted(id) => h.proofs.(clean := Some(id), trusted := false, proving := true)
    case QueryStarted(_, _, _) => h.proofs.(proving := true)
    case OwnEnded(id, valid) =>
      h.proofs.(clean := None, trusted := valid && h.proofs.clean == Some(id), proving := false, proved := valid,
                ended := h.proofs.ended[id := valid])
    case QueryEnded(_) => h.proofs.(proving := false)
    case _ => h.proofs
  }

  /** No proof so far counts for another commit. */
  function Spent(p: Proofs): Proofs {
    p.(clean := None, trusted := false)
  }

  predicate Calm(c: Commits) {
    !c.underway && !c.stage.Won? && !c.stage.Spoiled?
  }

  function RememberLent(l: Lent, f: Fact): Lent {
    match f
    case Kept(q) => l.(kept := l.kept + {q})
    case ReleaseStarted(q) => l.(releasing := l.releasing + {q})
    case ReleaseEnded(q) => l.(released := l.released + {q})
    case MoveStarted => l.(moving := true)
    case MoveEnded(given) => l.(moved := true, given := given)
    case _ => l
  }

  function Observe(h: Seen, f: Fact): Seen {
    Remember(h, f).(ordered := h.ordered && Allowed(h, f))
  }

  // ---------------------------------------------------------------- the transaction

  datatype State = State(phase: Phase, validation: Option<bool>, pending: Option<nat>,
                         outcome: Option<nat>, attempt: Attempt, attempts: nat,
                         closed: bool, lane: seq<Ticket>, running: bool, settled: set<nat>,
                         waiting: map<nat, Waiter>, next: nat,
                         queries: map<nat, Query>, transfer: Transfer, finalizing: Finalizing, seen: Seen)

  datatype Event =
    | ValidateCall(source: Option<nat>)
    | ValidateResumes(id: nat)
    | LaneStarts
    | LaneEnds(valid: bool)
    | ValidateReturns(id: nat)
    | CommitCall
    | CommitBegins
    | CommitChecks
    | EffectReturns
    | EffectThrows(disposition: Disposition)
    | CommitSettles
    | AbortCall
    | ReconstructCall(query: nat)
    | ReconstructEnds(query: nat, result: Query)
    | ReleaseCall(query: nat)
    | ReleaseSettles(query: nat)
    | TakeInputsCall
    | TakeInputsEnds
    | LaneDrains
    | BranchDisposes
    | DisposeSettles

  function Note(s: State, f: Fact): State {
    s.(seen := Observe(s.seen, f))
  }

  predicate Final(p: Phase) {
    p.Committed? || p.Poisoned?
  }

  // ---------------------------------------------------------------- validate

  predicate AttemptSettled(s: State, k: nat) {
    s.outcome != Some(k) || s.attempt.Done?
  }

  /** The part of `validate` that runs without a pause: refuse a transaction that is over, else join the lane. */
  function JoinLane(s: State, id: nat, query: Option<nat>): State {
    if s.closed || s.phase.Aborted? || s.phase.Aborting? || s.phase.Poisoned? then s
    else s.(lane := s.lane + [Proof(id, query)], pending := Some(id))
  }

  function StartValidate(s: State, query: Option<nat>): State {
    var id := s.next;
    var s1 := Note(s.(next := s.next + 1), Asked(id));
    if !s.closed && s.outcome.Some? && !s.phase.Committed?
    then s1.(waiting := s.waiting[id := Waiter(s.outcome.value, query)])
    else JoinLane(s1, id, query)
  }

  predicate Untouched(s: State, query: nat) {
    query in s.queries && !s.queries[query].Releasing? && !s.queries[query].Released?
  }

  function StartLane(s: State): State
    requires s.lane != [] && s.lane[0].Proof?
  {
    var t := s.lane[0];
    match t.query
    case Some(q) => Note(s.(running := true), QueryStarted(t.id, q, Untouched(s, q)))
    case None =>
      Note(s.(running := true, phase := if s.phase.Sealed? || s.phase.Validated? then Validating else s.phase),
        OwnStarted(t.id))
  }

  /** A query borrows the lane, but its answer is no proof for the transaction's own output. */
  function EndLane(s: State, valid: bool): State
    requires s.lane != [] && s.lane[0].Proof?
  {
    var t := s.lane[0];
    var own := t.query.None?;
    Note(s.(running := false, lane := s.lane[1..], settled := s.settled + {t.id},
            validation := if own then Some(valid) else s.validation,
            phase := if !own || !s.phase.Validating? then s.phase else if valid then Validated else Sealed),
         if own then OwnEnded(t.id, valid) else QueryEnded(t.query.value))
  }

  // ---------------------------------------------------------------- commit

  /** A call that finds a commit joins it; one that finds neither a proof nor one under way is refused. */
  function CallCommit(s: State): State {
    if s.outcome.Some? || s.closed || (s.pending.None? && s.validation != Some(true)) then s
    else Note(s.(outcome := Some(s.attempts), attempts := s.attempts + 1, attempt := Reserved), Admitted)
  }

  function FailCommit(s: State, d: Disposition): State {
    Note(s.(phase := if d.Fatal? then Poisoned else Sealed, validation := None, attempt := Threw(d)), Failed(d))
  }

  function CheckCommit(s: State): State {
    if s.validation == Some(true) && s.phase.Validated?
    then Note(s.(phase := Committing, attempt := Effecting), EffectStarted)
    else FailCommit(s, Recoverable)
  }

  function SettleCommit(s: State): State {
    Note(if s.attempt == Threw(Recoverable) then s.(outcome := None, attempt := Idle) else s.(attempt := Done), Settled)
  }

  // ---------------------------------------------------------------- abort, reconstruct, inputs

  function CallAbort(s: State): State {
    if s.closed then s
    else
      Note(s.(phase := if Final(s.phase) || s.outcome.Some? then s.phase else Aborting,
              closed := true, lane := s.lane + [Close]), Closed)
  }

  function CallReconstruct(s: State, q: nat): State {
    if s.closed || !(s.phase.Sealed? || s.phase.Validating? || s.phase.Validated? || s.phase.Committed?) then s
    else s.(queries := s.queries[q := Evaluating])
  }

  function EndReconstruct(s: State, q: nat, result: Query): State {
    var s1 := s.(queries := s.queries[q := result]);
    if result.Live? then Note(s1, Kept(q)) else s1
  }

  function CallRelease(s: State, q: nat): State
    requires q in s.queries
  {
    if !s.queries[q].Live? then s else Note(s.(queries := s.queries[q := Releasing]), ReleaseStarted(q))
  }

  function CallTakeInputs(s: State): State {
    if s.closed || !s.phase.Committed? || !s.transfer.Unasked? then s else Note(s.(transfer := Moving), MoveStarted)
  }

  function EndTakeInputs(s: State): State {
    Note(s.(transfer := if s.closed then Dropped else HandedOver), MoveEnded(!s.closed))
  }

  /** No tracked work is left: no commit between admission and settlement, no evaluation, no transfer. */
  predicate Quiet(s: State) {
    && (s.attempt.Idle? || s.attempt.Done?)
    && !s.transfer.Moving?
    && forall q :: q in s.queries ==> !s.queries[q].Evaluating?
  }

  predicate QueriesReleased(s: State) {
    forall q :: q in s.queries ==> !s.queries[q].Live? && !s.queries[q].Releasing?
  }

  predicate Enabled(s: State, e: Event) {
    match e
    case ValidateCall(source) => source.Some? ==> source.value in s.queries && !s.queries[source.value].Evaluating?
    case ValidateResumes(id) => id in s.waiting && AttemptSettled(s, s.waiting[id].attempt)
    case LaneStarts => s.lane != [] && s.lane[0].Proof? && !s.running
    case LaneEnds(_) => s.lane != [] && s.lane[0].Proof? && s.running
    case ValidateReturns(id) => id in s.settled
    case CommitCall => true
    case CommitBegins => s.attempt.Reserved?
    case CommitChecks => s.attempt.Awaiting? && (s.attempt.proof.Some? ==> s.attempt.proof.value in s.settled)
    case EffectReturns => s.attempt.Effecting?
    case EffectThrows(_) => s.attempt.Effecting?
    case CommitSettles => s.attempt.Returned? || s.attempt.Threw?
    case AbortCall => true
    case ReconstructCall(q) => q !in s.queries
    case ReconstructEnds(q, result) =>
      q in s.queries && s.queries[q].Evaluating? && (result.Empty? || result.Free? || result.Live?)
    case ReleaseCall(q) => q in s.queries
    case ReleaseSettles(q) => q in s.queries && s.queries[q].Releasing?
    case TakeInputsCall => true
    case TakeInputsEnds => s.transfer.Moving?
    case LaneDrains => s.finalizing.Open? && s.lane == [Close] && Quiet(s)
    case BranchDisposes => s.finalizing.Drained? && QueriesReleased(s)
    case DisposeSettles => s.finalizing.Disposing?
  }

  function Step(s: State, e: Event): State
    requires Enabled(s, e)
  {
    match e
    case ValidateCall(source) => StartValidate(s, source)
    case ValidateResumes(id) => JoinLane(s.(waiting := s.waiting - {id}), id, s.waiting[id].query)
    case LaneStarts => StartLane(s)
    case LaneEnds(valid) => EndLane(s, valid)
    case ValidateReturns(id) => if s.pending == Some(id) then s.(pending := None) else s
    case CommitCall => CallCommit(s)
    case CommitBegins => s.(attempt := Awaiting(s.pending))
    case CommitChecks => CheckCommit(s)
    case EffectReturns => Note(s.(phase := Committed, attempt := Returned), EffectEnded)
    case EffectThrows(d) => FailCommit(s, d)
    case CommitSettles => SettleCommit(s)
    case AbortCall => CallAbort(s)
    case ReconstructCall(q) => CallReconstruct(s, q)
    case ReconstructEnds(q, result) => EndReconstruct(s, q, result)
    case ReleaseCall(q) => CallRelease(s, q)
    case ReleaseSettles(q) => Note(s.(queries := s.queries[q := Released]), ReleaseEnded(q))
    case TakeInputsCall => CallTakeInputs(s)
    case TakeInputsEnds => EndTakeInputs(s)
    case LaneDrains => s.(finalizing := Drained)
    case BranchDisposes => Note(s.(finalizing := Disposing), BranchDisposed)
    case DisposeSettles => s.(finalizing := Finished, phase := if Final(s.phase) then s.phase else Aborted)
  }

  function Fresh(): State {
    State(Sealed, None, None, None, Idle, 0, false, [], false, {}, map[], 0, map[], Unasked, Open,
          Seen(Proofs(None, false, false, false, map[], map[]), Commits(Never, false, 0), Ends(false, false, false),
               Lent({}, {}, {}, false, false, false), true))
  }

  predicate Possible(s: State, run: seq<Event>)
    decreases |run|
  {
    run == [] || (Enabled(s, run[0]) && Possible(Step(s, run[0]), run[1..]))
  }

  function Run(s: State, run: seq<Event>): State
    requires Possible(s, run)
    decreases |run|
  {
    if run == [] then s else Run(Step(s, run[0]), run[1..])
  }
}

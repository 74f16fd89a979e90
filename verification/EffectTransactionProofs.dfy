/** What an observer sees of every run of a transaction. */
module EffectTransactionProofs {
  import opened Basics
  import opened EffectTransaction

  // ---------------------------------------------------------------- the inductive invariant

  predicate CommitInv(s: State) {
    && s.attempt.Idle? == s.outcome.None?
    && s.seen.commits.underway == (!s.attempt.Idle? && !s.attempt.Done?)
    && s.phase.Committing? == s.attempt.Effecting?
    && s.seen.commits.stage.Acting? == s.attempt.Effecting?
    && (s.phase.Committed? ==> s.attempt.Returned? || s.attempt.Done?)
    && (s.phase.Poisoned? ==> s.attempt == Threw(Fatal) || s.attempt.Done?)
    && (s.attempt.Returned? ==> s.phase.Committed?)
    && (s.attempt == Threw(Fatal) ==> s.phase.Poisoned?)
    && (s.attempt.Done? ==> Final(s.phase))
    && s.seen.commits.stage.Won? == s.phase.Committed?
    && s.seen.commits.stage.Spoiled? == s.phase.Poisoned?
    && (s.phase.Aborting? || s.phase.Aborted? ==> s.closed && s.attempt.Idle?)
  }

  predicate ProofInv(s: State) {
    && s.running == s.seen.proofs.proving
    && (s.running ==> s.lane != [] && s.lane[0].Proof?)
    && (s.phase.Validating? ==> s.running && s.lane[0].query.None? && s.seen.proofs.clean == Some(s.lane[0].id))
    && (s.phase.Validated? ==>
         s.validation == Some(true) && s.seen.proofs.trusted && (s.running ==> s.lane[0].query.Some?))
  }

  /** Closing is the last thing that enters the lane. */
  predicate LaneShape(lane: seq<Ticket>, closed: bool) {
    && (forall i :: 0 <= i < |lane| && lane[i].Close? ==> closed && i == |lane| - 1)
    && (closed ==> lane != [] && lane[|lane| - 1].Close?)
  }

  lemma {:induction false} TailShape(lane: seq<Ticket>, closed: bool)
    requires LaneShape(lane, closed) && lane != [] && lane[0].Proof?
    ensures LaneShape(lane[1..], closed) && lane != [Close]
  {
  }

  predicate LaneInv(s: State) {
    && s.closed == s.seen.ends.closed && LaneShape(s.lane, s.closed)
    && (!s.finalizing.Open? ==> s.closed && s.lane == [Close] && Quiet(s))
    && s.seen.ends.disposed == (s.finalizing.Disposing? || s.finalizing.Finished?)
    && (s.finalizing.Finished? ==> s.phase.Aborted? || Final(s.phase))
  }

  predicate Was(s: State, q: nat, kept: bool, releasing: bool, released: bool) {
    q in s.queries && ((kept && s.queries[q].Live?) || (releasing && s.queries[q].Releasing?) ||
      (released && s.queries[q].Released?))
  }

  ghost predicate QueryInv(s: State) {
    && (forall q: nat :: q in s.seen.lent.kept <==> Was(s, q, true, true, true))
    && (forall q: nat :: q in s.seen.lent.releasing <==> Was(s, q, false, true, true))
    && (forall q: nat :: q in s.seen.lent.released <==> Was(s, q, false, false, true))
  }

  predicate MoveInv(s: State) {
    && s.seen.lent.moving == !s.transfer.Unasked?
    && s.seen.lent.moved == (s.transfer.HandedOver? || s.transfer.Dropped?)
    && (s.transfer.HandedOver? <==> s.seen.lent.moved && s.seen.lent.given)
  }

  ghost predicate Core(s: State) {
    CommitInv(s) && ProofInv(s) && LaneInv(s) && QueryInv(s) && MoveInv(s) && s.seen.ordered
  }

  // ---------------------------------------------------------------- every step keeps it

  /** Nothing but the lane, the callers' own waiting and their numbers differ, and the lane by one proof at most. */
  predicate Joins(s: State, t: State) {
    && t == s.(waiting := t.waiting, pending := t.pending, next := t.next, lane := t.lane,
              seen := s.seen.(proofs := s.seen.proofs.(during := t.seen.proofs.during)))
    && (t.lane == s.lane ||
       (!s.closed && t.lane != [] && t.lane[|t.lane| - 1].Proof? && s.lane == t.lane[..|t.lane| - 1]))
  }

  lemma {:induction false} JoinsKeeps(s: State, t: State)
    requires Core(s) && Joins(s, t)
    ensures Core(t)
  {
  }

  lemma {:induction false} JoinLaneKeeps(s: State, id: nat, source: Option<nat>)
    requires Core(s)
    ensures Core(JoinLane(s, id, source))
  {
    JoinsKeeps(s, JoinLane(s, id, source));
  }

  lemma {:induction false} StartLaneKeeps(s: State)
    requires Core(s) && Enabled(s, LaneStarts) && !Intrudes(s.seen, s.lane[0].id)
    ensures Core(StartLane(s))
  {
    var t := StartLane(s);
    assert !s.seen.ends.disposed;
    if s.lane[0].query.Some? {
      assert Untouched(s, s.lane[0].query.value) ==> s.lane[0].query.value !in s.seen.lent.releasing;
      assert CommitInv(t) && ProofInv(t) && LaneInv(t) && MoveInv(t);
    } else {
      assert CommitInv(t) && ProofInv(t) && LaneInv(t) && MoveInv(t);
    }
  }

  lemma {:induction false} EndLaneShape(s: State, valid: bool)
    requires s.lane != [] && s.lane[0].Proof?
    ensures var t := EndLane(s, valid);
      && t.lane == s.lane[1..] && t.closed == s.closed && t.finalizing == s.finalizing
      && t.seen.ends.closed == s.seen.ends.closed && t.seen.ends.disposed == s.seen.ends.disposed
  {
  }

  lemma {:induction false} LaneInvTail(s: State, t: State)
    requires LaneInv(s) && s.lane != [] && s.lane[0].Proof?
    requires t.lane == s.lane[1..] && t.closed == s.closed && t.finalizing == s.finalizing
    requires t.seen.ends.closed == s.seen.ends.closed && t.seen.ends.disposed == s.seen.ends.disposed
    ensures LaneInv(t)
  {
    TailShape(s.lane, s.closed);
  }

  lemma {:induction false} EndLaneKeepsProof(s: State, valid: bool)
    requires ProofInv(s) && Enabled(s, LaneEnds(valid))
    ensures ProofInv(EndLane(s, valid))
  {
  }

  lemma {:induction false} EndLaneKeepsCommit(s: State, valid: bool)
    requires CommitInv(s) && Enabled(s, LaneEnds(valid))
    ensures CommitInv(EndLane(s, valid))
  {
  }

  lemma {:induction false} EndLaneIsAllowed(s: State, valid: bool)
    requires s.running == s.seen.proofs.proving && s.seen.ordered && Enabled(s, LaneEnds(valid))
    ensures EndLane(s, valid).seen.ordered
  {
  }

  lemma {:induction false} EndLaneLeavesQueries(s: State, valid: bool)
    requires Enabled(s, LaneEnds(valid))
    ensures var t := EndLane(s, valid);
      && t.queries == s.queries && t.transfer == s.transfer
      && t.seen.lent.kept == s.seen.lent.kept && t.seen.lent.releasing == s.seen.lent.releasing
      && t.seen.lent.released == s.seen.lent.released
      && t.seen.lent.moving == s.seen.lent.moving && t.seen.lent.moved == s.seen.lent.moved
  {
  }

  lemma {:induction false} SameQueries(s: State, t: State)
    requires QueryInv(s) && t.queries == s.queries
    requires t.seen.lent.kept == s.seen.lent.kept && t.seen.lent.releasing == s.seen.lent.releasing
    requires t.seen.lent.released == s.seen.lent.released
    ensures QueryInv(t)
  {
    assert forall q, a, b, c :: Was(t, q, a, b, c) == Was(s, q, a, b, c);
  }

  lemma {:induction false} EndLaneKeepsQueries(s: State, valid: bool)
    requires QueryInv(s) && MoveInv(s) && Enabled(s, LaneEnds(valid))
    ensures QueryInv(EndLane(s, valid)) && MoveInv(EndLane(s, valid))
  {
    EndLaneLeavesQueries(s, valid);
    SameQueries(s, EndLane(s, valid));
  }

  lemma {:induction false} EndLaneKeeps(s: State, valid: bool)
    requires Core(s) && Enabled(s, LaneEnds(valid))
    ensures Core(EndLane(s, valid))
  {
    EndLaneShape(s, valid);
    LaneInvTail(s, EndLane(s, valid));
    EndLaneKeepsProof(s, valid);
    EndLaneKeepsCommit(s, valid);
    EndLaneIsAllowed(s, valid);
    EndLaneKeepsQueries(s, valid);
  }

  /** A commit can fail before it reaches the backend, recoverably, or in it. */
  lemma {:induction false} FailCommitKeeps(s: State, d: Disposition)
    requires Core(s) && (s.attempt.Effecting? || (s.attempt.Awaiting? && d.Recoverable?))
    ensures Core(FailCommit(s, d))
  {
  }

  /** The gate: whatever else is going on, the backend is asked to commit only on a trusted proof. */
  lemma {:induction false} StartEffectKeeps(s: State)
    requires Core(s) && s.attempt.Awaiting? && s.phase.Validated?
    ensures Core(Note(s.(phase := Committing, attempt := Effecting), EffectStarted))
  {
  }

  lemma {:induction false} CheckCommitKeeps(s: State)
    requires Core(s) && Enabled(s, CommitChecks)
    ensures Core(CheckCommit(s))
  {
    if s.phase.Validated? { StartEffectKeeps(s); } else { FailCommitKeeps(s, Recoverable); }
  }

  lemma {:induction false} CallCommitKeeps(s: State)
    requires Core(s)
    ensures Core(CallCommit(s))
  {
  }

  lemma {:induction false} ReturnEffectKeeps(s: State)
    requires Core(s) && Enabled(s, EffectReturns)
    ensures Core(Step(s, EffectReturns))
  {
  }

  lemma {:induction false} SettleCommitKeepsCommit(s: State)
    requires CommitInv(s) && Enabled(s, CommitSettles)
    ensures CommitInv(SettleCommit(s)) && (s.seen.ordered ==> SettleCommit(s).seen.ordered)
  {
    match s.attempt
    case Threw(d) => if d.Fatal? { assert s.phase.Poisoned?; }
    case _ =>
  }

  lemma {:induction false} SettleCommitKeeps(s: State)
    requires Core(s) && Enabled(s, CommitSettles)
    ensures Core(SettleCommit(s))
  {
    SettleCommitKeepsCommit(s);
  }

  lemma {:induction false} CallAbortKeeps(s: State)
    requires Core(s)
    ensures Core(CallAbort(s))
  {
  }

  lemma {:induction false} CallReconstructKeeps(s: State, q: nat)
    requires Core(s) && q !in s.queries
    ensures Core(CallReconstruct(s, q))
  {
  }

  lemma {:induction false} EndReconstructKeeps(s: State, q: nat, result: Query)
    requires Core(s) && Enabled(s, ReconstructEnds(q, result))
    ensures Core(EndReconstruct(s, q, result))
  {
  }

  lemma {:induction false} CallReleaseKeeps(s: State, q: nat)
    requires Core(s) && q in s.queries
    ensures Core(CallRelease(s, q))
  {
  }

  lemma {:induction false} SettleReleaseKeeps(s: State, q: nat)
    requires Core(s) && Enabled(s, ReleaseSettles(q))
    ensures Core(Step(s, ReleaseSettles(q)))
  {
  }

  lemma {:induction false} CallTakeInputsKeeps(s: State)
    requires Core(s)
    ensures Core(CallTakeInputs(s))
  {
  }

  lemma {:induction false} EndTakeInputsKeeps(s: State)
    requires Core(s) && s.transfer.Moving?
    ensures Core(EndTakeInputs(s))
  {
  }

  lemma {:induction false} DrainLaneKeeps(s: State)
    requires Core(s) && Enabled(s, LaneDrains)
    ensures Core(Step(s, LaneDrains))
  {
    assert s.lane[0].Close?;
  }

  lemma {:induction false} DisposeBranchKeeps(s: State)
    requires Core(s) && Enabled(s, BranchDisposes)
    ensures Core(Step(s, BranchDisposes))
  {
  }

  lemma {:induction false} SettleDisposeKeeps(s: State)
    requires Core(s) && Enabled(s, DisposeSettles)
    ensures Core(Step(s, DisposeSettles))
  {
  }

  lemma {:induction false} ForgottenKeeps(s: State, waiting: map<nat, Waiter>, pending: Option<nat>, next: nat,
                                          attempt: Attempt)
    requires Core(s) && (attempt == s.attempt || (s.attempt.Reserved? && attempt.Awaiting?))
    ensures Core(s.(waiting := waiting, pending := pending, next := next, attempt := attempt))
  {
  }

  lemma {:induction false} StartValidateKeeps(s: State, source: Option<nat>)
    requires Core(s)
    ensures Core(StartValidate(s, source))
  {
    JoinsKeeps(s, StartValidate(s, source));
  }

  lemma {:induction false} ValidateKeeps(s: State, e: Event)
    requires Core(s) && Enabled(s, e)
    requires e.ValidateCall? || e.ValidateResumes? || e.ValidateReturns? || e.CommitBegins?
    ensures Core(Step(s, e))
  {
    match e
    case ValidateCall(source) => StartValidateKeeps(s, source);
    case ValidateResumes(id) =>
      ForgottenKeeps(s, s.waiting - {id}, s.pending, s.next, s.attempt);
      JoinLaneKeeps(s.(waiting := s.waiting - {id}), id, s.waiting[id].query);
    case ValidateReturns(_) => ForgottenKeeps(s, s.waiting, None, s.next, s.attempt);
    case CommitBegins => ForgottenKeeps(s, s.waiting, s.pending, s.next, Awaiting(s.pending));
  }

  // ---------------------------------------------------------------- proofs in the lane, and those that wait

  /** Commits are numbered as they are admitted; the outcome that is kept is that of the last. */
  predicate NumbersInv(s: State) {
    s.seen.commits.admitted == s.attempts && (s.outcome.Some? ==> s.attempts == s.outcome.value + 1)
  }

  predicate Queued(s: State, id: nat) {
    exists i :: 0 <= i < |s.lane| && s.lane[i].Proof? && s.lane[i].id == id
  }

  /** A proof is in the lane once, or waits to get there, or has settled. */
  predicate TicketsInv(s: State) {
    && (forall i :: 0 <= i < |s.lane| && s.lane[i].Proof? ==>
         s.lane[i].id < s.next && s.lane[i].id !in s.settled && s.lane[i].id !in s.waiting)
    && (forall i, j :: 0 <= i < j < |s.lane| && s.lane[i].Proof? && s.lane[j].Proof? ==> s.lane[i].id != s.lane[j].id)
    && (forall id :: id in s.waiting ==> id < s.next && id !in s.settled && s.waiting[id].attempt < s.attempts)
    && (forall id :: id in s.settled ==> id < s.next)
    && s.seen.proofs.ended.Keys <= s.settled
  }

  /** A proof asked for during a commit waits for that one, and is in the lane only when it is over. */
  predicate DuringInv(s: State) {
    && (forall id :: id in s.seen.proofs.during ==> id < s.next && s.seen.proofs.during[id] <= s.attempts)
    && (forall id :: id in s.seen.proofs.during && id in s.waiting ==>
         s.seen.proofs.during[id] <= s.waiting[id].attempt + 1)
    && (forall i :: 0 <= i < |s.lane| && s.lane[i].Proof? ==> !Intrudes(s.seen, s.lane[i].id))
  }

  /** The proof a commit would wait for is the last in the lane; without one the lane holds no proof. */
  predicate AwaitedInv(s: State) {
    forall i :: 0 <= i < |s.lane| && s.lane[i].Proof? ==> s.pending.Some? && Behind(s.lane, i, s.pending.value)
  }

  /** The proof is in the lane at place i or behind it. */
  predicate Behind(lane: seq<Ticket>, i: nat, id: nat) {
    exists j :: i <= j < |lane| && lane[j].Proof? && lane[j].id == id
  }

  /** A pending proof is in the lane or has settled. */
  predicate PendingInv(s: State) {
    s.pending.Some? ==> s.pending.value in s.settled || Queued(s, s.pending.value)
  }

  predicate Early(p: Phase) {
    p.Sealed? || p.Validating? || p.Validated?
  }

  predicate TrustInv(s: State) {
    && (Early(s.phase) ==>
         (s.seen.proofs.trusted ==> s.phase.Validated?) && (s.seen.proofs.clean.Some? ==> s.phase.Validating?))
    && (s.validation == Some(true) <==> s.seen.proofs.proved)
  }

  predicate WindowInv(s: State) {
    NumbersInv(s) && TicketsInv(s) && DuringInv(s) && AwaitedInv(s) && PendingInv(s) && TrustInv(s)
  }

  /** What the state shows after the closing: aborting from then on if nothing was being committed, and aborted at the
      end unless the commit has succeeded or was spoiled. */
  predicate ShownInv(s: State) {
    && (s.seen.ends.calm ==> s.closed && s.attempt.Idle?)
    && (s.phase.Aborting? <==> s.seen.ends.calm && !s.finalizing.Finished?)
    && (s.phase.Aborted? <==> s.finalizing.Finished? && !Final(s.phase))
  }

  ghost predicate Inv(s: State) {
    Core(s) && WindowInv(s) && ShownInv(s)
  }

  /** Only what the window invariant does not speak of differs. */
  predicate SameWindow(s: State, t: State) {
    SameTickets(s, t) && t.outcome == s.outcome && t.seen.commits.underway == s.seen.commits.underway
  }

  predicate SameTickets(s: State, t: State) {
    && t.attempts == s.attempts && t.seen.commits.admitted == s.seen.commits.admitted
    && t.lane == s.lane && t.settled == s.settled && t.waiting == s.waiting && t.next == s.next
    && t.pending == s.pending && t.seen.proofs.during == s.seen.proofs.during
    && t.seen.proofs.ended == s.seen.proofs.ended
  }

  lemma {:induction false} SameWindowKeeps(s: State, t: State)
    requires WindowInv(s) && SameWindow(s, t) && TrustInv(t)
    ensures WindowInv(t)
  {
    forall i | 0 <= i < |t.lane| && t.lane[i].Proof? ensures !Intrudes(t.seen, t.lane[i].id) {
      assert !Intrudes(s.seen, s.lane[i].id);
    }
  }

  lemma {:induction false} FailLeaves(s: State, d: Disposition)
    requires TrustInv(s)
    ensures SameWindow(s, FailCommit(s, d)) && TrustInv(FailCommit(s, d))
  {
  }

  lemma {:induction false} CheckLeaves(s: State)
    requires TrustInv(s)
    ensures SameWindow(s, CheckCommit(s)) && TrustInv(CheckCommit(s))
  {
    FailLeaves(s, Recoverable);
  }

  lemma {:induction false} ReturnLeaves(s: State)
    requires TrustInv(s) && Enabled(s, EffectReturns)
    ensures SameWindow(s, Step(s, EffectReturns)) && TrustInv(Step(s, EffectReturns))
  {
  }

  lemma {:induction false} EffectKeepsWindow(s: State, e: Event)
    requires WindowInv(s) && Enabled(s, e)
    requires e.CommitChecks? || e.EffectReturns? || e.EffectThrows? || e.CommitBegins?
    ensures WindowInv(Step(s, e))
  {
    if e.CommitChecks? { CheckLeaves(s); }
    else if e.EffectReturns? { ReturnLeaves(s); }
    else if e.EffectThrows? { FailLeaves(s, e.disposition); }
    SameWindowKeeps(s, Step(s, e));
  }

  predicate Apart(e: Event) {
    e.ReconstructCall? || e.ReconstructEnds? || e.ReleaseCall? || e.ReleaseSettles? || e.TakeInputsCall? ||
    e.TakeInputsEnds? || e.LaneDrains? || e.BranchDisposes? || e.DisposeSettles?
  }

  lemma {:induction false} ApartKeepsWindow(s: State, e: Event)
    requires WindowInv(s) && Enabled(s, e) && Apart(e)
    ensures WindowInv(Step(s, e))
  {
    if e.LaneDrains? || e.BranchDisposes? || e.DisposeSettles? { ClosingLeaves(s, e); }
    else if e.TakeInputsCall? || e.TakeInputsEnds? { TakingLeaves(s, e); }
    else { ReadingLeaves(s, e); }
    SameTrustKeeps(s, Step(s, e));
    SameWindowKeeps(s, Step(s, e));
  }

  lemma {:induction false} SameTrustKeeps(s: State, t: State)
    requires TrustInv(s) && SameTrust(s, t)
    ensures TrustInv(t)
  {
  }

  predicate SameTrust(s: State, t: State) {
    && t.seen.proofs.trusted == s.seen.proofs.trusted && t.seen.proofs.clean == s.seen.proofs.clean
    && (Early(t.phase) ==> t.phase == s.phase)
    && t.validation == s.validation && t.seen.proofs.proved == s.seen.proofs.proved
  }

  lemma {:induction false} ReadingLeaves(s: State, e: Event)
    requires Enabled(s, e) && (e.ReconstructCall? || e.ReconstructEnds? || e.ReleaseCall? || e.ReleaseSettles?)
    ensures SameWindow(s, Step(s, e)) && SameTrust(s, Step(s, e))
  {
    if e.ReconstructEnds? {
      QuietFacts(s.seen, Kept(e.query));
    } else if e.ReleaseCall? {
      QuietFacts(s.seen, ReleaseStarted(e.query));
    } else if e.ReleaseSettles? {
      QuietFacts(s.seen, ReleaseEnded(e.query));
    }
  }

  /** A fact about a reconstruction says nothing about proofs, commits and the closing. */
  lemma {:induction false} QuietFacts(h: Seen, f: Fact)
    requires f.Kept? || f.ReleaseStarted? || f.ReleaseEnded?
    ensures var r := Observe(h, f);
      && r.proofs.clean == h.proofs.clean && r.proofs.trusted == h.proofs.trusted
      && r.commits.underway == h.commits.underway && r.commits.admitted == h.commits.admitted
      && r.proofs.during == h.proofs.during && r.proofs.ended == h.proofs.ended && r.ends.calm == h.ends.calm
      && r.proofs.proved == h.proofs.proved
  {
    match f
    case Kept(_) =>
    case ReleaseStarted(_) =>
    case ReleaseEnded(_) =>
  }

  lemma {:induction false} TakingLeaves(s: State, e: Event)
    requires Enabled(s, e) && (e.TakeInputsCall? || e.TakeInputsEnds?)
    ensures SameWindow(s, Step(s, e)) && SameTrust(s, Step(s, e))
  {
  }

  lemma {:induction false} ClosingLeaves(s: State, e: Event)
    requires Enabled(s, e) && (e.LaneDrains? || e.BranchDisposes? || e.DisposeSettles?)
    ensures SameWindow(s, Step(s, e)) && SameTrust(s, Step(s, e))
  {
  }

  lemma {:induction false} StartLaneKeepsWindow(s: State)
    requires WindowInv(s) && s.lane != [] && s.lane[0].Proof?
    ensures WindowInv(StartLane(s))
  {
    StartLaneTrusts(s);
    SameWindowKeeps(s, StartLane(s));
  }

  lemma {:induction false} StartLaneTrusts(s: State)
    requires TrustInv(s) && s.lane != [] && s.lane[0].Proof?
    ensures TrustInv(StartLane(s)) && SameWindow(s, StartLane(s))
  {
    if s.lane[0].query.Some? {
      StartLeaves(s.(running := true), QueryStarted(s.lane[0].id, s.lane[0].query.value,
                                                    Untouched(s, s.lane[0].query.value)));
    } else {
      StartLeaves(s.(running := true, phase := if s.phase.Sealed? || s.phase.Validated? then Validating else s.phase),
        OwnStarted(s.lane[0].id));
    }
  }

  lemma {:induction false} StartLeaves(s: State, f: Fact)
    requires f.QueryStarted? || f.OwnStarted?
    ensures SameWindow(s, Note(s, f)) && Note(s, f).phase == s.phase
    ensures f.OwnStarted? ==> !Note(s, f).seen.proofs.trusted
    ensures f.QueryStarted? ==>
      var p := Note(s, f).seen.proofs; p.trusted == s.seen.proofs.trusted && p.clean == s.seen.proofs.clean
  {
    if f.OwnStarted? { OwnStartLeaves(s.seen, f); } else { QueryStartLeaves(s.seen, f); }
  }

  lemma {:induction false} OwnStartLeaves(h: Seen, f: Fact)
    requires f.OwnStarted?
    ensures var r := Observe(h, f);
      && r.proofs.during == h.proofs.during && r.proofs.ended == h.proofs.ended
      && r.commits.underway == h.commits.underway && r.commits.admitted == h.commits.admitted
      && !r.proofs.trusted
  {
  }

  lemma {:induction false} QueryStartLeaves(h: Seen, f: Fact)
    requires f.QueryStarted?
    ensures var r := Observe(h, f);
      && r.proofs.during == h.proofs.during && r.proofs.ended == h.proofs.ended
      && r.commits.underway == h.commits.underway && r.commits.admitted == h.commits.admitted
      && r.proofs.trusted == h.proofs.trusted && r.proofs.clean == h.proofs.clean
  {
  }

  /** The first of the lane has settled. */
  lemma {:induction false} HeadTickets(s: State, t: State)
    requires TicketsInv(s) && s.lane != [] && s.lane[0].Proof?
    requires t.lane == s.lane[1..] && t.settled == s.settled + {s.lane[0].id} && t.seen.proofs.ended.Keys <= t.settled
    requires t.attempts == s.attempts && t.waiting == s.waiting && t.next == s.next
    ensures TicketsInv(t)
  {
    assert forall i :: 0 <= i < |t.lane| ==> t.lane[i] == s.lane[i + 1];
  }

  lemma {:induction false} HeadBehind(lane: seq<Ticket>, i: nat, id: nat)
    requires i + 1 < |lane| && Behind(lane, i + 1, id)
    ensures Behind(lane[1..], i, id)
  {
    var j :| i + 1 <= j < |lane| && lane[j].Proof? && lane[j].id == id;
    assert lane[1..][j - 1] == lane[j];
  }

  lemma {:induction false} HeadAwaited(s: State, t: State)
    requires AwaitedInv(s) && s.lane != [] && t.lane == s.lane[1..] && t.pending == s.pending
    ensures AwaitedInv(t)
  {
    forall i | 0 <= i < |t.lane| && t.lane[i].Proof? ensures t.pending.Some? && Behind(t.lane, i, t.pending.value) {
      assert t.lane[i] == s.lane[i + 1];
      HeadBehind(s.lane, i, s.pending.value);
    }
  }

  lemma {:induction false} HeadPending(s: State, t: State)
    requires PendingInv(s) && s.lane != [] && s.lane[0].Proof?
    requires t.lane == s.lane[1..] && t.pending == s.pending && t.settled == s.settled + {s.lane[0].id}
    ensures PendingInv(t)
  {
    if s.pending.Some? && s.pending.value !in t.settled {
      var i :| 0 <= i < |s.lane| && s.lane[i].Proof? && s.lane[i].id == s.pending.value;
      assert t.lane[i - 1] == s.lane[i];
    }
  }

  lemma {:induction false} EndLaneRest(s: State, valid: bool)
    requires s.lane != [] && s.lane[0].Proof?
    ensures var t := EndLane(s, valid);
      && t.lane == s.lane[1..] && t.settled == s.settled + {s.lane[0].id}
      && t.attempts == s.attempts && t.seen.commits.admitted == s.seen.commits.admitted && t.outcome == s.outcome
      && t.waiting == s.waiting && t.next == s.next && t.pending == s.pending
      && t.seen.proofs.during == s.seen.proofs.during && t.seen.commits.underway == s.seen.commits.underway
      && t.seen.proofs.ended.Keys <= s.seen.proofs.ended.Keys + {s.lane[0].id}
  {
  }

  lemma {:induction false} EndLaneTrusts(s: State, valid: bool)
    requires ProofInv(s) && TrustInv(s) && Enabled(s, LaneEnds(valid))
    ensures TrustInv(EndLane(s, valid))
  {
  }

  lemma {:induction false} EndLaneKeepsWindow(s: State, valid: bool)
    requires Inv(s) && Enabled(s, LaneEnds(valid))
    ensures WindowInv(EndLane(s, valid))
  {
    EndLaneTrusts(s, valid);
    EndLaneRest(s, valid);
    EndLaneOthers(s, EndLane(s, valid));
  }

  lemma {:induction false} EndLaneOthers(s: State, t: State)
    requires WindowInv(s) && s.lane != [] && s.lane[0].Proof? && TrustInv(t)
    requires t.lane == s.lane[1..] && t.settled == s.settled + {s.lane[0].id} && t.seen.proofs.ended.Keys <= t.settled
    requires t.attempts == s.attempts && t.seen.commits.admitted == s.seen.commits.admitted && t.outcome == s.outcome
    requires t.waiting == s.waiting && t.next == s.next && t.pending == s.pending
    requires t.seen.proofs.during == s.seen.proofs.during && t.seen.commits.underway == s.seen.commits.underway
    ensures WindowInv(t)
  {
    HeadTickets(s, t);
    HeadAwaited(s, t);
    HeadPending(s, t);
    forall i | 0 <= i < |t.lane| && t.lane[i].Proof? ensures !Intrudes(t.seen, t.lane[i].id) {
      assert t.lane[i] == s.lane[i + 1];
    }
  }

  lemma {:induction false} JoinTickets(s: State, t: State, id: nat, query: Option<nat>)
    requires TicketsInv(s) && t == s.(lane := s.lane + [Proof(id, query)], pending := Some(id))
    requires id < s.next && id !in s.settled && id !in s.waiting && !Queued(s, id)
    ensures TicketsInv(t)
  {
    var n := |s.lane|;
    assert t.lane[n] == Proof(id, query) && forall i :: 0 <= i < n ==> t.lane[i] == s.lane[i];
    assert forall i :: 0 <= i < n && s.lane[i].Proof? ==> s.lane[i].id != id;
  }

  lemma {:induction false} LastIsBehind(lane: seq<Ticket>, i: nat)
    requires i < |lane| && lane[|lane| - 1].Proof?
    ensures Behind(lane, i, lane[|lane| - 1].id)
  {
  }

  /** A proof that may join the lane does so last. */
  lemma {:induction false} JoinLaneKeepsWindow(s: State, id: nat, query: Option<nat>)
    requires WindowInv(s) && (s.closed || !Intrudes(s.seen, id))
    requires id < s.next && id !in s.settled && id !in s.waiting && !Queued(s, id)
    ensures WindowInv(JoinLane(s, id, query))
  {
    var t := JoinLane(s, id, query);
    if t != s { JoinedKeepsWindow(s, t, id, query); }
  }

  lemma {:induction false} JoinedKeepsWindow(s: State, t: State, id: nat, query: Option<nat>)
    requires WindowInv(s) && !Intrudes(s.seen, id)
    requires t == s.(lane := s.lane + [Proof(id, query)], pending := Some(id))
    requires id < s.next && id !in s.settled && id !in s.waiting && !Queued(s, id)
    ensures WindowInv(t)
  {
    JoinTickets(s, t, id, query);
    JoinDuring(s, t, id, query);
    forall i | 0 <= i < |t.lane| && t.lane[i].Proof? ensures Behind(t.lane, i, id) {
      LastIsBehind(t.lane, i);
    }
    assert t.lane[|s.lane|] == Proof(id, query);
  }

  lemma {:induction false} JoinDuring(s: State, t: State, id: nat, query: Option<nat>)
    requires DuringInv(s) && !Intrudes(s.seen, id)
    requires t == s.(lane := s.lane + [Proof(id, query)], pending := Some(id))
    ensures DuringInv(t)
  {
    forall i | 0 <= i < |t.lane| && t.lane[i].Proof? ensures !Intrudes(t.seen, t.lane[i].id) {
      assert t.lane[i] == if i < |s.lane| then s.lane[i] else Proof(id, query);
    }
  }

  lemma {:induction false} AskLeaves(s: State)
    ensures var t := Note(s.(next := s.next + 1), Asked(s.next));
      && t.next == s.next + 1 && t.lane == s.lane && t.pending == s.pending && t.settled == s.settled
      && t.waiting == s.waiting && t.attempts == s.attempts && t.outcome == s.outcome && t.phase == s.phase
      && t.seen.commits.admitted == s.seen.commits.admitted && t.seen.proofs.ended == s.seen.proofs.ended
      && t.seen.proofs.trusted == s.seen.proofs.trusted
      && t.seen.proofs.clean == s.seen.proofs.clean && t.seen.commits.underway == s.seen.commits.underway
      && (t.seen.proofs.during == s.seen.proofs.during ||
          t.seen.proofs.during == s.seen.proofs.during[s.next := s.seen.commits.admitted])
  {
    AskObserved(s.seen, s.next);
  }

  lemma {:induction false} AskObserved(h: Seen, id: nat)
    ensures var r := Observe(h, Asked(id));
      && r.proofs.clean == h.proofs.clean && r.proofs.trusted == h.proofs.trusted
      && r.commits.stage == h.commits.stage && r.commits.underway == h.commits.underway
      && r.ends.closed == h.ends.closed && r.commits.admitted == h.commits.admitted
      && r.proofs.ended == h.proofs.ended && r.ends.calm == h.ends.calm
      && r.proofs.proved == h.proofs.proved
      && r.proofs.during == if h.commits.underway
      && !h.commits.stage.Won? then h.proofs.during[id := h.commits.admitted] else h.proofs.during
  {
  }

  lemma {:induction false} AskTickets(s: State, t: State)
    requires TicketsInv(s) && t.next == s.next + 1 && t.lane == s.lane && t.settled == s.settled
    requires t.waiting == s.waiting && t.attempts == s.attempts && t.seen.proofs.ended == s.seen.proofs.ended
    ensures TicketsInv(t)
  {
  }

  lemma {:induction false} AskDuring(s: State, t: State)
    requires NumbersInv(s) && TicketsInv(s) && DuringInv(s)
    requires t.next == s.next + 1 && t.lane == s.lane && t.waiting == s.waiting && t.attempts == s.attempts
    requires t.seen.commits.admitted == s.seen.commits.admitted && t.seen.commits.underway == s.seen.commits.underway
    requires t.seen.proofs.during == s.seen.proofs.during ||
             t.seen.proofs.during == s.seen.proofs.during[s.next := s.seen.commits.admitted]
    ensures DuringInv(t)
  {
    forall i | 0 <= i < |t.lane| && t.lane[i].Proof? ensures !Intrudes(t.seen, t.lane[i].id) {
      assert !Intrudes(s.seen, s.lane[i].id) && t.lane[i].id != s.next;
    }
  }

  /** A new proof is asked for: it has a number of its own. */
  lemma {:induction false} AskKeepsWindow(s: State)
    requires WindowInv(s)
    ensures WindowInv(Note(s.(next := s.next + 1), Asked(s.next)))
  {
    var t := Note(s.(next := s.next + 1), Asked(s.next));
    AskLeaves(s);
    AskTickets(s, t);
    AskDuring(s, t);
    forall i | 0 <= i < |t.lane| && t.lane[i].Proof? ensures t.pending.Some? && Behind(t.lane, i, t.pending.value) {
      assert Behind(s.lane, i, s.pending.value);
    }
    assert PendingInv(t) by {
      if s.pending.Some? && s.pending.value !in s.settled { assert Queued(s, s.pending.value); }
    }
  }

  lemma {:induction false} FreshIsFree(s: State)
    requires WindowInv(s)
    ensures s.next !in s.settled && s.next !in s.waiting && !Queued(s, s.next) && s.next !in s.seen.proofs.during
  {
  }

  lemma {:induction false} WaitKeepsWindow(s: State, id: nat, w: Waiter)
    requires WindowInv(s) && id < s.next && id !in s.settled && !Queued(s, id) && w.attempt < s.attempts
    requires id in s.seen.proofs.during ==> s.seen.proofs.during[id] <= w.attempt + 1
    ensures WindowInv(s.(waiting := s.waiting[id := w]))
  {
    var t := s.(waiting := s.waiting[id := w]);
    forall i | 0 <= i < |t.lane| && t.lane[i].Proof?
      ensures t.lane[i].id !in t.waiting && !Intrudes(t.seen, t.lane[i].id)
    {
      assert !Intrudes(s.seen, s.lane[i].id);
    }
  }

  /** A proof asked for outside a commit, or after it succeeded, is not one asked for during it. */
  lemma {:induction false} AskedOutside(s: State)
    requires CommitInv(s) && s.next !in s.seen.proofs.during && (s.outcome.None? || s.phase.Committed?)
    ensures !Intrudes(Note(s.(next := s.next + 1), Asked(s.next)).seen, s.next)
  {
  }

  /** What a validate call does once it has its number. */
  lemma {:induction false} AskedKeepsWindow(t: State, id: nat, query: Option<nat>, waits: bool)
    requires WindowInv(t) && id < t.next && id !in t.settled && id !in t.waiting && !Queued(t, id)
    requires waits ==> t.outcome.Some? && (id in t.seen.proofs.during ==> t.seen.proofs.during[id] <= t.attempts)
    requires !waits ==> t.closed || !Intrudes(t.seen, id)
    ensures WindowInv(if waits then t.(waiting := t.waiting[id := Waiter(t.outcome.value, query)])
                      else JoinLane(t, id, query))
  {
    if waits { WaitKeepsWindow(t, id, Waiter(t.outcome.value, query)); } else { JoinLaneKeepsWindow(t, id, query); }
  }

  lemma {:induction false} AskedIsFree(s: State, t: State)
    requires WindowInv(s) && WindowInv(t) && t.next == s.next + 1 && t.lane == s.lane && t.settled == s.settled
    requires t.waiting == s.waiting
    ensures s.next !in t.settled && s.next !in t.waiting && !Queued(t, s.next)
    ensures s.next in t.seen.proofs.during ==> t.seen.proofs.during[s.next] <= t.attempts
  {
    FreshIsFree(s);
    assert Queued(t, s.next) ==> Queued(s, s.next);
  }

  lemma {:induction false} StartValidateKeepsWindow(s: State, query: Option<nat>)
    requires CommitInv(s) && WindowInv(s)
    ensures WindowInv(StartValidate(s, query))
  {
    var t := Note(s.(next := s.next + 1), Asked(s.next));
    var waits := !s.closed && s.outcome.Some? && !s.phase.Committed?;
    AskKeepsWindow(s);
    AskLeaves(s);
    AskedIsFree(s, t);
    if !waits {
      FreshIsFree(s);
      AskedFreely(s);
    }
    AskedKeepsWindow(t, s.next, query, waits);
    StartValidateParts(s, query, t, waits);
  }

  lemma {:induction false} StartValidateParts(s: State, query: Option<nat>, t: State, waits: bool)
    requires t == Note(s.(next := s.next + 1), Asked(s.next))
    requires waits == (!s.closed && s.outcome.Some? && !s.phase.Committed?)
    ensures StartValidate(s, query) ==
      (if waits then t.(waiting := t.waiting[s.next := Waiter(t.outcome.value, query)]) else JoinLane(t, s.next, query))
  {
  }

  lemma {:induction false} AskedFreely(s: State)
    requires CommitInv(s) && s.next !in s.seen.proofs.during
    requires s.closed || s.outcome.None? || s.phase.Committed?
    ensures var t := Note(s.(next := s.next + 1), Asked(s.next)); t.closed || !Intrudes(t.seen, s.next)
  {
    if !s.closed { AskedOutside(s); }
  }

  lemma {:induction false} ResumeKeepsWindow(s: State, id: nat)
    requires CommitInv(s) && WindowInv(s) && Enabled(s, ValidateResumes(id))
    ensures WindowInv(Step(s, ValidateResumes(id)))
  {
    var s1 := s.(waiting := s.waiting - {id});
    assert WindowInv(s1) by {
      forall i | 0 <= i < |s1.lane| && s1.lane[i].Proof? ensures !Intrudes(s1.seen, s1.lane[i].id) {
        assert !Intrudes(s.seen, s.lane[i].id);
      }
    }
    assert !Queued(s1, id) by { assert Queued(s1, id) ==> Queued(s, id); }
    JoinLaneKeepsWindow(s1, id, s.waiting[id].query);
  }

  lemma {:induction false} SettledIsGone(s: State, i: nat, id: nat)
    requires TicketsInv(s) && id in s.settled
    ensures !Behind(s.lane, i, id)
  {
  }

  lemma {:induction false} ReturnKeepsWindow(s: State, id: nat)
    requires WindowInv(s) && Enabled(s, ValidateReturns(id))
    ensures WindowInv(Step(s, ValidateReturns(id)))
  {
    if s.pending == Some(id) {
      forall i | 0 <= i < |s.lane| ensures !s.lane[i].Proof? { SettledIsGone(s, i, id); }
    }
  }

  lemma {:induction false} AdmitKeepsWindow(s: State)
    requires CommitInv(s) && WindowInv(s)
    ensures WindowInv(CallCommit(s))
  {
    var t := CallCommit(s);
    if t != s {
      forall i | 0 <= i < |t.lane| && t.lane[i].Proof?
        ensures !Intrudes(t.seen, t.lane[i].id) && t.pending.Some? && Behind(t.lane, i, t.pending.value)
      {
        assert Behind(s.lane, i, s.pending.value);
      }
    }
  }

  lemma {:induction false} SettleKeepsWindow(s: State)
    requires CommitInv(s) && WindowInv(s) && Enabled(s, CommitSettles)
    ensures WindowInv(SettleCommit(s))
  {
    SettleLeaves(s);
    OverKeepsWindow(s, SettleCommit(s));
  }

  /** No commit is under way any more; what the window invariant speaks of differs in nothing else. */
  lemma {:induction false} OverKeepsWindow(s: State, t: State)
    requires WindowInv(s) && TrustInv(t) && SameTickets(s, t)
    requires (t.outcome == s.outcome || t.outcome == None) && !t.seen.commits.underway
    ensures WindowInv(t)
  {
    SameLane(s, t);
    OverDuring(s, t);
    forall i | 0 <= i < |t.lane| && t.lane[i].Proof? ensures t.pending.Some? && Behind(t.lane, i, t.pending.value) {
      assert Behind(s.lane, i, s.pending.value);
    }
  }

  lemma {:induction false} OverDuring(s: State, t: State)
    requires DuringInv(s) && SameTickets(s, t) && !t.seen.commits.underway
    ensures DuringInv(t)
  {
    assert forall id :: !Intrudes(t.seen, id);
  }

  lemma {:induction false} SameLane(s: State, t: State)
    requires TicketsInv(s) && PendingInv(s) && SameTickets(s, t)
    ensures TicketsInv(t) && PendingInv(t)
  {
  }

  lemma {:induction false} SettleLeaves(s: State)
    requires CommitInv(s) && TrustInv(s) && Enabled(s, CommitSettles)
    ensures var t := SettleCommit(s);
      SameTickets(s, t) && (t.outcome == s.outcome || t.outcome == None) && !t.seen.commits.underway && TrustInv(t)
  {
  }

  lemma {:induction false} CloseTickets(s: State, t: State)
    requires TicketsInv(s) && t.lane == s.lane + [Close]
    requires t.attempts == s.attempts && t.waiting == s.waiting && t.next == s.next && t.settled == s.settled
    requires t.seen.proofs.ended == s.seen.proofs.ended
    ensures TicketsInv(t)
  {
    assert forall i :: 0 <= i < |s.lane| ==> t.lane[i] == s.lane[i];
  }

  lemma {:induction false} CloseBehind(lane: seq<Ticket>, i: nat, id: nat)
    requires Behind(lane, i, id)
    ensures Behind(lane + [Close], i, id)
  {
    var j :| i <= j < |lane| && lane[j].Proof? && lane[j].id == id;
    assert (lane + [Close])[j] == lane[j];
  }

  lemma {:induction false} CloseAwaited(s: State, t: State)
    requires AwaitedInv(s) && t.lane == s.lane + [Close] && t.pending == s.pending
    ensures AwaitedInv(t)
  {
    forall i | 0 <= i < |t.lane| && t.lane[i].Proof? ensures t.pending.Some? && Behind(t.lane, i, t.pending.value) {
      assert t.lane[i] == s.lane[i];
      CloseBehind(s.lane, i, s.pending.value);
    }
  }

  lemma {:induction false} ClosePending(s: State, t: State)
    requires PendingInv(s) && t.lane == s.lane + [Close] && t.pending == s.pending && t.settled == s.settled
    ensures PendingInv(t)
  {
    if s.pending.Some? && s.pending.value !in t.settled {
      var i :| 0 <= i < |s.lane| && s.lane[i].Proof? && s.lane[i].id == s.pending.value;
      assert t.lane[i] == s.lane[i];
    }
  }

  lemma {:induction false} CloseLeaves(s: State)
    requires TrustInv(s) && !s.closed
    ensures var t := CallAbort(s);
      && t.lane == s.lane + [Close] && t.pending == s.pending && t.outcome == s.outcome
      && t.attempts == s.attempts && t.waiting == s.waiting && t.next == s.next && t.settled == s.settled
      && t.seen.proofs.ended == s.seen.proofs.ended && t.seen.proofs.during == s.seen.proofs.during
      && t.seen.commits.admitted == s.seen.commits.admitted
      && t.seen.commits.underway == s.seen.commits.underway && TrustInv(t)
  {
  }

  lemma {:induction false} AbortKeepsWindow(s: State)
    requires WindowInv(s)
    ensures WindowInv(CallAbort(s))
  {
    if !s.closed {
      var t := CallAbort(s);
      CloseLeaves(s);
      CloseTickets(s, t);
      CloseAwaited(s, t);
      ClosePending(s, t);
      forall i | 0 <= i < |t.lane| && t.lane[i].Proof? ensures !Intrudes(t.seen, t.lane[i].id) {
        assert t.lane[i] == s.lane[i];
      }
    }
  }

  lemma {:induction false} StepKeepsWindow(s: State, e: Event)
    requires Inv(s) && Enabled(s, e)
    ensures WindowInv(Step(s, e))
  {
    match e
    case ValidateCall(source) => StartValidateKeepsWindow(s, source);
    case ValidateResumes(id) => ResumeKeepsWindow(s, id);
    case ValidateReturns(id) => ReturnKeepsWindow(s, id);
    case LaneStarts => StartLaneKeepsWindow(s);
    case LaneEnds(valid) => EndLaneKeepsWindow(s, valid);
    case CommitCall => AdmitKeepsWindow(s);
    case CommitSettles => SettleKeepsWindow(s);
    case AbortCall => AbortKeepsWindow(s);
    case _ => if Apart(e) { ApartKeepsWindow(s, e); } else { EffectKeepsWindow(s, e); }
  }

  lemma {:induction false} StepKeepsCore(s: State, e: Event)
    requires Inv(s) && Enabled(s, e)
    ensures Core(Step(s, e))
  {
    match e
    case LaneStarts =>
      assert !Intrudes(s.seen, s.lane[0].id);
      StartLaneKeeps(s);
    case LaneEnds(valid) => EndLaneKeeps(s, valid);
    case CommitCall => CallCommitKeeps(s);
    case CommitChecks => CheckCommitKeeps(s);
    case EffectReturns => ReturnEffectKeeps(s);
    case EffectThrows(d) => FailCommitKeeps(s, d);
    case CommitSettles => SettleCommitKeeps(s);
    case AbortCall => CallAbortKeeps(s);
    case ReconstructCall(q) => CallReconstructKeeps(s, q);
    case ReconstructEnds(q, result) => EndReconstructKeeps(s, q, result);
    case ReleaseCall(q) => CallReleaseKeeps(s, q);
    case ReleaseSettles(q) => SettleReleaseKeeps(s, q);
    case TakeInputsCall => CallTakeInputsKeeps(s);
    case TakeInputsEnds => EndTakeInputsKeeps(s);
    case LaneDrains => DrainLaneKeeps(s);
    case BranchDisposes => DisposeBranchKeeps(s);
    case DisposeSettles => SettleDisposeKeeps(s);
    case _ => ValidateKeeps(s, e);
  }

  lemma {:induction false} LaneKeepsShown(s: State, e: Event)
    requires ShownInv(s) && LaneInv(s) && Enabled(s, e) && (e.LaneStarts? || e.LaneEnds?)
    ensures ShownInv(Step(s, e))
  {
    if e.LaneStarts? { StartShown(s); } else { EndShown(s, e.valid); }
  }

  lemma {:induction false} StartShown(s: State)
    requires s.lane != [] && s.lane[0].Proof?
    ensures SameShown(s, StartLane(s))
  {
  }

  lemma {:induction false} EndShown(s: State, valid: bool)
    requires s.lane != [] && s.lane[0].Proof?
    ensures SameShown(s, EndLane(s, valid))
  {
  }

  predicate SameShown(s: State, t: State) {
    && t.seen.ends.calm == s.seen.ends.calm && t.closed == s.closed && t.attempt == s.attempt
    && t.finalizing == s.finalizing
    && (t.phase == s.phase || (Early(s.phase) && Early(t.phase)))
  }

  lemma {:induction false} CommitKeepsShown(s: State, e: Event)
    requires ShownInv(s) && CommitInv(s) && LaneInv(s) && Enabled(s, e)
    requires e.CommitCall? || e.CommitBegins? || e.CommitChecks? || e.EffectReturns? || e.EffectThrows? ||
             e.CommitSettles?
    ensures ShownInv(Step(s, e))
  {
    assert !s.attempt.Idle? && !s.attempt.Done? ==> s.finalizing.Open?;
    if e.CommitChecks? { CheckShown(s); }
    else if e.EffectThrows? { FailShown(s, e.disposition); }
    else if e.CommitSettles? { SettleShown(s); }
    else if e.CommitCall? { CallShown(s); }
  }

  lemma {:induction false} FailShown(s: State, d: Disposition)
    ensures var t := FailCommit(s, d);
      t.seen.ends.calm == s.seen.ends.calm && t.closed == s.closed && t.finalizing == s.finalizing &&
      t.phase == (if d.Fatal? then Poisoned else Sealed) && t.attempt == Threw(d)
  {
    FailObserved(s.seen, d);
  }

  lemma {:induction false} FailObserved(h: Seen, d: Disposition)
    ensures Observe(h, Failed(d)).ends == h.ends
  {
  }

  lemma {:induction false} CheckShown(s: State)
    ensures var t := CheckCommit(s);
      t.seen.ends.calm == s.seen.ends.calm && t.closed == s.closed && t.finalizing == s.finalizing &&
      (t.phase.Sealed? || t.phase.Committing?) && !t.attempt.Idle?
  {
    FailShown(s, Recoverable);
  }

  lemma {:induction false} SettleShown(s: State)
    ensures var t := SettleCommit(s);
      t.seen.ends.calm == s.seen.ends.calm && t.closed == s.closed && t.finalizing == s.finalizing && t.phase == s.phase
  {
  }

  lemma {:induction false} CallShown(s: State)
    ensures var t := CallCommit(s);
      && t.seen.ends.calm == s.seen.ends.calm && t.closed == s.closed && t.finalizing == s.finalizing
      && t.phase == s.phase
      && (t.attempt == s.attempt || !s.closed)
  {
  }

  lemma {:induction false} ValidateShown(s: State, e: Event)
    requires Enabled(s, e) && (e.ValidateCall? || e.ValidateResumes? || e.ValidateReturns?)
    ensures SameShown(s, Step(s, e))
  {
    if e.ValidateCall? { AskShown(s, e.source); }
  }

  lemma {:induction false} AskShown(s: State, source: Option<nat>)
    ensures SameShown(s, StartValidate(s, source))
  {
    var t := Note(s.(next := s.next + 1), Asked(s.next));
    AskObserved(s.seen, s.next);
    assert SameShown(s, t);
    StartValidateParts(s, source, t, !s.closed && s.outcome.Some? && !s.phase.Committed?);
  }

  lemma {:induction false} AbortKeepsShown(s: State)
    requires ShownInv(s) && CommitInv(s) && LaneInv(s)
    ensures ShownInv(CallAbort(s))
  {
  }

  lemma {:induction false} ReadingShown(s: State, e: Event)
    requires Enabled(s, e)
    requires e.ReconstructCall? || e.ReconstructEnds? || e.ReleaseCall? || e.ReleaseSettles?
    ensures SameShown(s, Step(s, e))
  {
    match e
    case ReconstructCall(q) => assert Step(s, e).seen == s.seen;
    case ReconstructEnds(q, result) => assert Step(s, e).phase == s.phase;
    case ReleaseCall(q) => assert Step(s, e).phase == s.phase;
    case ReleaseSettles(q) => assert Step(s, e).phase == s.phase;
  }

  lemma {:induction false} ClosingKeepsShown(s: State, e: Event)
    requires ShownInv(s) && CommitInv(s) && LaneInv(s) && Enabled(s, e)
    requires e.TakeInputsCall? || e.TakeInputsEnds? || e.LaneDrains? || e.BranchDisposes? || e.DisposeSettles?
    ensures ShownInv(Step(s, e))
  {
  }

  lemma {:induction false} StepKeepsShown(s: State, e: Event)
    requires ShownInv(s) && CommitInv(s) && LaneInv(s) && Enabled(s, e)
    ensures ShownInv(Step(s, e))
  {
    if e.LaneStarts? || e.LaneEnds? { LaneKeepsShown(s, e); }
    else if e.ValidateCall? || e.ValidateResumes? || e.ValidateReturns? { ValidateShown(s, e); }
    else if e.AbortCall? { AbortKeepsShown(s); }
    else if e.ReconstructCall? || e.ReconstructEnds? || e.ReleaseCall? || e.ReleaseSettles? { ReadingShown(s, e); }
    else if e.TakeInputsCall? || e.TakeInputsEnds? || e.LaneDrains? || e.BranchDisposes? || e.DisposeSettles? {
      ClosingKeepsShown(s, e);
    } else { CommitKeepsShown(s, e); }
  }

  lemma {:induction false} StepKeeps(s: State, e: Event)
    requires Inv(s) && Enabled(s, e)
    ensures Inv(Step(s, e))
  {
    StepKeepsShown(s, e);
    StepKeepsCore(s, e);
    StepKeepsWindow(s, e);
  }

  lemma {:induction false} RunKeeps(s: State, run: seq<Event>)
    requires Inv(s) && Possible(s, run)
    ensures Inv(Run(s, run))
    decreases |run|
  {
    if run != [] {
      StepKeeps(s, run[0]);
      RunKeeps(Step(s, run[0]), run[1..]);
    }
  }

  // ---------------------------------------------------------------- main results

  /** In every run, whatever overlaps, each thing the transaction does to its backend was allowed when it did it. */
  lemma {:induction false} EveryFactIsAllowed(run: seq<Event>)
    requires Possible(Fresh(), run)
    ensures Run(Fresh(), run).seen.ordered
  {
    RunKeeps(Fresh(), run);
  }

  lemma {:induction false} FinalPhaseStays(s: State, e: Event)
    requires CommitInv(s) && ProofInv(s) && Final(s.phase) && Enabled(s, e)
    ensures Step(s, e).phase == s.phase
  {
  }

  /** Committed and poisoned are never left, whatever is called afterwards. */
  lemma {:induction false} FinalPhasesStay(s: State, run: seq<Event>)
    requires Inv(s) && Final(s.phase) && Possible(s, run)
    ensures Run(s, run).phase == s.phase
    decreases |run|
  {
    if run != [] {
      StepKeeps(s, run[0]);
      FinalPhaseStays(s, run[0]);
      FinalPhasesStay(Step(s, run[0]), run[1..]);
    }
  }

  lemma {:induction false} FinalPhasesStayInRuns(before: seq<Event>, after: seq<Event>)
    requires Possible(Fresh(), before) && Final(Run(Fresh(), before).phase) && Possible(Run(Fresh(), before), after)
    ensures Run(Run(Fresh(), before), after).phase == Run(Fresh(), before).phase
  {
    RunKeeps(Fresh(), before);
    FinalPhasesStay(Run(Fresh(), before), after);
  }

  /** An abort ends in `aborted` exactly if the backend's commit neither succeeded nor was poisoned. */
  lemma {:induction false} FinishedPhase(run: seq<Event>)
    requires Possible(Fresh(), run) && Run(Fresh(), run).finalizing.Finished?
    ensures var s := Run(Fresh(), run);
      && (s.phase.Committed? <==> s.seen.commits.stage.Won?)
      && (s.phase.Poisoned? <==> s.seen.commits.stage.Spoiled?)
      && (s.phase.Aborted? <==> !s.seen.commits.stage.Won? && !s.seen.commits.stage.Spoiled?)
  {
    RunKeeps(Fresh(), run);
  }

  /** The step that hands the effect to the backend is taken only on a proof that is the latest to have ended, was
      valid, started after the last failure, and has no successor under way; never twice, and never on a disposed
      branch. */
  lemma {:induction false} CommitNeedsAProof(run: seq<Event>)
    requires Possible(Fresh(), run) && Enabled(Run(Fresh(), run), CommitChecks)
    ensures var s := Run(Fresh(), run);
      Step(s, CommitChecks).phase.Committing? ==>
        && s.seen.proofs.trusted && !s.seen.ends.disposed
        && (s.seen.commits.stage.Never? || s.seen.commits.stage.Lost?)
        && !(s.running && s.lane != [] && s.lane[0].Proof? && s.lane[0].query.None?)
  {
    RunKeeps(Fresh(), run);
  }

  /** In every run a commit call is admitted exactly if nothing is being committed, has been or was spoiled, the
      transaction is not closed, and some proof is pending or the last own one was valid with no failure since. */
  lemma {:induction false} AdmittedExactly(run: seq<Event>)
    requires Possible(Fresh(), run)
    ensures var s := Run(Fresh(), run);
      CallCommit(s) != s <==>
        Calm(s.seen.commits) && !s.seen.ends.closed
        && (s.pending.Some? || s.seen.proofs.proved)
  {
    RunKeeps(Fresh(), run);
    var s := Run(Fresh(), run);
    assert CallCommit(s).attempts == s.attempts ==> CallCommit(s) == s;
    assert s.outcome.None? <==> Calm(s.seen.commits);
  }

  /** What becomes of a validate call: it waits for a commit under way, or joins the lane unless the transaction is
      closed or was spoiled. */
  lemma {:induction false} ValidateExactly(run: seq<Event>, source: Option<nat>)
    requires Possible(Fresh(), run) && Enabled(Run(Fresh(), run), ValidateCall(source))
    ensures var s := Run(Fresh(), run); var t := Step(s, ValidateCall(source));
      && (s.next in t.waiting <==> !s.seen.ends.closed && !s.seen.commits.stage.Won? && !Calm(s.seen.commits))
      && (t.lane != s.lane <==> !s.seen.ends.closed && (s.seen.commits.stage.Won? || Calm(s.seen.commits)))
      && (t.lane != s.lane ==> t.lane == s.lane + [Proof(s.next, source)] && t.pending == Some(s.next))
  {
    RunKeeps(Fresh(), run);
    var s := Run(Fresh(), run);
    FreshIsFree(s);
    ValidateParts(s, source);
  }

  lemma {:induction false} ValidateParts(s: State, source: Option<nat>)
    requires CommitInv(s) && LaneInv(s) && ShownInv(s) && s.next !in s.waiting
    ensures var t := StartValidate(s, source);
      && (s.next in t.waiting <==> !s.seen.ends.closed && !s.seen.commits.stage.Won? && !Calm(s.seen.commits))
      && (t.lane != s.lane <==> !s.seen.ends.closed && (s.seen.commits.stage.Won? || Calm(s.seen.commits)))
      && (t.lane != s.lane ==> t.lane == s.lane + [Proof(s.next, source)] && t.pending == Some(s.next))
  {
    var t := Note(s.(next := s.next + 1), Asked(s.next));
    AskLeaves(s);
    StartValidateParts(s, source, t, !s.closed && s.outcome.Some? && !s.phase.Committed?);
    JoinParts(t, s.next, source);
    assert s.outcome.Some? <==> s.seen.commits.underway || s.seen.commits.stage.Won? || s.seen.commits.stage.Spoiled?;
  }

  lemma {:induction false} JoinParts(s: State, id: nat, query: Option<nat>)
    ensures var t := JoinLane(s, id, query);
      && t.waiting == s.waiting
      && (t.lane != s.lane <==> !(s.closed || s.phase.Aborted? || s.phase.Aborting? || s.phase.Poisoned?))
      && (t.lane != s.lane ==> t.lane == s.lane + [Proof(id, query)] && t.pending == Some(id))
  {
    assert |s.lane + [Proof(id, query)]| == |s.lane| + 1;
  }

  /** One that has waited joins when the commit it found is over, with the same exceptions. */
  lemma {:induction false} ResumeExactly(run: seq<Event>, id: nat)
    requires Possible(Fresh(), run) && Enabled(Run(Fresh(), run), ValidateResumes(id))
    ensures var s := Run(Fresh(), run); var t := Step(s, ValidateResumes(id));
      && id !in t.waiting
      && (t.lane == if s.seen.ends.closed || s.seen.commits.stage.Spoiled? then s.lane
                    else s.lane + [Proof(id, s.waiting[id].query)])
  {
    RunKeeps(Fresh(), run);
  }

  /** A reconstruction is begun exactly if the transaction is open, was not spoiled, and the backend is not
      committing. */
  lemma {:induction false} ReconstructExactly(run: seq<Event>, q: nat)
    requires Possible(Fresh(), run) && Enabled(Run(Fresh(), run), ReconstructCall(q))
    ensures var s := Run(Fresh(), run);
      q in Step(s, ReconstructCall(q)).queries <==>
        !s.seen.ends.closed && !s.seen.commits.stage.Acting? && !s.seen.commits.stage.Spoiled?
  {
    RunKeeps(Fresh(), run);
  }

  /** What callers are shown: inputs count as handed over exactly if they were given before the closing; and from the
      closing on the phase is aborting, until the branch is disposed of, exactly if nothing was being committed, had
      been or was spoiled when it was closed. */
  lemma {:induction false} ShownExactly(run: seq<Event>)
    requires Possible(Fresh(), run)
    ensures var s := Run(Fresh(), run);
      && (s.transfer.HandedOver? <==> s.seen.lent.moved && s.seen.lent.given)
      && (s.phase.Aborting? <==> s.seen.ends.calm && !s.finalizing.Finished?)
  {
    RunKeeps(Fresh(), run);
  }

  lemma {:induction false} OneStep(s: State, e: Event, rest: seq<Event>)
    requires Enabled(s, e) && Possible(Step(s, e), rest)
    ensures Possible(s, [e] + rest) && Run(s, [e] + rest) == Run(Step(s, e), rest)
  {
    assert ([e] + rest)[1..] == rest;
  }

  // ---------------------------------------------------------------- a run that commits

  function Watched(proofs: Proofs, commits: Commits): Seen {
    Seen(proofs, commits, Ends(false, false, false), Lent({}, {}, {}, false, false, false), true)
  }

  function Plain(i: nat): State {
    if i == 0 then Fresh()
    else if i == 1 then
      State(Sealed, None, Some(0), None, Idle, 0, false, [Proof(0, None)], false, {}, map[], 1, map[], Unasked, Open,
        Watched(Proofs(None, false, false, false, map[], map[]), Commits(Never, false, 0)))
    else if i == 2 then
      State(Validating, None, Some(0), None, Idle, 0, false, [Proof(0, None)], true, {}, map[], 1, map[], Unasked, Open,
        Watched(Proofs(Some(0), false, true, false, map[], map[]), Commits(Never, false, 0)))
    else if i == 3 then
      State(Validated, Some(true), Some(0), None, Idle, 0, false, [], false, {0}, map[], 1, map[], Unasked, Open,
        Watched(Proofs(None, true, false, true, map[], map[0 := true]), Commits(Never, false, 0)))
    else if i == 4 then
      State(Validated, Some(true), Some(0), Some(0), Reserved, 1, false, [], false, {0}, map[], 1, map[], Unasked, Open,
        Watched(Proofs(None, true, false, true, map[], map[0 := true]), Commits(Never, true, 1)))
    else if i == 5 then
      State(Validated, Some(true), Some(0), Some(0), Awaiting(Some(0)), 1, false, [], false, {0}, map[], 1, map[],
        Unasked, Open,
        Watched(Proofs(None, true, false, true, map[], map[0 := true]), Commits(Never, true, 1)))
    else if i == 6 then
      State(Committing, Some(true), Some(0), Some(0), Effecting, 1, false, [], false, {0}, map[], 1, map[], Unasked,
        Open,
        Watched(Proofs(None, false, false, true, map[], map[0 := true]), Commits(Acting, true, 1)))
    else if i == 7 then
      State(Committed, Some(true), Some(0), Some(0), Returned, 1, false, [], false, {0}, map[], 1, map[], Unasked, Open,
        Watched(Proofs(None, false, false, true, map[], map[0 := true]), Commits(Won, true, 1)))
    else
      State(Committed, Some(true), Some(0), Some(0), Done, 1, false, [], false, {0}, map[], 1, map[], Unasked, Open,
        Watched(Proofs(None, false, false, true, map[], map[0 := true]), Commits(Won, false, 1)))
  }

  function Call(i: nat): Event {
    if i == 0 then ValidateCall(None)
    else if i == 1 then LaneStarts
    else if i == 2 then LaneEnds(true)
    else if i == 3 then CommitCall
    else if i == 4 then CommitBegins
    else if i == 5 then CommitChecks
    else if i == 6 then EffectReturns
    else CommitSettles
  }

  predicate Linked(scene: nat -> State, call: nat -> Event, k: nat) {
    Enabled(scene(k), call(k)) && Step(scene(k), call(k)) == scene(k + 1)
  }

  lemma {:induction false} PlainLinked(k: nat)
    requires k < 8
    ensures Linked(Plain, Call, k)
  {
    if k < 4 { PlainLinkedEarly(k); } else { PlainLinkedLate(k); }
  }

  lemma {:induction false} PlainLinkedEarly(k: nat)
    requires k < 4
    ensures Linked(Plain, Call, k)
  {
  }

  lemma {:induction false} PlainLinkedLate(k: nat)
    requires 4 <= k < 8
    ensures Linked(Plain, Call, k)
  {
  }

  lemma {:induction false} LinkedRuns(scene: nat -> State, call: nat -> Event, i: nat, n: nat) returns (run: seq<Event>)
    requires i <= n && forall k: nat :: i <= k < n ==> Linked(scene, call, k)
    ensures Possible(scene(i), run) && Run(scene(i), run) == scene(n)
    decreases n - i
  {
    if i == n {
      run := [];
    } else {
      var rest := LinkedRuns(scene, call, i + 1, n);
      assert Linked(scene, call, i);
      OneStep(scene(i), call(i), rest);
      run := [call(i)] + rest;
    }
  }

  /** The guarantees are not empty: the plain order of calls does commit. */
  lemma {:induction false} PlainUseCommits()
    ensures exists run :: Possible(Fresh(), run) && Run(Fresh(), run).phase.Committed?
  {
    forall k: nat | k < 8 ensures Linked(Plain, Call, k) {
      PlainLinked(k);
    }
    var run := LinkedRuns(Plain, Call, 0, 8);
    PlainEnds(run);
  }

  lemma {:induction false} PlainEnds(run: seq<Event>)
    requires Possible(Plain(0), run) && Run(Plain(0), run) == Plain(8)
    ensures Possible(Fresh(), run) && Run(Fresh(), run).phase.Committed?
  {
  }
}

/** Whom a commit's proof window belongs to.  From the moment a commit has picked the proof it waits for, its check is
    decided by the last own validation that was in the lane then, whatever else is called, exactly if the transaction is
    closed or no own validation still waits for an earlier commit. */
module EffectTransactionWindow {
  import opened Basics
  import opened EffectTransaction
  import opened EffectTransactionProofs

  // ---------------------------------------------------------------- the last own validation of a lane

  predicate Own(t: Ticket) {
    t.Proof? && t.query.None?
  }

  function LastOwn(lane: seq<Ticket>): Option<nat> {
    if lane == [] then None
    else if LastOwn(lane[1..]).Some? then LastOwn(lane[1..])
    else if Own(lane[0]) then Some(lane[0].id) else None
  }

  predicate NoOwn(lane: seq<Ticket>) {
    forall i :: 0 <= i < |lane| ==> !Own(lane[i])
  }

  /** It is an own validation of the lane, and none stands behind it. */
  lemma {:induction false} LastOwnIsLast(lane: seq<Ticket>)
    ensures LastOwn(lane).None? <==> NoOwn(lane)
    ensures LastOwn(lane).Some? ==>
      exists i :: 0 <= i < |lane| && Own(lane[i]) && lane[i].id == LastOwn(lane).value && NoOwn(lane[i + 1..])
  {
    if lane != [] {
      var rest := lane[1..];
      LastOwnIsLast(rest);
      if LastOwn(rest).Some? {
        var i :| 0 <= i < |rest| && Own(rest[i]) && rest[i].id == LastOwn(rest).value && NoOwn(rest[i + 1..]);
        assert lane[i + 1] == rest[i] && lane[i + 2..] == rest[i + 1..];
      } else {
        assert forall i :: 0 <= i < |rest| ==> rest[i] == lane[i + 1];
        assert forall i :: 1 <= i < |lane| ==> lane[i] == rest[i - 1];
        assert lane[0 + 1..] == rest;
      }
    }
  }

  lemma {:induction false} LastOwnAppend(lane: seq<Ticket>, t: Ticket)
    ensures LastOwn(lane + [t]) == if Own(t) then Some(t.id) else LastOwn(lane)
  {
    if lane == [] {
      assert lane + [t] == [t] && [t][1..] == [];
    } else {
      assert (lane + [t])[1..] == lane[1..] + [t];
      LastOwnAppend(lane[1..], t);
    }
  }

  lemma {:induction false} LastOwnRest(s: State, l: nat)
    requires TicketsInv(s) && s.lane != [] && LastOwn(s.lane) == Some(l)
    ensures if Own(s.lane[0]) && s.lane[0].id == l then LastOwn(s.lane[1..]).None? else LastOwn(s.lane[1..]) == Some(l)
  {
    var rest := s.lane[1..];
    LastOwnIsLast(rest);
    assert forall i :: 0 <= i < |rest| ==> rest[i] == s.lane[i + 1];
  }

  // ---------------------------------------------------------------- what a commit's check finds

  /** In every run, the check starts the effect exactly if the last own validation to end was valid, started after the
      last failure and has no successor under way. */
  lemma {:induction false} ChecksExactly(run: seq<Event>)
    requires Possible(Fresh(), run) && Enabled(Run(Fresh(), run), CommitChecks)
    ensures Step(Run(Fresh(), run), CommitChecks).phase.Committing? <==> Run(Fresh(), run).seen.proofs.trusted
  {
    RunKeeps(Fresh(), run);
    CheckPasses(Run(Fresh(), run));
  }

  lemma {:induction false} CheckPasses(s: State)
    requires CommitInv(s) && ProofInv(s) && TrustInv(s) && s.attempt.Awaiting?
    ensures Early(s.phase) && (s.phase.Validated? <==> s.seen.proofs.trusted)
    ensures Enabled(s, CommitChecks) ==> (Step(s, CommitChecks).phase.Committing? <==> s.phase.Validated?)
  {
  }

  predicate RunsNow(s: State, l: nat) {
    s.running && s.lane != [] && s.lane[0] == Proof(l, None)
  }

  /** The proof runs across the failure of an earlier commit: its verdict will not count. */
  predicate Stale(s: State, l: nat) {
    RunsNow(s, l) && s.phase.Sealed?
  }

  /** An own validation waits for a commit earlier than the one the state holds the outcome of. */
  predicate Left(s: State, w: nat) {
    w in s.waiting && s.waiting[w].query.None? && s.outcome != Some(s.waiting[w].attempt)
  }

  predicate NoneLeftBehind(s: State) {
    forall w :: w in s.waiting ==> !Left(s, w)
  }

  /** The verdict the window started with: that of its last own validation, or else what was trusted already. */
  predicate Promised(start: State, now: State) {
    match LastOwn(start.lane)
    case None => start.seen.proofs.trusted
    case Some(l) => l in now.seen.proofs.ended && now.seen.proofs.ended[l] && !Stale(start, l)
  }

  /** If the commit may make its check now, it goes on to the effect exactly if its window's verdict is good. */
  predicate Kept(start: State, now: State) {
    Enabled(now, CommitChecks) ==> (Step(now, CommitChecks).phase.Committing? <==> Promised(start, now))
  }

  // ---------------------------------------------------------------- the window, step by step

  predicate Held(start: State, now: State) {
    && start.attempt.Awaiting? && now.attempt == start.attempt && now.outcome == start.outcome && now.outcome.Some?
    && Early(now.phase) && !(start.closed && !now.closed)
  }

  /** Every own validation is at the awaited proof's place or before it. */
  predicate OwnAhead(lane: seq<Ticket>, p: Option<nat>) {
    forall i :: 0 <= i < |lane| && Own(lane[i]) ==> p.Some? && Behind(lane, i, p.value)
  }

  /** The awaited proof is in the lane or has settled. */
  predicate AwaitedKnown(s: State) {
    && s.attempt.Awaiting?
    && (s.attempt.proof.Some? ==> s.attempt.proof.value in s.settled || Queued(s, s.attempt.proof.value))
  }

  predicate Decided(start: State, now: State) {
    match LastOwn(start.lane)
    case None => LastOwn(now.lane).None? && (now.phase.Validated? <==> start.seen.proofs.trusted)
    case Some(l) =>
      if LastOwn(now.lane).None? then
        l in now.seen.proofs.ended && (now.phase.Validated? <==> now.seen.proofs.ended[l] && !Stale(start, l))
      else
        && LastOwn(now.lane) == Some(l)
        && (Stale(start, l) ==> RunsNow(now, l))
        && (RunsNow(now, l) ==> (now.phase.Validating? <==> !Stale(start, l)))
  }

  predicate Window(start: State, now: State) {
    && Held(start, now) && OwnAhead(now.lane, now.attempt.proof) && AwaitedKnown(now) && Decided(start, now)
  }

  lemma {:induction false} WindowOpens(s: State)
    requires Inv(s) && s.attempt.Reserved?
    ensures Window(Step(s, CommitBegins), Step(s, CommitBegins))
  {
    var t := Step(s, CommitBegins);
    assert CommitInv(t) && ProofInv(t) && TrustInv(t);
    CheckPasses(t);
    LastOwnIsLast(t.lane);
    forall i | 0 <= i < |t.lane| && Own(t.lane[i])
      ensures t.attempt.proof.Some? && Behind(t.lane, i, t.attempt.proof.value)
    {
      assert Behind(s.lane, i, s.pending.value);
    }
    if s.pending.Some? && s.pending.value !in s.settled { assert Queued(s, s.pending.value); }
  }

  lemma {:induction false} NoOwnAtTheCheck(s: State)
    requires TicketsInv(s) && s.attempt.Awaiting? && OwnAhead(s.lane, s.attempt.proof) && Enabled(s, CommitChecks)
    ensures LastOwn(s.lane).None?
  {
    LastOwnIsLast(s.lane);
    forall i | 0 <= i < |s.lane| ensures !Own(s.lane[i]) {
      if Own(s.lane[i]) { SettledIsGone(s, i, s.attempt.proof.value); }
    }
  }

  /** Where the check may be made, the lane holds no own validation, so the verdict is in. */
  lemma {:induction false} WindowKept(start: State, now: State)
    requires CommitInv(now) && ProofInv(now) && TrustInv(now) && TicketsInv(now) && Window(start, now)
    ensures Kept(start, now)
  {
    if Enabled(now, CommitChecks) {
      NoOwnAtTheCheck(now);
      CheckPasses(now);
    }
  }

  /** No own validation that waited joins the lane by this step. */
  predicate Harmless(s: State, e: Event) {
    e.ValidateResumes? && e.id in s.waiting && s.waiting[e.id].query.None? ==> s.closed
  }

  /** The lane has grown by at most one entry, which is not an own validation. */
  predicate Grown(s: State, t: State) {
    t.lane == s.lane || (|t.lane| == |s.lane| + 1 && t.lane == s.lane + [t.lane[|s.lane|]] && !Own(t.lane[|s.lane|]))
  }

  predicate SameRun(s: State, t: State) {
    && t.attempt == s.attempt && t.outcome == s.outcome && t.phase == s.phase && (s.closed ==> t.closed)
    && t.running == s.running && t.settled == s.settled && t.seen.proofs.ended == s.seen.proofs.ended
  }

  lemma {:induction false} GrownBehind(s: State, t: State, p: Option<nat>)
    requires Grown(s, t) && OwnAhead(s.lane, p)
    ensures OwnAhead(t.lane, p) && LastOwn(t.lane) == LastOwn(s.lane)
  {
    if t.lane != s.lane {
      LastOwnAppend(s.lane, t.lane[|s.lane|]);
      forall i | 0 <= i < |t.lane| && Own(t.lane[i])
        ensures p.Some? && Behind(t.lane, i, p.value)
      {
        assert t.lane[i] == s.lane[i];
        var j :| i <= j < |s.lane| && s.lane[j].Proof? && s.lane[j].id == p.value;
        assert t.lane[j] == s.lane[j];
      }
    }
  }

  lemma {:induction false} GrownKnown(s: State, t: State)
    requires Grown(s, t) && AwaitedKnown(s) && t.attempt == s.attempt && t.settled == s.settled
    ensures AwaitedKnown(t)
  {
    if s.attempt.proof.Some? && s.attempt.proof.value !in s.settled {
      var i :| 0 <= i < |s.lane| && s.lane[i].Proof? && s.lane[i].id == s.attempt.proof.value;
      assert t.lane[i] == s.lane[i];
    }
  }

  lemma {:induction false} GrownWindow(start: State, s: State, t: State)
    requires Window(start, s) && Grown(s, t) && SameRun(s, t) && (s.running ==> s.lane != [])
    ensures Window(start, t)
  {
    GrownBehind(s, t, s.attempt.proof);
    GrownKnown(s, t);
    assert s.lane != [] ==> t.lane != [] && t.lane[0] == s.lane[0];
    assert forall l :: RunsNow(t, l) == RunsNow(s, l);
  }

  predicate Outside(e: Event) {
    e.ReconstructCall? || e.ReconstructEnds? || e.ReleaseCall? || e.ReleaseSettles? || e.TakeInputsCall? ||
    e.TakeInputsEnds? || e.ValidateReturns? || e.CommitCall?
  }

  lemma {:induction false} OutsideLeaves(s: State, e: Event)
    requires CommitInv(s) && s.attempt.Awaiting? && Enabled(s, e) && Outside(e)
    ensures SameRun(s, Step(s, e)) && Step(s, e).lane == s.lane
  {
    if e.TakeInputsCall? || e.TakeInputsEnds? { TakingRuns(s, e); }
    else if e.ValidateReturns? || e.CommitCall? { ReturningRuns(s, e); }
    else { ReadingRuns(s, e); }
  }

  lemma {:induction false} TakingRuns(s: State, e: Event)
    requires Enabled(s, e) && (e.TakeInputsCall? || e.TakeInputsEnds?)
    ensures SameRun(s, Step(s, e)) && Step(s, e).lane == s.lane
  {
  }

  lemma {:induction false} ReturningRuns(s: State, e: Event)
    requires CommitInv(s) && s.attempt.Awaiting? && Enabled(s, e) && (e.ValidateReturns? || e.CommitCall?)
    ensures SameRun(s, Step(s, e)) && Step(s, e).lane == s.lane
  {
  }

  lemma {:induction false} ReadingRuns(s: State, e: Event)
    requires Enabled(s, e) && (e.ReconstructCall? || e.ReconstructEnds? || e.ReleaseCall? || e.ReleaseSettles?)
    ensures SameRun(s, Step(s, e)) && Step(s, e).lane == s.lane
  {
    match e
    case ReconstructCall(q) => assert Step(s, e).seen == s.seen;
    case ReconstructEnds(q, result) => assert Step(s, e).phase == s.phase;
    case ReleaseCall(q) => assert Step(s, e).phase == s.phase;
    case ReleaseSettles(q) => assert Step(s, e).phase == s.phase;
  }

  lemma {:induction false} CallGrows(s: State, e: Event)
    requires CommitInv(s) && s.attempt.Awaiting? && Enabled(s, e) && Harmless(s, e)
    requires e.ValidateCall? || e.ValidateResumes? || e.AbortCall?
    ensures SameRun(s, Step(s, e)) && Grown(s, Step(s, e))
  {
  }

  lemma {:induction false} StartWindow(start: State, s: State)
    requires CommitInv(s) && ProofInv(s) && TicketsInv(s) && Window(start, s) && Enabled(s, LaneStarts)
    ensures Window(start, StartLane(s))
  {
    var t := StartLane(s);
    assert t.lane == s.lane && t.settled == s.settled && t.attempt == s.attempt;
    assert t.seen.proofs.ended == s.seen.proofs.ended;
    assert AwaitedKnown(t) by {
      if s.attempt.proof.Some? && s.attempt.proof.value !in s.settled { assert Queued(s, s.attempt.proof.value); }
    }
    LastOwnIsLast(s.lane);
    assert Own(s.lane[0]) ==> LastOwn(s.lane).Some?;
  }

  lemma {:induction false} EndBehind(s: State, t: State, p: Option<nat>)
    requires OwnAhead(s.lane, p) && s.lane != [] && t.lane == s.lane[1..]
    ensures OwnAhead(t.lane, p)
  {
    forall i | 0 <= i < |t.lane| && Own(t.lane[i])
      ensures p.Some? && Behind(t.lane, i, p.value)
    {
      assert t.lane[i] == s.lane[i + 1];
      HeadBehind(s.lane, i, p.value);
    }
  }

  lemma {:induction false} EndKnown(s: State, t: State)
    requires AwaitedKnown(s) && s.lane != [] && s.lane[0].Proof? && t.lane == s.lane[1..] && t.attempt == s.attempt
    requires t.settled == s.settled + {s.lane[0].id}
    ensures AwaitedKnown(t)
  {
    if s.attempt.proof.Some? && s.attempt.proof.value !in t.settled {
      var i :| 0 <= i < |s.lane| && s.lane[i].Proof? && s.lane[i].id == s.attempt.proof.value;
      assert t.lane[i - 1] == s.lane[i];
    }
  }

  lemma {:induction false} EndDecides(start: State, s: State, valid: bool)
    requires ProofInv(s) && TicketsInv(s) && Early(s.phase) && Decided(start, s) && Enabled(s, LaneEnds(valid))
    ensures Decided(start, EndLane(s, valid))
  {
    EndParts(s, valid);
    LastOwnIsLast(s.lane);
    if LastOwn(s.lane).Some? { LastOwnRest(s, LastOwn(s.lane).value); }
    EndedDecides(start, s, EndLane(s, valid), valid);
  }

  predicate Ended(s: State, t: State, valid: bool)
    requires s.lane != [] && s.lane[0].Proof?
  {
    && t.lane == s.lane[1..] && !t.running
    && t.seen.proofs.ended ==
       (if Own(s.lane[0]) then s.seen.proofs.ended[s.lane[0].id := valid] else s.seen.proofs.ended)
    && t.phase == (if !Own(s.lane[0]) || !s.phase.Validating? then s.phase else if valid then Validated else Sealed)
  }

  lemma {:induction false} EndParts(s: State, valid: bool)
    requires s.lane != [] && s.lane[0].Proof?
    ensures Ended(s, EndLane(s, valid), valid)
  {
  }

  lemma {:induction false} EndedDecides(start: State, s: State, t: State, valid: bool)
    requires ProofInv(s) && Early(s.phase) && Decided(start, s) && Enabled(s, LaneEnds(valid)) && Ended(s, t, valid)
    requires LastOwn(s.lane).None? <==> NoOwn(s.lane)
    requires LastOwn(s.lane).Some? ==>
      if Own(s.lane[0]) && s.lane[0].id == LastOwn(s.lane).value then LastOwn(s.lane[1..]).None?
      else LastOwn(s.lane[1..]) == LastOwn(s.lane)
    ensures Decided(start, t)
  {
    assert !Own(s.lane[0]) || LastOwn(s.lane).Some?;
  }

  lemma {:induction false} EndWindow(start: State, s: State, valid: bool)
    requires CommitInv(s) && ProofInv(s) && TicketsInv(s) && Window(start, s) && Enabled(s, LaneEnds(valid))
    ensures Window(start, EndLane(s, valid))
  {
    var t := EndLane(s, valid);
    EndBehind(s, t, s.attempt.proof);
    EndKnown(s, t);
    EndDecides(start, s, valid);
  }

  lemma {:induction false} StepWindow(start: State, s: State, e: Event)
    requires Inv(s) && Window(start, s) && Enabled(s, e) && Harmless(s, e) && !e.CommitChecks?
    ensures Window(start, Step(s, e))
  {
    if e.LaneStarts? {
      StartWindow(start, s);
    } else if e.LaneEnds? {
      EndWindow(start, s, e.valid);
    } else if Outside(e) {
      OutsideLeaves(s, e);
      GrownWindow(start, s, Step(s, e));
    } else if e.ValidateCall? || e.ValidateResumes? || e.AbortCall? {
      CallGrows(s, e);
      GrownWindow(start, s, Step(s, e));
    }
  }

  // ---------------------------------------------------------------- who may still join

  predicate Guarded(s: State) {
    s.closed || NoneLeftBehind(s)
  }

  lemma {:induction false} StepGuarded(s: State, e: Event)
    requires CommitInv(s) && s.attempt.Awaiting? && Enabled(s, e) && Guarded(s) && !e.CommitChecks?
    ensures Harmless(s, e) && Guarded(Step(s, e))
  {
    match e
    case LaneStarts =>
    case LaneEnds(valid) =>
    case ValidateCall(source) => AskLeaves(s);
    case _ =>
  }

  predicate Unchecked(run: seq<Event>) {
    forall i :: 0 <= i < |run| ==> !run[i].CommitChecks?
  }

  lemma {:induction false} WindowStays(start: State, s: State, run: seq<Event>)
    requires Inv(s) && Window(start, s) && Guarded(s) && Possible(s, run) && Unchecked(run)
    ensures Window(start, Run(s, run)) && Inv(Run(s, run))
    decreases |run|
  {
    if run != [] {
      StepGuarded(s, run[0]);
      StepWindow(start, s, run[0]);
      StepKeeps(s, run[0]);
      WindowStays(start, Step(s, run[0]), run[1..]);
    }
  }

  // ---------------------------------------------------------------- one that was left behind gets in

  lemma {:induction false} Runs(s: State, run: seq<Event>, more: seq<Event>)
    requires Possible(s, run) && Possible(Run(s, run), more)
    ensures Possible(s, run + more) && Run(s, run + more) == Run(Run(s, run), more)
    decreases |run|
  {
    if run == [] {
      assert run + more == more;
    } else {
      Runs(Step(s, run[0]), run[1..], more);
      assert run[1..] + more == (run + more)[1..] && (run + more)[0] == run[0];
    }
  }

  predicate LaneOnly(run: seq<Event>) {
    forall i :: 0 <= i < |run| ==> run[i].LaneStarts? || run[i].LaneEnds?
  }

  lemma {:induction false} OpenLane(s: State)
    requires LaneInv(s) && !s.closed
    ensures forall i :: 0 <= i < |s.lane| ==> s.lane[i].Proof?
  {
  }

  lemma {:induction false} LaneStepLeaves(s: State, e: Event)
    requires Enabled(s, e) && (e.LaneStarts? || e.LaneEnds?)
    ensures Step(s, e).waiting == s.waiting && Step(s, e).closed == s.closed
  {
  }

  /** What is in the lane of an open transaction can be run until nothing is left. */
  lemma {:induction false} Drain(start: State, s: State) returns (run: seq<Event>)
    requires Inv(s) && Window(start, s) && !s.closed
    ensures LaneOnly(run) && Possible(s, run)
    ensures Inv(Run(s, run)) && Window(start, Run(s, run)) && Run(s, run).lane == [] && !Run(s, run).closed
    ensures Run(s, run).waiting == s.waiting
    decreases |s.lane|, !s.running
  {
    if s.lane == [] {
      run := [];
    } else {
      OpenLane(s);
      assert s.lane[0].Proof?;
      var e := if s.running then LaneEnds(true) else LaneStarts;
      assert Enabled(s, e);
      StepWindow(start, s, e);
      StepKeeps(s, e);
      LaneStepLeaves(s, e);
      var rest := Drain(start, Step(s, e));
      OneStep(s, e, rest);
      run := [e] + rest;
    }
  }

  /** Once the lane is empty, the one left behind joins and starts, and the check fails; or it ends too and the check
      passes. */
  lemma {:induction false} Intrude(start: State, s: State, w: nat) returns (run: seq<Event>)
    requires Inv(s) && Window(start, s) && s.lane == [] && !s.closed && Left(s, w)
    ensures Unchecked(run) && Possible(s, run) && !Kept(start, Run(s, run))
  {
    IntruderJoins(s, w);
    LastOwnIsLast(s.lane);
    if Promised(start, s) { run := IntrudeEarly(start, s, w); } else { run := IntrudeLate(start, s, w); }
  }

  lemma {:induction false} IntrudeEarly(start: State, s: State, w: nat) returns (run: seq<Event>)
    requires TicketsInv(s) && AwaitedKnown(s) && !s.running && Early(s.phase)
    requires s.lane == [] && !s.closed && Left(s, w) && Promised(start, s)
    ensures Unchecked(run) && Possible(s, run) && !Kept(start, Run(s, run))
  {
    IntruderJoins(s, w);
    Two(s, ValidateResumes(w), LaneStarts);
    run := [ValidateResumes(w), LaneStarts];
    StartedFails(StartLane(Step(s, ValidateResumes(w))));
  }

  lemma {:induction false} StartedFails(s: State)
    requires s.phase.Validating?
    ensures !CheckCommit(s).phase.Committing?
  {
  }

  lemma {:induction false} IntrudeLate(start: State, s: State, w: nat) returns (run: seq<Event>)
    requires TicketsInv(s) && AwaitedKnown(s) && !s.running && Early(s.phase) && Decided(start, s)
    requires s.lane == [] && !s.closed && Left(s, w) && !Promised(start, s)
    ensures Unchecked(run) && Possible(s, run) && !Kept(start, Run(s, run))
  {
    IntruderJoins(s, w);
    var s2 := StartLane(Step(s, ValidateResumes(w)));
    Two(s, ValidateResumes(w), LaneStarts);
    One(s2, LaneEnds(true));
    Runs(s, [ValidateResumes(w), LaneStarts], [LaneEnds(true)]);
    run := [ValidateResumes(w), LaneStarts] + [LaneEnds(true)];
    OthersVerdict(start, s, EndLane(s2, true), w);
  }

  lemma {:induction false} IntruderJoins(s: State, w: nat)
    requires TicketsInv(s) && AwaitedKnown(s) && !s.running && Early(s.phase)
    requires s.lane == [] && !s.closed && Left(s, w)
    ensures var s1 := Step(s, ValidateResumes(w));
      && s1.lane == [Proof(w, None)] && w !in s.seen.proofs.ended
      && Enabled(s1, LaneStarts) && Enabled(StartLane(s1), CommitChecks) && StartLane(s1).phase.Validating?
      && StartLane(s1).seen.proofs.ended == s.seen.proofs.ended
      && Enabled(EndLane(StartLane(s1), true), CommitChecks)
      && Step(EndLane(StartLane(s1), true), CommitChecks).phase.Committing?
      && EndLane(StartLane(s1), true).seen.proofs.ended == s.seen.proofs.ended[w := true]
  {
  }

  lemma {:induction false} OthersVerdict(start: State, s: State, t: State, w: nat)
    requires Decided(start, s) && s.lane == [] && w !in s.seen.proofs.ended
    requires t.seen.proofs.ended == s.seen.proofs.ended[w := true]
    ensures Promised(start, t) == Promised(start, s)
  {
    LastOwnIsLast(s.lane);
  }

  lemma {:induction false} One(s: State, e: Event)
    requires Enabled(s, e)
    ensures Possible(s, [e]) && Run(s, [e]) == Step(s, e)
  {
    assert [e][1..] == [];
  }

  lemma {:induction false} Two(s: State, e: Event, f: Event)
    requires Enabled(s, e) && Enabled(Step(s, e), f)
    ensures Possible(s, [e, f]) && Run(s, [e, f]) == Step(Step(s, e), f)
  {
    One(Step(s, e), f);
    OneStep(s, e, [f]);
    assert [e] + [f] == [e, f];
  }

  // ---------------------------------------------------------------- main results

  /** Every way the run can go on before the commit's check keeps the verdict of its window. */
  ghost predicate OwnsItsWindow(start: State) {
    forall run :: Possible(start, run) && Unchecked(run) ==> Kept(start, Run(start, run))
  }

  /** In every run, a commit that has picked its proof owns its proof window exactly if the transaction is closed or no
      own validation is left waiting for an earlier commit. */
  lemma {:induction false} CommitOwnsItsWindowExactly(before: seq<Event>)
    requires Possible(Fresh(), before) && Run(Fresh(), before).attempt.Reserved?
    ensures var start := Step(Run(Fresh(), before), CommitBegins);
      OwnsItsWindow(start) <==> start.closed || NoneLeftBehind(start)
  {
    var s := Run(Fresh(), before);
    RunKeeps(Fresh(), before);
    StepKeeps(s, CommitBegins);
    WindowOpens(s);
    var start := Step(s, CommitBegins);
    if Guarded(start) { GuardedOwns(start); } else { UnguardedLoses(start); }
  }

  lemma {:induction false} GuardedOwns(start: State)
    requires Inv(start) && Window(start, start) && Guarded(start)
    ensures OwnsItsWindow(start)
  {
    forall run | Possible(start, run) && Unchecked(run) ensures Kept(start, Run(start, run)) {
      WindowStays(start, start, run);
      WindowKept(start, Run(start, run));
    }
  }

  lemma {:induction false} UnguardedLoses(start: State)
    requires Inv(start) && Window(start, start) && !Guarded(start)
    ensures !OwnsItsWindow(start)
  {
    var w :| w in start.waiting && Left(start, w);
    var drained := Drain(start, start);
    assert Left(Run(start, drained), w);
    var more := Intrude(start, Run(start, drained), w);
    Runs(start, drained, more);
    assert Possible(start, drained + more) && Unchecked(drained + more);
  }

  // ---------------------------------------------------------------- such a state is reached

  /** A commit waits for the only validation there is. */
  predicate FirstWaits(s: State) {
    && s.lane == [Proof(0, None)] && s.running && s.outcome == Some(0) && s.attempt == Awaiting(Some(0))
    && s.attempts == 1 && !s.closed && s.phase.Validating? && s.waiting == map[] && s.next == 1 && s.settled == {}
  }

  /** It has failed, and a call that found it under way has not resumed. */
  predicate FirstFailed(s: State) {
    && s.lane == [] && !s.running && s.outcome == Some(0) && s.attempt == Threw(Recoverable) && s.attempts == 1
    && !s.closed && s.phase.Sealed? && s.waiting == map[1 := Waiter(0, None)] && s.next == 2
  }

  lemma {:induction false} ReachFirstWaits() returns (run: seq<Event>)
    ensures Possible(Fresh(), run) && FirstWaits(Run(Fresh(), run))
  {
    var s2 := StartLane(StartValidate(Fresh(), None));
    var s3 := CallCommit(s2);
    Two(Fresh(), ValidateCall(None), LaneStarts);
    Two(s2, CommitCall, CommitBegins);
    Runs(Fresh(), [ValidateCall(None), LaneStarts], [CommitCall, CommitBegins]);
    run := [ValidateCall(None), LaneStarts] + [CommitCall, CommitBegins];
  }

  lemma {:induction false} FirstFails(s: State)
    requires FirstWaits(s)
    ensures Possible(s, [ValidateCall(None), LaneEnds(false)])
    ensures var t := Run(s, [ValidateCall(None), LaneEnds(false)]);
      Enabled(t, CommitChecks) && FirstFailed(Step(t, CommitChecks))
  {
    Two(s, ValidateCall(None), LaneEnds(false));
  }

  lemma {:induction false} SecondStarts(s: State)
    requires FirstFailed(s)
    ensures Possible(s, [CommitSettles, ValidateCall(None)])
    ensures var t := Run(s, [CommitSettles, ValidateCall(None)]);
      && Enabled(t, CommitCall) && Step(t, CommitCall).attempt.Reserved? && !Step(t, CommitCall).closed
      && Step(t, CommitCall).outcome == Some(1) && Step(t, CommitCall).waiting == map[1 := Waiter(0, None)]
  {
    Two(s, CommitSettles, ValidateCall(None));
  }

  /** A run reaches a commit that does not own its window: a validation that waited for a commit which failed, when a
      caller validates and commits again before it resumes. */
  lemma {:induction false} OneIsLeftBehind()
    ensures exists before ::
      && Possible(Fresh(), before) && Run(Fresh(), before).attempt.Reserved?
      && !OwnsItsWindow(Step(Run(Fresh(), before), CommitBegins))
  {
    var run := ReachFirstFailed();
    var s := Run(Fresh(), run);
    var again := [CommitSettles, ValidateCall(None)];
    SecondStarts(s);
    Runs(Fresh(), run, again);
    One(Run(s, again), CommitCall);
    Runs(Fresh(), run + again, [CommitCall]);
    LeftBehindNow(run + again + [CommitCall]);
  }

  lemma {:induction false} ReachFirstFailed() returns (run: seq<Event>)
    ensures Possible(Fresh(), run) && FirstFailed(Run(Fresh(), run))
  {
    run := ReachFirstWaits();
    var s := Run(Fresh(), run);
    var fails := [ValidateCall(None), LaneEnds(false)];
    FirstFails(s);
    Runs(Fresh(), run, fails);
    One(Run(s, fails), CommitChecks);
    Runs(Fresh(), run + fails, [CommitChecks]);
    run := run + fails + [CommitChecks];
  }

  lemma {:induction false} LeftBehindNow(before: seq<Event>)
    requires Possible(Fresh(), before)
    requires var s := Run(Fresh(), before);
      s.attempt.Reserved? && !s.closed && s.outcome == Some(1) && s.waiting == map[1 := Waiter(0, None)]
    ensures !OwnsItsWindow(Step(Run(Fresh(), before), CommitBegins))
  {
    CommitOwnsItsWindowExactly(before);
    assert Left(Step(Run(Fresh(), before), CommitBegins), 1);
  }

  // ---------------------------------------------------------------- a proof asked for during a commit

  /** In every run, a proof that was asked for while a commit was under way starts only when that commit is over. */
  lemma {:induction false} ProofsWaitForTheirCommit(before: seq<Event>, query: Option<nat>, after: seq<Event>)
    requires Possible(Fresh(), before) && Enabled(Run(Fresh(), before), ValidateCall(query))
    requires var s := Run(Fresh(), before); s.seen.commits.underway && !s.phase.Committed?
    requires Possible(Step(Run(Fresh(), before), ValidateCall(query)), after)
    ensures var s := Run(Fresh(), before);
      var t := Run(Step(s, ValidateCall(query)), after);
      Enabled(t, LaneStarts) && t.lane[0].id == s.next ==>
        !(t.seen.commits.underway && t.seen.commits.admitted == s.seen.commits.admitted)
  {
    var s := Run(Fresh(), before);
    RunKeeps(Fresh(), before);
    var s1 := Step(s, ValidateCall(query));
    StepKeeps(s, ValidateCall(query));
    AskedDuring(s, query);
    RunKeeps(s1, after);
    DuringStays(s1, after, s.next);
    QueuedIsNoIntruder(Run(s1, after));
  }

  lemma {:induction false} AskedDuring(s: State, query: Option<nat>)
    requires NumbersInv(s) && CommitInv(s) && s.seen.commits.underway && !s.phase.Committed?
    ensures var s1 := StartValidate(s, query);
      s.next < s1.next && s.next in s1.seen.proofs.during && s1.seen.proofs.during[s.next] == s.seen.commits.admitted
  {
  }

  lemma {:induction false} QueuedIsNoIntruder(t: State)
    requires DuringInv(t)
    ensures t.lane != [] && t.lane[0].Proof? ==> !Intrudes(t.seen, t.lane[0].id)
  {
  }

  predicate SameDuring(s: State, t: State) {
    t.seen.proofs.during == s.seen.proofs.during && t.next == s.next
  }

  lemma {:induction false} ApartDuring(s: State, e: Event)
    requires Enabled(s, e) && Apart(e)
    ensures SameDuring(s, Step(s, e))
  {
    if e.LaneDrains? || e.BranchDisposes? || e.DisposeSettles? { ClosingLeaves(s, e); }
    else if e.TakeInputsCall? || e.TakeInputsEnds? { TakingLeaves(s, e); }
    else { ReadingLeaves(s, e); }
  }

  lemma {:induction false} OtherDuring(s: State, e: Event)
    requires Enabled(s, e) && !Apart(e) && !e.ValidateCall?
    ensures SameDuring(s, Step(s, e))
  {
    if e.LaneStarts? || e.LaneEnds? { LaneDuring(s, e); }
    else if e.CommitChecks? || e.EffectReturns? || e.EffectThrows? || e.CommitSettles? { EffectDuring(s, e); }
    else { CallDuring(s, e); }
  }

  lemma {:induction false} AskDuringStep(s: State, source: Option<nat>, id: nat)
    requires id < s.next && id in s.seen.proofs.during
    ensures var t := StartValidate(s, source);
      id < t.next && id in t.seen.proofs.during && t.seen.proofs.during[id] == s.seen.proofs.during[id]
  {
    AskLeaves(s);
    StartValidateParts(s, source, Note(s.(next := s.next + 1), Asked(s.next)),
      !s.closed && s.outcome.Some? && !s.phase.Committed?);
  }

  lemma {:induction false} DuringStep(s: State, e: Event, id: nat)
    requires Enabled(s, e) && id < s.next && id in s.seen.proofs.during
    ensures id < Step(s, e).next
    ensures var during := Step(s, e).seen.proofs.during; id in during && during[id] == s.seen.proofs.during[id]
  {
    if e.ValidateCall? { AskDuringStep(s, e.source, id); }
    else if Apart(e) { ApartDuring(s, e); }
    else { OtherDuring(s, e); }
  }

  lemma {:induction false} LaneDuring(s: State, e: Event)
    requires Enabled(s, e) && (e.LaneStarts? || e.LaneEnds?)
    ensures Step(s, e).seen.proofs.during == s.seen.proofs.during && Step(s, e).next == s.next
  {
    if e.LaneStarts? { StartDuring(s); } else { EndLaneRest(s, e.valid); }
  }

  lemma {:induction false} StartDuring(s: State)
    requires s.lane != [] && s.lane[0].Proof?
    ensures StartLane(s).seen.proofs.during == s.seen.proofs.during && StartLane(s).next == s.next
  {
    if s.lane[0].query.Some? {
      NoteDuring(s.(running := true), QueryStarted(s.lane[0].id, s.lane[0].query.value,
                                                   Untouched(s, s.lane[0].query.value)));
    } else {
      NoteDuring(s.(running := true, phase := if s.phase.Sealed? || s.phase.Validated? then Validating else s.phase),
        OwnStarted(s.lane[0].id));
    }
  }

  lemma {:induction false} EffectDuring(s: State, e: Event)
    requires Enabled(s, e) && (e.CommitChecks? || e.EffectReturns? || e.EffectThrows? || e.CommitSettles?)
    ensures Step(s, e).seen.proofs.during == s.seen.proofs.during && Step(s, e).next == s.next
  {
    if e.CommitChecks? { CheckDuring(s); }
    else if e.CommitSettles? { SettleDuring(s); }
    else if e.EffectThrows? { FailDuring(s, e.disposition); }
    else { NoteDuring(s.(phase := Committed, attempt := Returned), EffectEnded); }
  }

  lemma {:induction false} NoteDuring(s: State, f: Fact)
    requires !f.Asked?
    ensures Note(s, f).seen.proofs.during == s.seen.proofs.during && Note(s, f).next == s.next
  {
    assert Remember(s.seen, f).proofs.during == s.seen.proofs.during;
  }

  lemma {:induction false} FailDuring(s: State, d: Disposition)
    ensures FailCommit(s, d).seen.proofs.during == s.seen.proofs.during && FailCommit(s, d).next == s.next
  {
    NoteDuring(s.(phase := if d.Fatal? then Poisoned else Sealed, validation := None, attempt := Threw(d)), Failed(d));
  }

  lemma {:induction false} CheckDuring(s: State)
    ensures CheckCommit(s).seen.proofs.during == s.seen.proofs.during && CheckCommit(s).next == s.next
  {
    FailDuring(s, Recoverable);
    NoteDuring(s.(phase := Committing, attempt := Effecting), EffectStarted);
  }

  lemma {:induction false} SettleDuring(s: State)
    ensures SettleCommit(s).seen.proofs.during == s.seen.proofs.during && SettleCommit(s).next == s.next
  {
  }

  lemma {:induction false} CallDuring(s: State, e: Event)
    requires Enabled(s, e)
    requires e.ValidateResumes? || e.ValidateReturns? || e.CommitCall? || e.CommitBegins? || e.AbortCall?
    ensures Step(s, e).seen.proofs.during == s.seen.proofs.during && Step(s, e).next == s.next
  {
  }

  lemma {:induction false} DuringStays(s: State, run: seq<Event>, id: nat)
    requires Possible(s, run) && id < s.next && id in s.seen.proofs.during
    ensures id in Run(s, run).seen.proofs.during && Run(s, run).seen.proofs.during[id] == s.seen.proofs.during[id]
    decreases |run|
  {
    if run != [] {
      DuringStep(s, run[0], id);
      DuringStays(Step(s, run[0]), run[1..], id);
    }
  }
}

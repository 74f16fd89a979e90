/** When an answer about names alone is right.  A record's binding is the newest clock value published by a hook about
    its names, so such an answer looks at what hooks drew and published, not at writes that are still to come. */
module VersionClockNames {
  import opened Basics
  import opened VersionClock
  import opened VersionClockSteps
  import opened VersionClockSafety

  /** History of a run: the clock values name hooks have published, with their records; and for each call in progress
      the value of its last name hook on each record. */
  datatype Hist = Hist(published: set<(nat, nat)>, names: map<(nat, nat), nat>)

  const NOTHING := Hist({}, map[])

  /** The step that finishes a hook about names. */
  predicate PublishesName(tk: Task, o: Obj, ck: Clock, a: Action)
    requires |tk.slots| == SLOTS
  {
    a.Continue? && tk.pc.Swap? && tk.pc.goal.ToBinding? && Step(tk, o, ck, a).0.pc.Kernel?
  }

  function Note(h: Hist, s: State, e: Event): Hist
    requires CanHappen(s, e)
  {
    match e
    case Act(t, a) =>
      var tk := s.tasks[t];
      if a.LeaveCall? then h.(names := map p | p in h.names && p.0 != t :: h.names[p])
      else if PublishesName(tk, s.objs[Focus(tk, a)], s.clock, a) then
        Hist(h.published + {(tk.pc.key, tk.pc.next)}, h.names[(t, tk.pc.key) := tk.pc.next])
      else h
    case _ => h
  }

  function HistOf(s: State, trace: seq<Event>, h: Hist): Hist
    requires Possible(s, trace)
    decreases |trace|
  {
    if trace == [] then h else HistOf(Happen(s, trace[0]), trace[1..], Note(h, s, trace[0]))
  }

  /** The values drawn by the hooks whose changes of the names of `k` take effect in the run. */
  function Changes(s: State, trace: seq<Event>, h: Hist, k: nat): set<nat>
    requires Possible(s, trace)
    decreases |trace|
  {
    if trace == [] then {}
    else ChangeAt(h, trace[0], k) + Changes(Happen(s, trace[0]), trace[1..], Note(h, s, trace[0]), k)
  }

  function ChangeAt(h: Hist, e: Event, k: nat): set<nat> {
    if e.Act? && e.action == Write(k) && (e.task, k) in h.names then {h.names[(e.task, k)]} else {}
  }

  predicate Above(h: Hist, k: nat, since: nat) {
    exists p :: p in h.published && p.0 == k && p.1 > since
  }

  predicate NamesDirty(s: State, k: nat, since: nat)
    requires k < |s.objs|
  {
    Dirty(s.objs[k], Probe(k, false, true), since)
  }

  // ---------------------------------------------------------------- what the binding is

  predicate BindingOk(o: Obj, k: nat, published: set<(nat, nat)>) {
    && (forall p :: p in published && p.0 == k ==> p.1 <= o.binding)
    && (o.binding == 0 || (k, o.binding) in published)
  }

  predicate BindingsOk(s: State, h: Hist) {
    forall k :: 0 <= k < |s.objs| ==> BindingOk(s.objs[k], k, h.published)
  }

  predicate NameOk(s: State, h: Hist, p: (nat, nat)) {
    p in h.names && p.0 < |s.tasks| && p.1 in s.tasks[p.0].armed && (p.1, h.names[p]) in h.published
  }

  predicate HistOk(s: State, h: Hist) {
    && BindingsOk(s, h)
    && (forall p :: p in h.names ==> NameOk(s, h, p))
    && forall p :: p in h.published ==> p.1 <= s.clock.version
  }

  /** Only a name hook moves a binding, and it moves it to its own value if that is newer. */
  lemma {:induction false} StepBinding(tk: Task, o: Obj, ck: Clock, a: Action)
    requires GoodStep(tk, o, ck, a)
    ensures var (_, o', _) := Step(tk, o, ck, a);
      o'.binding == if PublishesName(tk, o, ck, a) && tk.pc.next > o.binding then tk.pc.next else o.binding
  {
    if a.Continue? && tk.pc.Swap? {
      SwapBinding(tk, o, ck, a);
    } else if a.Continue? {
      ContinueBinding(tk, o, ck, a.room);
    }
  }

  lemma {:induction false} SwapBinding(tk: Task, o: Obj, ck: Clock, a: Action)
    requires GoodStep(tk, o, ck, a) && a.Continue? && tk.pc.Swap?
    ensures var (_, o', _) := Step(tk, o, ck, a);
      o'.binding == if PublishesName(tk, o, ck, a) && tk.pc.next > o.binding then tk.pc.next else o.binding
  {
  }

  lemma {:induction false} ContinueBinding(tk: Task, o: Obj, ck: Clock, room: bool)
    requires |tk.slots| == SLOTS && !tk.pc.Swap?
    ensures StepContinue(tk, o, ck, room).1.binding == o.binding
  {
  }

  /** What a call may write stays until it is left, and a finished name hook adds its record. */
  lemma {:induction false} StepArmed(tk: Task, o: Obj, ck: Clock, a: Action)
    requires |tk.slots| == SLOTS && Enabled(tk, a)
    ensures var (tk', _, _) := Step(tk, o, ck, a);
      && (!a.LeaveCall? ==> tk.armed <= tk'.armed)
      && (PublishesName(tk, o, ck, a) ==> tk.pc.key in tk'.armed)
  {
  }

  lemma {:induction false} NoteKeepsBindings(s: State, h: Hist, t: nat, a: Action)
    requires Premise(s, Act(t, a)) && HistOk(s, h)
    ensures BindingsOk(Happen(s, Act(t, a)), Note(h, s, Act(t, a)))
  {
    ActGood(s, t, a);
    var tk, f := s.tasks[t], Focus(s.tasks[t], a);
    StepBinding(tk, s.objs[f], s.clock, a);
    var r, h' := Happen(s, Act(t, a)), Note(h, s, Act(t, a));
    forall k | 0 <= k < |r.objs| ensures BindingOk(r.objs[k], k, h'.published) {
      assert BindingOk(s.objs[k], k, h.published);
      if k == f { assert r.objs[k] == Step(tk, s.objs[f], s.clock, a).1; } else { assert r.objs[k] == s.objs[k]; }
    }
  }

  lemma {:induction false} NoteKeepsNames(s: State, h: Hist, t: nat, a: Action)
    requires Premise(s, Act(t, a)) && HistOk(s, h)
    ensures var r, h' := Happen(s, Act(t, a)), Note(h, s, Act(t, a)); forall p :: p in h'.names ==> NameOk(r, h', p)
  {
    ActGood(s, t, a);
    var tk, f := s.tasks[t], Focus(s.tasks[t], a);
    StepArmed(tk, s.objs[f], s.clock, a);
    var r, h' := Happen(s, Act(t, a)), Note(h, s, Act(t, a));
    forall p | p in h'.names ensures NameOk(r, h', p) {
      if p in h.names { assert NameOk(s, h, p); }
      if p.0 != t { assert r.tasks[p.0] == s.tasks[p.0]; }
    }
  }

  lemma {:induction false} NoteKeepsPublished(s: State, h: Hist, t: nat, a: Action)
    requires Premise(s, Act(t, a)) && HistOk(s, h)
    ensures var r, h' := Happen(s, Act(t, a)), Note(h, s, Act(t, a));
      forall p :: p in h'.published ==> p.1 <= r.clock.version
  {
    HappenMonotone(s, Act(t, a));
    assert TaskOk(s.tasks[t], s.clock);
  }

  lemma {:induction false} OtherLeavesAll(s: State, e: Event)
    requires CanHappen(s, e) && !e.Act?
    ensures var r := Happen(s, e); r.objs == s.objs && r.tasks == s.tasks && r.clock == s.clock
  {
  }

  lemma {:induction false} OtherKeepsHist(s: State, h: Hist, e: Event)
    requires Premise(s, e) && HistOk(s, h) && !e.Act?
    ensures HistOk(Happen(s, e), Note(h, s, e))
  {
    OtherLeavesAll(s, e);
    var r := Happen(s, e);
    forall p | p in h.names ensures NameOk(r, h, p) { assert NameOk(s, h, p); }
  }

  lemma {:induction false} NoteKeeps(s: State, h: Hist, e: Event)
    requires Premise(s, e) && HistOk(s, h)
    ensures HistOk(Happen(s, e), Note(h, s, e))
  {
    match e
    case Act(t, a) =>
      NoteKeepsBindings(s, h, t, a);
      NoteKeepsNames(s, h, t, a);
      NoteKeepsPublished(s, h, t, a);
    case _ => OtherKeepsHist(s, h, e);
  }

  lemma {:induction false} RunKeepsHist(s: State, trace: seq<Event>, h: Hist)
    requires Inv(s) && HistOk(s, h) && Possible(s, trace) && s.clock.version + |trace| < WORD
    requires Run(s, trace).clock.lost == {}
    ensures Inv(Run(s, trace)) && HistOk(Run(s, trace), HistOf(s, trace, h))
    decreases |trace|
  {
    if trace != [] {
      HappenMonotone(s, trace[0]);
      VersionsNeverDecrease(Happen(s, trace[0]), trace[1..]);
      HappenKeeps(s, trace[0]);
      NoteKeeps(s, h, trace[0]);
      RunKeepsHist(Happen(s, trace[0]), trace[1..], Note(h, s, trace[0]));
    }
  }

  lemma {:induction false} InitialHist(s: State)
    requires Initial(s)
    ensures Inv(s) && HistOk(s, NOTHING)
  {
    InitialInv(s);
  }

  /** In every run with nothing lost, a query about names alone finds a record dirty exactly if a name hook on it that
      has published drew a newer value than the sample. */
  lemma {:induction false} NamesDirtyExactly(s: State, trace: seq<Event>, k: nat, since: nat)
    requires Initial(s) && Possible(s, trace) && |trace| < WORD && Run(s, trace).clock.lost == {} && k < |s.objs|
    ensures k < |Run(s, trace).objs|
    ensures NamesDirty(Run(s, trace), k, since) <==> Above(HistOf(s, trace, NOTHING), k, since)
  {
    InitialHist(s);
    VersionsNeverDecrease(s, trace);
    RunKeepsHist(s, trace, NOTHING);
    var r, h := Run(s, trace), HistOf(s, trace, NOTHING);
    assert BindingOk(r.objs[k], k, h.published);
  }

  // ---------------------------------------------------------------- changes after a sample

  lemma {:induction false} ChangesPublished(s: State, trace: seq<Event>, h: Hist, k: nat, d: nat)
    requires Inv(s) && HistOk(s, h) && Possible(s, trace) && s.clock.version + |trace| < WORD
    requires Run(s, trace).clock.lost == {} && d in Changes(s, trace, h, k)
    ensures (k, d) in HistOf(s, trace, h).published
    decreases |trace|
  {
    var s1, h1 := Happen(s, trace[0]), Note(h, s, trace[0]);
    HappenMonotone(s, trace[0]);
    VersionsNeverDecrease(s1, trace[1..]);
    HappenKeeps(s, trace[0]);
    NoteKeeps(s, h, trace[0]);
    if d in ChangeAt(h, trace[0], k) {
      assert NameOk(s, h, (trace[0].task, k));
      PublishedStays(s1, trace[1..], h1);
    } else {
      ChangesPublished(s1, trace[1..], h1, k, d);
    }
  }

  lemma {:induction false} PublishedStays(s: State, trace: seq<Event>, h: Hist)
    requires Possible(s, trace)
    ensures h.published <= HistOf(s, trace, h).published
    decreases |trace|
  {
    if trace != [] { PublishedStays(Happen(s, trace[0]), trace[1..], Note(h, s, trace[0])); }
  }

  /** The run and its history so far, at a sample. */
  predicate Sampled(s0: State, before: seq<Event>, after: seq<Event>, k: nat) {
    && Initial(s0) && k < |s0.objs| && Possible(s0, before) && Possible(Run(s0, before), after)
    && |before| + |after| < WORD && Run(Run(s0, before), after).clock.lost == {}
  }

  lemma {:induction false} SampledWell(s0: State, before: seq<Event>, after: seq<Event>, k: nat)
    requires Sampled(s0, before, after, k)
    ensures var s, h := Run(s0, before), HistOf(s0, before, NOTHING);
      && Inv(s) && HistOk(s, h) && s.clock.version <= |before| && k < |s.objs| == |Run(s, after).objs|
      && Inv(Run(s, after)) && HistOk(Run(s, after), HistOf(s, after, h))
  {
    var s, h := Run(s0, before), HistOf(s0, before, NOTHING);
    InitialHist(s0);
    ClockBounded(s0, before);
    VersionsNeverDecrease(s0, before);
    VersionsNeverDecrease(s, after);
    RunKeepsHist(s0, before, NOTHING);
    RunKeepsHist(s, after, h);
  }

  /** The answer about names alone, against the clock value at the sample, is clean although a change took effect
      since. */
  predicate AnswersWrongly(s0: State, before: seq<Event>, after: seq<Event>, k: nat)
    requires Sampled(s0, before, after, k)
  {
    var s, h := Run(s0, before), HistOf(s0, before, NOTHING);
    k < |Run(s, after).objs| && !NamesDirty(Run(s, after), k, s.clock.version) && Changes(s, after, h, k) != {}
  }

  /** An answer about names alone is wrong exactly when a change since the sample belongs to a hook that drew its value
      at or before the sample, and no name hook that drew a later one has published. */
  lemma {:induction false} WrongExactly(s0: State, before: seq<Event>, after: seq<Event>, k: nat)
    requires Sampled(s0, before, after, k)
    ensures var s, h := Run(s0, before), HistOf(s0, before, NOTHING);
      AnswersWrongly(s0, before, after, k) <==>
        && (exists d :: d in Changes(s, after, h, k) && d <= s.clock.version)
        && !Above(HistOf(s, after, h), k, s.clock.version)
  {
    var s, h := Run(s0, before), HistOf(s0, before, NOTHING);
    SampledWell(s0, before, after, k);
    assert BindingOk(Run(s, after).objs[k], k, HistOf(s, after, h).published);
    if AnswersWrongly(s0, before, after, k) {
      var d :| d in Changes(s, after, h, k);
      ChangesPublished(s, after, h, k, d);
    }
  }

  // ---------------------------------------------------------------- what a caller can see at the sample

  /** The program counter of a name hook on `k` that has drawn `next` and has not published it. */
  predicate Publishing(pc: Pc, k: nat) {
    (pc.Read? || pc.Swap?) && pc.key == k && (pc.goal == ToVersion(true) || pc.goal == ToBinding)
  }

  predicate Late(s: State, h: Hist, k: nat, since: nat, t: nat)
    requires t < |s.tasks|
  {
    && ((t, k) in h.names ==> h.names[(t, k)] > since)
    && (Publishing(s.tasks[t].pc, k) ==> s.tasks[t].pc.next > since)
  }

  /** Every name hook on `k` that can still have its change take effect drew its value after the sample. */
  predicate AllLate(s: State, h: Hist, k: nat, since: nat) {
    since <= s.clock.version && forall t :: 0 <= t < |s.tasks| ==> Late(s, h, k, since, t)
  }

  lemma {:induction false} StepPublishing(tk: Task, o: Obj, ck: Clock, a: Action, k: nat, since: nat)
    requires GoodStep(tk, o, ck, a) && since <= ck.version
    requires Publishing(tk.pc, k) ==> tk.pc.next > since
    ensures var tk' := Step(tk, o, ck, a).0; Publishing(tk'.pc, k) ==> tk'.pc.next > since
  {
    if a.Continue? {
      if tk.pc.Bump? || tk.pc.Read? || tk.pc.Swap? { } else { NoOtherReads(tk, o, ck, a.room); }
    }
  }

  lemma {:induction false} NoOtherReads(tk: Task, o: Obj, ck: Clock, room: bool)
    requires |tk.slots| == SLOTS && !tk.pc.Bump? && !tk.pc.Read? && !tk.pc.Swap?
    ensures var pc := StepContinue(tk, o, ck, room).0.pc;
      pc.Read? || pc.Swap? ==> pc.goal.ToMount? || pc.goal.ToSlot? || pc == tk.pc
  {
  }

  lemma {:induction false} StaysLate(s: State, h: Hist, e: Event, k: nat, since: nat)
    requires Premise(s, e) && AllLate(s, h, k, since)
    ensures AllLate(Happen(s, e), Note(h, s, e), k, since)
  {
    HappenMonotone(s, e);
    var r, h' := Happen(s, e), Note(h, s, e);
    forall u | 0 <= u < |r.tasks| ensures Late(r, h', k, since, u) {
      assert Late(s, h, k, since, u);
      if e.Act? && e.task == u { ActorStaysLate(s, h, u, e.action, k, since); } else {
        OtherStaysLate(s, h, e, k, since, u);
      }
    }
  }

  lemma {:induction false} ActorStaysLate(s: State, h: Hist, t: nat, a: Action, k: nat, since: nat)
    requires Premise(s, Act(t, a)) && since <= s.clock.version && Late(s, h, k, since, t)
    ensures Late(Happen(s, Act(t, a)), Note(h, s, Act(t, a)), k, since, t)
  {
    ActGood(s, t, a);
    StepPublishing(s.tasks[t], s.objs[Focus(s.tasks[t], a)], s.clock, a, k, since);
  }

  lemma {:induction false} OtherStaysLate(s: State, h: Hist, e: Event, k: nat, since: nat, u: nat)
    requires CanHappen(s, e) && u < |s.tasks| && Late(s, h, k, since, u) && (e.Act? ==> e.task != u)
    ensures u < |Happen(s, e).tasks| && Late(Happen(s, e), Note(h, s, e), k, since, u)
  {
    assert Happen(s, e).tasks[u] == s.tasks[u];
  }

  lemma {:induction false} LateChanges(s: State, trace: seq<Event>, h: Hist, k: nat, since: nat, d: nat)
    requires Inv(s) && AllLate(s, h, k, since) && Possible(s, trace) && s.clock.version + |trace| < WORD
    requires Run(s, trace).clock.lost == {} && d in Changes(s, trace, h, k)
    ensures d > since
    decreases |trace|
  {
    var s1, h1 := Happen(s, trace[0]), Note(h, s, trace[0]);
    HappenMonotone(s, trace[0]);
    VersionsNeverDecrease(s1, trace[1..]);
    HappenKeeps(s, trace[0]);
    StaysLate(s, h, trace[0], k, since);
    if d in ChangeAt(h, trace[0], k) {
      assert Late(s, h, k, since, trace[0].task);
    } else {
      LateChanges(s1, trace[1..], h1, k, since, d);
    }
  }

  /** A sample taken while every name hook on the record is over and done with is safe: every later answer about its
      names alone is right. */
  lemma {:induction false} LateSampleIsSafe(s0: State, before: seq<Event>, after: seq<Event>, k: nat)
    requires Sampled(s0, before, after, k)
    requires var s := Run(s0, before); AllLate(s, HistOf(s0, before, NOTHING), k, s.clock.version)
    ensures !AnswersWrongly(s0, before, after, k)
  {
    WrongExactly(s0, before, after, k);
    SampledWell(s0, before, after, k);
    var s, h := Run(s0, before), HistOf(s0, before, NOTHING);
    forall d | d in Changes(s, after, h, k) ensures d > s.clock.version {
      LateChanges(s, after, h, k, s.clock.version, d);
    }
  }

  /** It is enough to see no active writer of the record at the sample. */
  lemma {:induction false} QuietRecordIsSafe(s0: State, before: seq<Event>, after: seq<Event>, k: nat)
    requires Sampled(s0, before, after, k)
    requires k < |Run(s0, before).objs| && Run(s0, before).objs[k].active == 0
    ensures !AnswersWrongly(s0, before, after, k)
  {
    SampledWell(s0, before, after, k);
    var s, h := Run(s0, before), HistOf(s0, before, NOTHING);
    forall t | 0 <= t < |s.tasks| ensures Late(s, h, k, s.clock.version, t) {
      HoldsNone(s, k, t);
      if (t, k) in h.names { assert NameOk(s, h, (t, k)); }
      HooksHold(s.tasks[t], s.clock, k);
    }
    LateSampleIsSafe(s0, before, after, k);
  }

  lemma {:induction false} HooksHold(tk: Task, ck: Clock, k: nat)
    requires TaskOk(tk, ck) && SlotHolds(tk, k) <= 0
    ensures k !in tk.armed && !Publishing(tk.pc, k)
  {
  }

  /** A record nobody is active on is held by no task. */
  lemma {:induction false} HoldsNone(s: State, k: nat, t: nat)
    requires Inv(s) && k < |s.objs| && s.objs[k].active == 0 && t < |s.tasks|
    ensures TaskOk(s.tasks[t], s.clock) && SlotHolds(s.tasks[t], k) <= 0
  {
    HoldsAtLeastNone(s, k);
    SumAtLeast(s.tasks, t, HoldsOf(k));
  }

  lemma {:induction false} HoldsAtLeastNone(s: State, k: nat)
    requires Inv(s)
    ensures forall u :: 0 <= u < |s.tasks| ==>
      TaskOk(s.tasks[u], s.clock) && HoldsOf(k)(s.tasks[u]) >= SlotHolds(s.tasks[u], k)
    ensures forall u :: 0 <= u < |s.tasks| ==> HoldsOf(k)(s.tasks[u]) >= 0
  {
  }

  /** Between programs the condition is exact: every continuation answers rightly if and only if no call in progress has
      run a name hook on the record. */
  lemma {:induction false} SafeSampleExactly(s0: State, before: seq<Event>, k: nat)
    requires Sampled(s0, before, [], k) && |before| + 1 < WORD && Quiet(Run(s0, before))
    ensures (forall after :: Sampled(s0, before, after, k) ==> !AnswersWrongly(s0, before, after, k)) <==>
      forall t: nat :: (t, k) !in HistOf(s0, before, NOTHING).names
  {
    var s, h := Run(s0, before), HistOf(s0, before, NOTHING);
    SampledWell(s0, before, [], k);
    if t: nat :| (t, k) in h.names {
      InFlightIsUnsafe(s0, before, k, t);
    } else {
      assert AllLate(s, h, k, s.clock.version);
      forall after | Sampled(s0, before, after, k) ensures !AnswersWrongly(s0, before, after, k) {
        LateSampleIsSafe(s0, before, after, k);
      }
    }
  }

  /** A call in progress between its programs may write, which changes neither the clock nor any record. */
  lemma {:induction false} WriteAlone(s: State, h: Hist, t: nat, k: nat) returns (after: seq<Event>)
    requires Inv(s) && HistOk(s, h) && Quiet(s) && (t, k) in h.names && k < |s.objs|
    ensures |after| == 1 && Possible(s, after) && Changes(s, after, h, k) == {h.names[(t, k)]}
    ensures Run(s, after).clock == s.clock && Run(s, after).objs == s.objs
  {
    assert NameOk(s, h, (t, k));
    assert TaskOk(s.tasks[t], s.clock);
    after := [Act(t, Write(k))];
    var r := Happen(s, after[0]);
    assert after[1..] == [] && Possible(r, after[1..]) && Run(s, after) == r;
    assert Changes(r, after[1..], Note(h, s, after[0]), k) == {};
  }

  lemma {:induction false} InFlightIsUnsafe(s0: State, before: seq<Event>, k: nat, t: nat)
    requires Sampled(s0, before, [], k) && |before| + 1 < WORD && Quiet(Run(s0, before))
    requires (t, k) in HistOf(s0, before, NOTHING).names
    ensures exists after :: Sampled(s0, before, after, k) && AnswersWrongly(s0, before, after, k)
  {
    var s, h := Run(s0, before), HistOf(s0, before, NOTHING);
    SampledWell(s0, before, [], k);
    var after := WriteAlone(s, h, t, k);
    assert Sampled(s0, before, after, k);
    assert NameOk(s, h, (t, k)) && BindingOk(s.objs[k], k, h.published);
    assert AnswersWrongly(s0, before, after, k);
  }
}

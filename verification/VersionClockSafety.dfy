/** Safety and conservation of the version clock over every run. */
module VersionClockSafety {
  import opened Basics
  import opened VersionClock
  import opened VersionClockSteps

  // ---------------------------------------------------------------- sums over tasks and records

  function Sum<T>(s: seq<T>, f: T -> int): int {
    if s == [] then 0 else Sum(s[..|s| - 1], f) + f(s[|s| - 1])
  }

  lemma {:induction false} SumUpdate<T>(s: seq<T>, i: nat, v: T, f: T -> int)
    requires i < |s|
    ensures Sum(s[i := v], f) == Sum(s, f) - f(s[i]) + f(v)
  {
    var n := |s| - 1;
    if i == n {
      assert s[i := v][..n] == s[..n];
    } else {
      assert s[i := v][..n] == s[..n][i := v];
      SumUpdate(s[..n], i, v, f);
    }
  }

  lemma {:induction false} SumAtLeast<T>(s: seq<T>, i: nat, f: T -> int)
    requires i < |s| && forall j :: 0 <= j < |s| ==> f(s[j]) >= 0
    ensures Sum(s, f) >= f(s[i])
  {
    var n := |s| - 1;
    if i == n { SumNonNegative(s[..n], f); } else { SumAtLeast(s[..n], i, f); }
  }

  lemma {:induction false} SumNonNegative<T>(s: seq<T>, f: T -> int)
    requires forall j :: 0 <= j < |s| ==> f(s[j]) >= 0
    ensures Sum(s, f) >= 0
  {
    if s != [] { SumNonNegative(s[..|s| - 1], f); }
  }

  lemma {:induction false} SumZero<T>(s: seq<T>, f: T -> int)
    requires forall j :: 0 <= j < |s| ==> f(s[j]) == 0
    ensures Sum(s, f) == 0
  {
    if s != [] { SumZero(s[..|s| - 1], f); }
  }

  lemma {:induction false} SumEqual<T>(s: seq<T>, f: T -> int, g: T -> int)
    requires forall j :: 0 <= j < |s| ==> f(s[j]) == g(s[j])
    ensures Sum(s, f) == Sum(s, g)
  {
    if s != [] { SumEqual(s[..|s| - 1], f, g); }
  }

  function HoldsOf(k: nat): Task -> int {
    (tk: Task) => if |tk.slots| == SLOTS then Holds(tk, k) else 0
  }

  function HoldsAllOf(): Task -> int {
    (tk: Task) => if |tk.slots| == SLOTS then HoldsAll(tk) else 0
  }

  function HoldsClockOf(): Task -> int {
    (tk: Task) => if |tk.slots| == SLOTS then HoldsClock(tk) else 0
  }

  function DebtOf(): Task -> int {
    (tk: Task) => Debt(tk)
  }

  function ActiveOf(): Obj -> int {
    (o: Obj) => o.active
  }

  function MarkedOf(): Obj -> int {
    (o: Obj) => B(o.uncertain != {})
  }

  // ---------------------------------------------------------------- the invariant

  predicate Found(objs: seq<Obj>, k: nat) {
    k < |objs| && objs[k].present
  }

  /** Every record a task still has to settle was found and is never removed. */
  predicate NamesFound(tk: Task, objs: seq<Obj>)
    requires |tk.slots| == SLOTS
  {
    && (forall i :: 0 <= i < SLOTS && tk.slots[i].Held? ==> Found(objs, tk.slots[i].key))
    && (tk.mount.Some? ==> Found(objs, tk.mount.value))
    && (NeedsRecord(tk) ==> Found(objs, PcKey(tk)))
  }

  predicate TasksOk(s: State) {
    forall t :: 0 <= t < |s.tasks| ==>
      TaskOk(s.tasks[t], s.clock) && NamesFound(s.tasks[t], s.objs) && PcKey(s.tasks[t]) < |s.objs| &&
      PcPublished(s.tasks[t], s.objs[PcKey(s.tasks[t])])
  }

  predicate ObjsOk(s: State) {
    |s.objs| > 0 && forall k :: 0 <= k < |s.objs| ==> ObjOk(s.objs[k], s.clock)
  }

  /** Conservation: what the counters hold is what the tasks account for. */
  predicate Conserved(s: State) {
    && (forall k :: 0 <= k < |s.objs| ==> s.objs[k].active == Sum(s.tasks, HoldsOf(k)))
    && Sum(s.objs, ActiveOf()) == Sum(s.tasks, HoldsAllOf())
    && s.clock.active == Sum(s.tasks, HoldsClockOf())
    && s.clock.uncertain == Sum(s.objs, MarkedOf()) + Sum(s.tasks, DebtOf())
  }

  /** A write is still visible to a client that trusts clock values up to `since`. */
  predicate Visible(s: State, t: nat, k: nat, since: nat) {
    && t < |s.tasks| && k < |s.objs| && |s.tasks[t].slots| == SLOTS
    && (s.objs[k].version > since || Guards(s.tasks[t], k, since))
  }

  predicate WindowVisible(s: State, w: set<(nat, nat)>, since: nat) {
    forall p :: p in w ==> Visible(s, p.0, p.1, since)
  }

  predicate SoundVerdict(cl: Client, v: Verdict) {
    v.probe.content && v.clean ==> !v.written && (v.probe.key in cl.kept ==> !v.everWritten)
  }

  predicate ClientOk(cl: Client, s: State) {
    && cl.mount < |s.objs| && cl.since <= s.clock.version
    && WindowVisible(s, cl.window, cl.since)
    && (forall k :: k in cl.chain && k in cl.kept ==> In(cl.window, k))
    && (cl.phase.Asking? ==> AskingOk(cl, s))
  }

  predicate AskingOk(cl: Client, s: State)
    requires cl.phase.Asking?
  {
    && cl.since <= cl.phase.version <= s.clock.version
    && cl.later <= cl.window
    && WindowVisible(s, cl.later, cl.phase.version)
    && (forall v :: v in cl.phase.verdicts ==> SoundVerdict(cl, v))
    && (forall k :: k in cl.chain && k in cl.kept && ReportedClean(cl.phase.verdicts, k) ==> In(cl.later, k))
    && (forall p :: p in cl.phase.rest ==> p.key < |s.objs|)
  }

  predicate ClientsOk(s: State) {
    forall c :: 0 <= c < |s.clients| ==> ClientOk(s.clients[c], s)
  }

  predicate Inv(s: State) {
    ObjsOk(s) && TasksOk(s) && Conserved(s) && ClientsOk(s)
  }

  // ---------------------------------------------------------------- steps of tasks

  /** The premises of one event of a run in which nothing is lost and the clock does not wrap. */
  predicate Premise(s: State, e: Event) {
    Inv(s) && CanHappen(s, e) && s.clock.version + 1 < WORD && Happen(s, e).clock.lost == {}
  }

  lemma {:induction false} ActGood(s: State, t: nat, a: Action)
    requires Premise(s, Act(t, a))
    ensures var k := Focus(s.tasks[t], a);
            && GoodStep(s.tasks[t], s.objs[k], s.clock, a)
            && s.clock.lost == {}
  {
    var k := Focus(s.tasks[t], a);
    assert TaskOk(s.tasks[t], s.clock) && ObjOk(s.objs[k], s.clock);
    StepMonotone(s.tasks[t], s.objs[k], s.clock, a);
    if a.Continue? { assert k == PcKey(s.tasks[t]); } else { PublishedElsewhere(s.tasks[t], s.objs[k], a); }
  }

  /** Only a running program promises anything about its record. */
  lemma {:induction false} PublishedElsewhere(tk: Task, o: Obj, a: Action)
    requires Enabled(tk, a) && !a.Continue?
    ensures PcPublished(tk, o)
  {
  }

  lemma {:induction false} TaskOkGrows(tk: Task, ck: Clock, ck': Clock)
    requires TaskOk(tk, ck) && ck.version <= ck'.version
    ensures TaskOk(tk, ck')
  {
  }

  lemma {:induction false} PublishedGrows(tk: Task, o: Obj, o': Obj)
    requires PcPublished(tk, o) && o.version <= o'.version && o.binding <= o'.binding
    ensures PcPublished(tk, o')
  {
  }

  /** The names a step adds to the slots are the record it found. */
  lemma {:induction false} StepSlotNames(tk: Task, o: Obj, ck: Clock, a: Action, i: nat)
    requires |tk.slots| == SLOTS && i < SLOTS
    ensures var (tk', _, _) := Step(tk, o, ck, a);
            && |tk'.slots| == SLOTS
            && (tk'.slots[i] == tk.slots[i] || tk'.slots[i] == Free ||
                (a.Continue? && tk.pc.Fill? && tk'.slots[i] == Held(Focus(tk, a))))
  {
    if !MovesSlot(tk, a) && Enabled(tk, a) { StepLeavesSlots(tk, o, ck, a); }
  }

  lemma {:induction false} StepMountName(tk: Task, o: Obj, ck: Clock, a: Action)
    requires |tk.slots| == SLOTS
    ensures var (tk', _, _) := Step(tk, o, ck, a);
            tk'.mount == tk.mount || tk'.mount == None || (a.EnterNamespace? && tk'.mount == Some(Focus(tk, a)))
  {
  }

  /** A program works on one record from its first step to its last. */
  predicate GoesOn(tk: Task, next: Task)
    requires |tk.slots| == SLOTS
  {
    || next.pc.User? || next.pc.Kernel? || next.pc.Scan?
    || (NeedsRecord(tk) && next.pc.key == PcKey(tk) && !next.pc.MountBump?)
  }

  lemma {:induction false} AdvanceNeeds(tk: Task, o: Obj, ck: Clock, room: bool)
    requires |tk.slots| == SLOTS && (tk.pc.Read? || tk.pc.Swap?)
    ensures GoesOn(tk, StepContinue(tk, o, ck, room).0)
  {
  }

  lemma {:induction false} ScanNeeds(tk: Task, o: Obj, ck: Clock, room: bool)
    requires |tk.slots| == SLOTS && (tk.pc.Scan? || tk.pc.MountBump?)
    ensures GoesOn(tk, StepContinue(tk, o, ck, room).0)
  {
  }

  lemma {:induction false} FillNeeds(tk: Task, o: Obj, ck: Clock, room: bool)
    requires |tk.slots| == SLOTS && (tk.pc.Reserve? || tk.pc.Fill?)
    ensures GoesOn(tk, StepContinue(tk, o, ck, room).0)
  {
  }

  lemma {:induction false} ContinueNeeds(tk: Task, o: Obj, ck: Clock, room: bool)
    requires |tk.slots| == SLOTS
    ensures GoesOn(tk, StepContinue(tk, o, ck, room).0)
  {
    if tk.pc.Read? || tk.pc.Swap? { AdvanceNeeds(tk, o, ck, room); }
    else if tk.pc.Scan? || tk.pc.MountBump? { ScanNeeds(tk, o, ck, room); }
    else if tk.pc.Reserve? || tk.pc.Fill? { FillNeeds(tk, o, ck, room); }
  }

  lemma {:induction false} ActionNeeds(tk: Task, o: Obj, ck: Clock, a: Action)
    requires |tk.slots| == SLOTS && !a.Continue? && Enabled(tk, a)
    ensures var pc' := Step(tk, o, ck, a).0.pc;
            || pc'.User? || pc'.Kernel? || pc'.Scan?
            || (pc'.MountBump? && tk.mount.Some? && a.LeaveCall? && pc'.key == tk.mount.value)
            || (!pc'.MountBump? && pc'.key == Focus(tk, a))
  {
  }

  lemma {:induction false} StepSlotsFound(tk: Task, o: Obj, ck: Clock, a: Action, objs: seq<Obj>)
    requires GoodStep(tk, o, ck, a) && NamesFound(tk, objs)
    requires Focus(tk, a) < |objs| && objs[Focus(tk, a)] == Step(tk, o, ck, a).1
    ensures var (tk', _, _) := Step(tk, o, ck, a);
            |tk'.slots| == SLOTS && forall i :: 0 <= i < SLOTS && tk'.slots[i].Held? ==> Found(objs, tk'.slots[i].key)
  {
    var tk' := Step(tk, o, ck, a).0;
    StepSlotNames(tk, o, ck, a, 0);
    if a.Continue? && tk.pc.Fill? { StepMonotone(tk, o, ck, a); }
    forall i | 0 <= i < SLOTS && tk'.slots[i].Held? ensures Found(objs, tk'.slots[i].key) {
      StepSlotNames(tk, o, ck, a, i);
    }
  }

  lemma {:induction false} StepRecordFound(tk: Task, o: Obj, ck: Clock, a: Action, objs: seq<Obj>)
    requires GoodStep(tk, o, ck, a) && NamesFound(tk, objs)
    requires Focus(tk, a) < |objs| && objs[Focus(tk, a)] == Step(tk, o, ck, a).1
    requires var tk' := Step(tk, o, ck, a).0;
      |tk'.slots| == SLOTS && forall i :: 0 <= i < SLOTS && tk'.slots[i].Held? ==> Found(objs, tk'.slots[i].key)
    ensures NeedsRecord(Step(tk, o, ck, a).0) ==> Found(objs, PcKey(Step(tk, o, ck, a).0))
  {
    StepMonotone(tk, o, ck, a);
    if a.Continue? { ContinueNeeds(tk, o, ck, a.room); } else {
      ActionNeeds(tk, o, ck, a);
      EnterFinds(tk, o, ck, a);
    }
  }

  lemma {:induction false} StepNames(tk: Task, o: Obj, ck: Clock, a: Action, objs: seq<Obj>)
    requires GoodStep(tk, o, ck, a) && NamesFound(tk, objs)
    requires Focus(tk, a) < |objs| && objs[Focus(tk, a)] == Step(tk, o, ck, a).1
    ensures var (tk', _, _) := Step(tk, o, ck, a);
            |tk'.slots| == SLOTS && NamesFound(tk', objs)
  {
    StepSlotsFound(tk, o, ck, a, objs);
    StepMountName(tk, o, ck, a);
    if a.EnterNamespace? { EnterFinds(tk, o, ck, a); }
    StepRecordFound(tk, o, ck, a, objs);
  }

  /** Entering a program finds or inserts its record, or marks the loss. */
  lemma {:induction false} EnterFinds(tk: Task, o: Obj, ck: Clock, a: Action)
    requires |tk.slots| == SLOTS && !a.Continue? && Step(tk, o, ck, a).2.lost == {}
    ensures a.EnterNamespace? || a.Hook? ==> Step(tk, o, ck, a).1.present
  {
  }

  lemma {:induction false} StepPcKeyBelow(tk: Task, o: Obj, ck: Clock, a: Action, n: nat)
    requires |tk.slots| == SLOTS && Enabled(tk, a) && Focus(tk, a) < n
    requires forall i :: 0 <= i < SLOTS && tk.slots[i].Held? ==> tk.slots[i].key < n
    requires tk.mount.Some? ==> tk.mount.value < n
    ensures PcKey(Step(tk, o, ck, a).0) < n
  {
    var tk' := Step(tk, o, ck, a).0;
    StepSlotNames(tk, o, ck, a, if tk'.pc.Scan? && tk'.pc.index < SLOTS then tk'.pc.index else 0);
    if a.Continue? { ContinueNeeds(tk, o, ck, a.room); } else { ActionNeeds(tk, o, ck, a); }
    KeyBelow(tk', n);
  }

  lemma {:induction false} KeyBelow(tk: Task, n: nat)
    requires |tk.slots| == SLOTS && n > 0
    requires tk.pc.Scan? && tk.pc.index < SLOTS && tk.slots[tk.pc.index].Held? ==> tk.slots[tk.pc.index].key < n
    requires tk.pc.User? || tk.pc.Kernel? || tk.pc.Scan? || tk.pc.key < n
    ensures PcKey(tk) < n
  {
  }

  lemma {:induction false} StepPcKeyFocus(tk: Task, o: Obj, ck: Clock, a: Action)
    requires GoodStep(tk, o, ck, a)
    ensures var pc := Step(tk, o, ck, a).0.pc;
            pc.Read? || pc.Swap? || pc.MountObject? || pc.SlotObject? ==> PcKey(Step(tk, o, ck, a).0) == Focus(tk, a)
  {
    if a.Continue? { ContinueNeeds(tk, o, ck, a.room); } else { ActionNeeds(tk, o, ck, a); }
  }

  lemma {:induction false} StepPcKey(tk: Task, o: Obj, ck: Clock, a: Action, n: nat)
    requires GoodStep(tk, o, ck, a) && Focus(tk, a) < n
    requires forall i :: 0 <= i < SLOTS && tk.slots[i].Held? ==> tk.slots[i].key < n
    requires tk.mount.Some? ==> tk.mount.value < n
    ensures PcKey(Step(tk, o, ck, a).0) < n
    ensures var pc := Step(tk, o, ck, a).0.pc;
            pc.Read? || pc.Swap? || pc.MountObject? || pc.SlotObject? ==> PcKey(Step(tk, o, ck, a).0) == Focus(tk, a)
  {
    StepPcKeyBelow(tk, o, ck, a, n);
    StepPcKeyFocus(tk, o, ck, a);
  }

  /** What holds of an acting task, after its step, in terms of the new objects. */
  lemma {:induction false} ActorKeepsTask(tk: Task, o: Obj, ck: Clock, a: Action, before: seq<Obj>, after: seq<Obj>)
    requires GoodStep(tk, o, ck, a) && NamesFound(tk, before)
    requires Focus(tk, a) < |before| && before[Focus(tk, a)] == o
    requires after == before[Focus(tk, a) := Step(tk, o, ck, a).1]
    ensures var (tk', _, ck') := Step(tk, o, ck, a);
            && TaskOk(tk', ck') && NamesFound(tk', after) && PcKey(tk') < |after|
            && PcPublished(tk', after[PcKey(tk')])
  {
    StepMonotone(tk, o, ck, a);
    StepKeepsTask(tk, o, ck, a);
    StepKeepsPublished(tk, o, ck, a);
    NamesStay(tk, before, after);
    StepNames(tk, o, ck, a, after);
    StepPcKey(tk, o, ck, a, |before|);
  }

  lemma {:induction false} NamesStay(tk: Task, before: seq<Obj>, after: seq<Obj>)
    requires |tk.slots| == SLOTS && NamesFound(tk, before) && |after| == |before|
    requires forall k :: 0 <= k < |before| && before[k].present ==> after[k].present
    ensures NamesFound(tk, after)
  {
  }

  lemma {:induction false} ActKeepsTasks(s: State, t: nat, a: Action)
    requires Premise(s, Act(t, a))
    ensures TasksOk(Happen(s, Act(t, a))) && ObjsOk(Happen(s, Act(t, a)))
  {
    var s' := Happen(s, Act(t, a));
    var k := Focus(s.tasks[t], a);
    var tk, o := s.tasks[t], s.objs[k];
    ActGood(s, t, a);
    StepMonotone(tk, o, s.clock, a);
    StepKeepsTask(tk, o, s.clock, a);
    forall u | 0 <= u < |s'.tasks|
      ensures TaskOk(s'.tasks[u], s'.clock) && NamesFound(s'.tasks[u], s'.objs) && PcKey(s'.tasks[u]) < |s'.objs|
      ensures PcPublished(s'.tasks[u], s'.objs[PcKey(s'.tasks[u])])
    {
      assert NamesFound(s.tasks[u], s.objs);
      if u == t {
        ActorKeepsTask(tk, o, s.clock, a, s.objs, s'.objs);
      } else {
        TaskOkGrows(s.tasks[u], s.clock, s'.clock);
        var j := PcKey(s.tasks[u]);
        PublishedGrows(s.tasks[u], s.objs[j], s'.objs[j]);
      }
    }
    forall j | 0 <= j < |s'.objs| ensures ObjOk(s'.objs[j], s'.clock) {
      assert ObjOk(s.objs[j], s.clock);
    }
  }

  /** Replacing one task and one record by a balanced pair keeps every total. */
  lemma {:induction false} ReplaceConserves(s: State, t: nat, k: nat, tk: Task, o: Obj, ck: Clock)
    requires Conserved(s) && t < |s.tasks| && k < |s.objs|
    requires o.active - s.objs[k].active == HoldsAllOf()(tk) - HoldsAllOf()(s.tasks[t])
    requires ck.active - s.clock.active == HoldsClockOf()(tk) - HoldsClockOf()(s.tasks[t])
    requires ck.uncertain - s.clock.uncertain == MarkedOf()(o) - MarkedOf()(s.objs[k]) +
      DebtOf()(tk) - DebtOf()(s.tasks[t])
    requires forall j: nat ::
      HoldsOf(j)(tk) - HoldsOf(j)(s.tasks[t]) == (if j == k then o.active - s.objs[k].active else 0)
    ensures Conserved(s.(objs := s.objs[k := o], clock := ck, tasks := s.tasks[t := tk]))
  {
    SumUpdate(s.tasks, t, tk, HoldsAllOf());
    SumUpdate(s.tasks, t, tk, HoldsClockOf());
    SumUpdate(s.tasks, t, tk, DebtOf());
    SumUpdate(s.objs, k, o, ActiveOf());
    SumUpdate(s.objs, k, o, MarkedOf());
    forall j | 0 <= j < |s.objs| ensures s.objs[k := o][j].active == Sum(s.tasks[t := tk], HoldsOf(j)) {
      assert s.objs[j].active == Sum(s.tasks, HoldsOf(j));
      SumUpdate(s.tasks, t, tk, HoldsOf(j));
    }
  }

  lemma {:induction false} ActKeepsSums(s: State, t: nat, a: Action)
    requires Premise(s, Act(t, a))
    ensures Conserved(Happen(s, Act(t, a)))
  {
    var s' := Happen(s, Act(t, a));
    var k := Focus(s.tasks[t], a);
    ActGood(s, t, a);
    StepAccounts(s.tasks[t], s.objs[k], s.clock, a);
    forall j: nat
      ensures HoldsOf(j)(s'.tasks[t]) - HoldsOf(j)(s.tasks[t]) ==
        (if j == k then s'.objs[k].active - s.objs[k].active else 0)
    {
      StepAccountsObject(s.tasks[t], s.objs[k], s.clock, a, j);
    }
    ReplaceConserves(s, t, k, s'.tasks[t], s'.objs[k], s'.clock);
  }

  lemma {:induction false} ActKeepsVisible(s: State, t: nat, a: Action, u: nat, k: nat, since: nat)
    requires Premise(s, Act(t, a)) && Visible(s, u, k, since) && since <= s.clock.version
    ensures Visible(Happen(s, Act(t, a)), u, k, since)
  {
    ActGood(s, t, a);
    if u == t {
      OwnActKeepsVisible(s, t, a, k, since);
    } else {
      StepMonotone(s.tasks[t], s.objs[Focus(s.tasks[t], a)], s.clock, a);
    }
  }

  lemma {:induction false} OwnActKeepsVisible(s: State, t: nat, a: Action, k: nat, since: nat)
    requires CanHappen(s, Act(t, a)) && Visible(s, t, k, since) && since <= s.clock.version
    requires GoodStep(s.tasks[t], s.objs[Focus(s.tasks[t], a)], s.clock, a)
    ensures Visible(Happen(s, Act(t, a)), t, k, since)
  {
    var tk, f := s.tasks[t], Focus(s.tasks[t], a);
    StepMonotone(tk, s.objs[f], s.clock, a);
    if s.objs[k].version <= since { StepKeepsGuard(tk, s.objs[f], s.clock, a, k, since); }
  }

  lemma {:induction false} ActKeepsClient(s: State, t: nat, a: Action, c: nat)
    requires Premise(s, Act(t, a)) && c < |s.clients|
    ensures ClientOk(s.clients[c], Happen(s, Act(t, a)))
  {
    var s' := Happen(s, Act(t, a));
    var cl := s.clients[c];
    var f := Focus(s.tasks[t], a);
    assert ClientOk(cl, s);
    StepMonotone(s.tasks[t], s.objs[f], s.clock, a);
    forall p | p in cl.window ensures Visible(s', p.0, p.1, cl.since) {
      ActKeepsVisible(s, t, a, p.0, p.1, cl.since);
    }
    if cl.phase.Asking? {
      forall p | p in cl.later ensures Visible(s', p.0, p.1, cl.phase.version) {
        ActKeepsVisible(s, t, a, p.0, p.1, cl.phase.version);
      }
    }
  }

  /** A write that just took effect is visible to clients with any sample. */
  lemma {:induction false} WriteVisible(s: State, t: nat, a: Action, since: nat)
    requires Premise(s, Act(t, a)) && (a.Write? || a.MountEffect?)
    ensures Visible(Happen(s, Act(t, a)), t, Focus(s.tasks[t], a), since)
  {
    var k := Focus(s.tasks[t], a);
    ActGood(s, t, a);
    if a.Write? { ArmedGuards(s.tasks[t], k, since); }
    else { assert MountGuards(Happen(s, Act(t, a)).tasks[t], k, since); }
  }

  lemma {:induction false} NoteKeepsClient(s: State, cl: Client, t: nat, k: nat)
    requires ClientOk(cl, s) && k < |s.objs|
    requires forall since: nat :: Visible(s, t, k, since)
    ensures ClientOk(NoteWrite(cl, t, k), s)
  {
    var cl' := NoteWrite(cl, t, k);
    assert (t, k) in cl'.window;
    forall j | j in cl'.chain && j in cl'.kept ensures In(cl'.window, j) {
      if j != k {
        var p :| p in cl.window && p.1 == j;
        assert p in cl'.window;
      } else { assert (t, k).1 == j; }
    }
    if cl.phase.Asking? {
      assert (t, k) in cl'.later;
      forall j | j in cl'.chain && j in cl'.kept && ReportedClean(cl'.phase.verdicts, j) ensures In(cl'.later, j) {
        if j != k {
          var p :| p in cl.later && p.1 == j;
          assert p in cl'.later;
        } else { assert (t, k).1 == j; }
      }
      forall v | v in cl'.phase.verdicts ensures SoundVerdict(cl', v) { assert SoundVerdict(cl, v); }
    }
  }

  lemma {:induction false} ActKeepsClients(s: State, t: nat, a: Action)
    requires Premise(s, Act(t, a))
    ensures ClientsOk(Happen(s, Act(t, a)))
  {
    var s' := Happen(s, Act(t, a));
    var k := Focus(s.tasks[t], a);
    forall c | 0 <= c < |s'.clients| ensures ClientOk(s'.clients[c], s') {
      ActKeepsClient(s, t, a, c);
      if a.Write? || a.MountEffect? {
        forall since: nat ensures Visible(s', t, k, since) { WriteVisible(s, t, a, since); }
        NoteKeepsClient(s', s.clients[c], t, k);
      }
    }
  }

  // ---------------------------------------------------------------- steps of clients

  /** Client steps leave records, clock and tasks alone. */
  lemma {:induction false} PutKeeps(s: State, c: nat, cl: Client)
    requires Inv(s) && c < |s.clients| && ClientOk(cl, s)
    ensures Inv(PutClient(s, c, cl))
  {
    var s' := PutClient(s, c, cl);
    forall d | 0 <= d < |s'.clients| ensures ClientOk(s'.clients[d], s') {
      ClientFrame(if d == c then cl else s.clients[d], s, s');
    }
    assert TasksOk(s') by {
      assert TasksOk(s);
    }
  }

  lemma {:induction false} ClientFrame(cl: Client, s: State, s': State)
    requires ClientOk(cl, s) && s'.objs == s.objs && s'.clock == s.clock && s'.tasks == s.tasks
    ensures ClientOk(cl, s')
  {
    forall p | p in cl.window ensures Visible(s', p.0, p.1, cl.since) { assert Visible(s, p.0, p.1, cl.since); }
    if cl.phase.Asking? {
      forall p | p in cl.later ensures Visible(s', p.0, p.1, cl.phase.version) {
        assert Visible(s, p.0, p.1, cl.phase.version);
      }
    }
  }

  /** A record that reads clean was not written in the window: a write is either in its version or still
      counted in `active`. */
  lemma {:induction false} CleanMeansUnwritten(s: State, cl: Client, k: nat, since: nat, w: set<(nat, nat)>)
    requires Inv(s) && k < |s.objs| && WindowVisible(s, w, since)
    requires s.objs[k].version <= since && s.objs[k].active == 0
    ensures !In(w, k)
  {
    if In(w, k) {
      var p :| p in w && p.1 == k;
      assert Visible(s, p.0, p.1, since);
      GuardHolds(s.tasks[p.0], k, since);
      forall j | 0 <= j < |s.tasks| ensures HoldsOf(k)(s.tasks[j]) >= 0 { assert TaskOk(s.tasks[j], s.clock); }
      SumAtLeast(s.tasks, p.0, HoldsOf(k));
    }
  }

  lemma {:induction false} ObserveKeepsClient(s: State, cl: Client, p: Probe, phase: Phase)
    requires Inv(s) && ClientOk(cl, s) && cl.phase.Asking? && p.key < |s.objs|
    requires phase.Asking? && phase.version == cl.phase.version
    requires phase.verdicts == cl.phase.verdicts + [Observe(cl, s.objs[p.key], p)]
    requires forall q :: q in phase.rest ==> q.key < |s.objs|
    ensures ClientOk(cl.(phase := phase), s)
  {
    var v := Observe(cl, s.objs[p.key], p);
    var cl' := cl.(phase := phase);
    if p.content && v.clean {
      CleanMeansUnwritten(s, cl, p.key, cl.since, cl.window);
    }
    forall u | u in phase.verdicts ensures SoundVerdict(cl', u) {
      if u in cl.phase.verdicts { assert SoundVerdict(cl, u); }
    }
  }

  lemma {:induction false} ClientStepKeeps(s: State, e: Event)
    requires Inv(s) && CanHappen(s, e) && !e.Act?
    ensures Inv(Happen(s, e))
  {
    var c := e.client;
    var cl := s.clients[c];
    assert ClientOk(cl, s);
    match e
    case Sample(_) =>
      PutKeeps(s, c, Happen(s, e).clients[c]);
    case Begin(_, _) =>
      if s.clock.lost == {} { PutKeeps(s, c, Happen(s, e).clients[c]); }
    case Look(_) =>
      var p := cl.phase.rest[0];
      var cl' := Happen(s, e).clients[c];
      ObserveKeepsClient(s, cl, p, cl'.phase);
      PutKeeps(s, c, cl');
    case LookMount(_) =>
      var cl' := Happen(s, e).clients[c];
      if cl'.phase.Asking? { ObserveKeepsClient(s, cl, Probe(cl.mount, true, false), cl'.phase); }
      PutKeeps(s, c, cl');
    case Confirm(_) =>
      PutKeeps(s, c, Happen(s, e).clients[c]);
  }

  lemma {:induction false} HappenKeeps(s: State, e: Event)
    requires Premise(s, e)
    ensures Inv(Happen(s, e))
  {
    if e.Act? {
      ActKeepsTasks(s, e.task, e.action);
      ActKeepsSums(s, e.task, e.action);
      ActKeepsClients(s, e.task, e.action);
    } else {
      ClientStepKeeps(s, e);
    }
  }

  // ---------------------------------------------------------------- whole runs

  lemma {:induction false} IdleHoldsNothing(k: nat)
    ensures HoldsOf(k)(IdleTask()) == 0 && HoldsAllOf()(IdleTask()) == 0 && HoldsClockOf()(IdleTask()) == 0
    ensures DebtOf()(IdleTask()) == 0
  {
    AllFree(IdleTask().slots, SLOTS, k, SLOTS);
  }

  lemma {:induction false} IdleHoldsNothingOf(s: State, k: nat)
    requires Initial(s)
    ensures Sum(s.tasks, HoldsOf(k)) == 0
  {
    IdleHoldsNothing(k);
    SumZero(s.tasks, HoldsOf(k));
  }

  lemma {:induction false} IdleHoldsNothingAtAll(s: State)
    requires Initial(s)
    ensures Sum(s.tasks, HoldsAllOf()) == 0 && Sum(s.tasks, HoldsClockOf()) == 0 && Sum(s.tasks, DebtOf()) == 0
  {
    IdleHoldsNothing(0);
    SumZero(s.tasks, HoldsAllOf());
    SumZero(s.tasks, HoldsClockOf());
    SumZero(s.tasks, DebtOf());
  }

  lemma {:induction false} FreshObjectsCountNothing(s: State)
    requires Initial(s)
    ensures Sum(s.objs, ActiveOf()) == 0 && Sum(s.objs, MarkedOf()) == 0
  {
    SumZero(s.objs, ActiveOf());
    SumZero(s.objs, MarkedOf());
  }

  lemma {:induction false} InitialConserved(s: State)
    requires Initial(s)
    ensures Conserved(s)
  {
    IdleHoldsNothingAtAll(s);
    FreshObjectsCountNothing(s);
    forall k | 0 <= k < |s.objs| ensures s.objs[k].active == Sum(s.tasks, HoldsOf(k)) {
      IdleHoldsNothingOf(s, k);
    }
  }

  lemma {:induction false} InitialInv(s: State)
    requires Initial(s)
    ensures Inv(s)
  {
    InitialConserved(s);
    InitialTasks(s);
    InitialClients(s);
  }

  lemma {:induction false} InitialTasks(s: State)
    requires Initial(s)
    ensures TasksOk(s)
  {
    forall t | 0 <= t < |s.tasks|
      ensures TaskOk(s.tasks[t], s.clock) && NamesFound(s.tasks[t], s.objs) && PcKey(s.tasks[t]) < |s.objs|
      ensures PcPublished(s.tasks[t], s.objs[PcKey(s.tasks[t])])
    {
      assert s.tasks[t] == IdleTask();
    }
  }

  lemma {:induction false} InitialClients(s: State)
    requires Initial(s)
    ensures ObjsOk(s) && ClientsOk(s)
  {
  }

  /** One event never unmarks a loss, never lowers a version and moves the clock by at most one. */
  lemma {:induction false} HappenMonotone(s: State, e: Event)
    requires CanHappen(s, e) && s.clock.version + 1 < WORD
    ensures var s' := Happen(s, e);
            && s.clock.lost <= s'.clock.lost && s.clock.version <= s'.clock.version <= s.clock.version + 1
            && |s'.objs| == |s.objs|
            && (forall k :: 0 <= k < |s.objs| ==>
               s.objs[k].version <= s'.objs[k].version && s.objs[k].binding <= s'.objs[k].binding)
  {
    if e.Act? { StepMonotone(s.tasks[e.task], s.objs[Focus(s.tasks[e.task], e.action)], s.clock, e.action); }
  }

  /** Versions and name bindings never decrease and a loss is never forgotten, over any run the clock
      does not wrap in. */
  lemma {:induction false} VersionsNeverDecrease(s: State, trace: seq<Event>)
    requires Possible(s, trace) && s.clock.version + |trace| < WORD
    ensures var r := Run(s, trace);
            && s.clock.lost <= r.clock.lost && s.clock.version <= r.clock.version
            && |r.objs| == |s.objs|
            && (forall k :: 0 <= k < |s.objs| ==>
               s.objs[k].version <= r.objs[k].version && s.objs[k].binding <= r.objs[k].binding)
    decreases |trace|
  {
    if trace != [] {
      HappenMonotone(s, trace[0]);
      VersionsNeverDecrease(Happen(s, trace[0]), trace[1..]);
    }
  }

  lemma {:induction false} RunKeepsInv(s: State, trace: seq<Event>)
    requires Inv(s) && Possible(s, trace) && s.clock.version + |trace| < WORD
    requires Run(s, trace).clock.lost == {}
    ensures Inv(Run(s, trace))
    decreases |trace|
  {
    if trace != [] {
      HappenMonotone(s, trace[0]);
      VersionsNeverDecrease(Happen(s, trace[0]), trace[1..]);
      HappenKeeps(s, trace[0]);
      RunKeepsInv(Happen(s, trace[0]), trace[1..]);
    }
  }

  /** When CHANGES is about to answer (nothing lost, mounts unchanged), every record it reported clean under
      the content flag, the mount record included, had not been written since the sampled version; and if
      every earlier answer of the chain reported it clean too, not since the first sample. */
  lemma {:induction false} CleanAnswerIsSound(s: State, trace: seq<Event>, c: nat)
    requires Initial(s) && Possible(s, trace) && |trace| < WORD
    requires var r := Run(s, trace);
             c < |r.clients| && r.clients[c].phase.Asking? && r.clients[c].phase.mountRead && r.clock.lost == {}
    ensures var cl := Run(s, trace).clients[c];
            forall v :: v in cl.phase.verdicts && v.probe.content && v.clean ==>
              !v.written && (v.probe.key in cl.kept ==> !v.everWritten)
  {
    InitialInv(s);
    RunKeepsInv(s, trace);
    var cl := Run(s, trace).clients[c];
    assert ClientOk(cl, Run(s, trace));
    forall v | v in cl.phase.verdicts && v.probe.content && v.clean
      ensures !v.written && (v.probe.key in cl.kept ==> !v.everWritten)
    {
      assert SoundVerdict(cl, v);
    }
  }

  /** No task is inside a hook or a completion. */
  predicate Quiet(s: State) {
    forall t :: 0 <= t < |s.tasks| ==> s.tasks[t].pc.User? || s.tasks[t].pc.Kernel?
  }

  /** The slots a task has filled and the mount change it announced. */
  function OwedOf(): Task -> int {
    (tk: Task) => if |tk.slots| == SLOTS then Occupied(tk.slots, SLOTS) + B(tk.mount.Some?) else 0
  }

  /** With nothing lost and no program in flight, the shared `active` is the sum of the records' `active`,
      which is the number of occupied slots and pending mount changes; and the shared `uncertain` is the
      number of marked records. */
  lemma {:induction false} CountersConserved(s: State, trace: seq<Event>)
    requires Initial(s) && Possible(s, trace) && |trace| < WORD
    requires Run(s, trace).clock.lost == {} && Quiet(Run(s, trace))
    ensures var r := Run(s, trace);
            && r.clock.active == Sum(r.objs, ActiveOf()) == Sum(r.tasks, OwedOf())
            && r.clock.uncertain == Sum(r.objs, MarkedOf())
  {
    InitialInv(s);
    RunKeepsInv(s, trace);
    var r := Run(s, trace);
    SumEqual(r.tasks, HoldsAllOf(), OwedOf());
    SumEqual(r.tasks, HoldsClockOf(), OwedOf());
    SumZero(r.tasks, DebtOf());
  }

  /** A task whose hook is about to return, with the clock value its hook drew. */
  predicate Returning(s: State, t: nat, room: bool)
  {
    && t < |s.tasks| && CanHappen(s, Act(t, Continue(room))) && s.tasks[t].pc.Swap?
    && (s.tasks[t].pc.goal.ToVersion? || s.tasks[t].pc.goal.ToBinding?)
    && Happen(s, Act(t, Continue(room))).tasks[t].pc.Kernel?
  }

  /** At its return a hook has published its clock value in the record's version, and in its binding when
      the hook was about names. */
  lemma {:induction false} HookPublishes(s: State, t: nat, room: bool)
    requires Inv(s) && Returning(s, t, room) && Happen(s, Act(t, Continue(room))).clock.lost == {}
    ensures var s1 := Happen(s, Act(t, Continue(room)));
            var Swap(k, goal, next, _, _) := s.tasks[t].pc;
            && k < |s1.objs| && s1.objs[k].version >= next
            && (goal.ToBinding? ==> s1.objs[k].binding >= next)
  {
    assert TaskOk(s.tasks[t], s.clock) && PcPublished(s.tasks[t], s.objs[s.tasks[t].pc.key]);
  }

  /** Once a hook has returned, every later request against a sample older than the hook's own clock value
      finds the record dirty, and finds its bindings changed when the hook was about names: this does
      not rely on the write still being in flight. */
  lemma {:induction false} ReturnedHookStaysVisible(s0: State, before: seq<Event>, t: nat, room: bool,
                                                    after: seq<Event>, since: nat, other: bool)
    requires Initial(s0) && Possible(s0, before) && |before| + |after| + 1 < WORD
    requires var s := Run(s0, before);
             && Returning(s, t, room) && Possible(Happen(s, Act(t, Continue(room))), after)
             && Run(Happen(s, Act(t, Continue(room))), after).clock.lost == {}
             && since < s.tasks[t].pc.next
    ensures var s := Run(s0, before);
            var r := Run(Happen(s, Act(t, Continue(room))), after);
            var k := s.tasks[t].pc.key;
            && k < |r.objs|
            && Dirty(r.objs[k], Probe(k, true, other), since)
            && (s.tasks[t].pc.goal.ToBinding? ==> Dirty(r.objs[k], Probe(k, other, true), since))
  {
    var s := Run(s0, before);
    var e := Act(t, Continue(room));
    ClockBounded(s0, before);
    HappenMonotone(s, e);
    VersionsNeverDecrease(Happen(s, e), after);
    InitialInv(s0);
    RunKeepsInv(s0, before);
    HookPublishes(s, t, room);
  }

  lemma {:induction false} ClockBounded(s: State, trace: seq<Event>)
    requires Possible(s, trace) && s.clock.version + |trace| < WORD
    ensures Run(s, trace).clock.version <= s.clock.version + |trace|
    decreases |trace|
  {
    if trace != [] {
      HappenMonotone(s, trace[0]);
      ClockBounded(Happen(s, trace[0]), trace[1..]);
    }
  }

  // ---------------------------------------------------------------- what the protocol does not promise

  const ZERO_OBJ := Obj(false, 0, 0, {}, 0, false)

  /** One record, a mount record, one task and one client. */
  function Small(tk: Task, o: Obj, ck: Clock): State {
    State([o, ZERO_OBJ], ck, [tk], [Client(0, 1, Idle, {}, {}, {}, Below(2), [], [])])
  }

  function SmallState(): State {
    Small(IdleTask(), ZERO_OBJ, Clock(0, {}, 0, 0))
  }

  /** A task inside a call whose name hook on record 0 returned: its write is still to come. */
  function HookedState(): State {
    Small(Task(Kernel, IdleTask().slots[0 := Held(0)], None, 0, false, {0}, false),
          Obj(true, 1, 1, {}, 1, false), Clock(1, {}, 0, 1))
  }

  lemma {:induction false} RunOne(s: State, e: Event, rest: seq<Event>)
    requires CanHappen(s, e) && Possible(Happen(s, e), rest)
    ensures Possible(s, [e] + rest) && Run(s, [e] + rest) == Run(Happen(s, e), rest)
  {
    assert ([e] + rest)[1..] == rest;
  }

  /** n steps of a task's current program. */
  function Continues(n: nat): seq<Event> {
    if n == 0 then [] else [Act(0, Continue(true))] + Continues(n - 1)
  }

  /** On the small state an event of a task is a step of its triple. */
  lemma {:induction false} SmallStep(tk: Task, o: Obj, ck: Clock, a: Action, rest: seq<Event>)
    requires |tk.slots| == SLOTS && Enabled(tk, a) && Focus(tk, a) == 0 && !a.Write? && !a.MountEffect?
    requires var (tk', o', ck') := Step(tk, o, ck, a); Possible(Small(tk', o', ck'), rest)
    ensures var (tk', o', ck') := Step(tk, o, ck, a);
            && Possible(Small(tk, o, ck), [Act(0, a)] + rest)
            && Run(Small(tk, o, ck), [Act(0, a)] + rest) == Run(Small(tk', o', ck'), rest)
  {
    var (tk', o', ck') := Step(tk, o, ck, a);
    assert Happen(Small(tk, o, ck), Act(0, a)) == Small(tk', o', ck');
    RunOne(Small(tk, o, ck), Act(0, a), rest);
  }

  function AtPc(pc: Pc, slots: seq<Slot>): Task {
    Task(pc, slots, None, 0, false, {}, false)
  }

  /** The triples a task goes through after its hook started. */
  function HookTriple(i: nat): (Task, Obj, Clock)
    requires i <= 9
  {
    var free := seq(SLOTS, _ => Free);
    var held := free[0 := Held(0)];
    var o := ZERO_OBJ.(present := true);
    var ck := Clock(0, {}, 0, 0);
    if i == 0 then (AtPc(Reserve(0, {8}), free), o, ck)
    else if i == 1 then (AtPc(Fill(0, true), free), o, ck)
    else if i == 2 then (AtPc(AddObject(0, 0, true), held), o, ck)
    else if i == 3 then (AtPc(AddClock(0, true), held), o.(active := 1), ck)
    else if i == 4 then (AtPc(Bump(0, true), held), o.(active := 1), ck.(active := 1))
    else if i == 5 then (AtPc(Read(0, ToVersion(true), 1), held), o.(active := 1), Clock(1, {}, 0, 1))
    else if i == 6 then (AtPc(Swap(0, ToVersion(true), 1, 0, 0), held), o.(active := 1), Clock(1, {}, 0, 1))
    else if i == 7 then (AtPc(Read(0, ToBinding, 1), held), o.(active := 1, version := 1), Clock(1, {}, 0, 1))
    else if i == 8 then (AtPc(Swap(0, ToBinding, 1, 0, 0), held), o.(active := 1, version := 1), Clock(1, {}, 0, 1))
    else (AtPc(Kernel, held).(armed := {0}), o.(active := 1, version := 1, binding := 1), Clock(1, {}, 0, 1))
  }

  lemma {:induction false} HookTripleStep(i: nat)
    requires i < 9
    ensures var (tk, o, ck) := HookTriple(i);
            |tk.slots| == SLOTS && Enabled(tk, Continue(true)) && PcKey(tk) == 0 &&
            Step(tk, o, ck, Continue(true)) == HookTriple(i + 1)
  {
    var (tk, o, ck) := HookTriple(i);
    if i == 0 { assert tk.pc.marks - {8} == {}; }
    if i == 8 { assert tk.armed + {0} == {0}; }
  }

  lemma {:induction false} HookRuns(i: nat)
    requires i <= 9
    ensures var (tk, o, ck) := HookTriple(i);
            var (tk', o', ck') := HookTriple(9);
            Possible(Small(tk, o, ck), Continues(9 - i)) &&
              Run(Small(tk, o, ck), Continues(9 - i)) == Small(tk', o', ck')
    decreases 9 - i
  {
    if i < 9 {
      var (tk, o, ck) := HookTriple(i);
      HookTripleStep(i);
      HookRuns(i + 1);
      SmallStep(tk, o, ck, Continue(true), Continues(8 - i));
    }
  }

  lemma {:induction false} SmallStateIsInitial()
    ensures Initial(SmallState())
  {
  }

  predicate Reaches(s: State, trace: seq<Event>, r: State) {
    Possible(s, trace) && Run(s, trace) == r
  }

  lemma {:induction false} HookEntered(slots: seq<Slot>, rest: seq<Event>, r: State)
    requires slots == IdleTask().slots
    requires Reaches(Small(AtPc(Reserve(0, {8}), slots), ZERO_OBJ.(present := true), Clock(0, {}, 0, 0)), rest, r)
    ensures Reaches(SmallState(), [Act(0, EnterCall)] + ([Act(0, Hook(0, {8}, true))] + rest), r)
  {
    SmallStep(AtPc(Kernel, slots), ZERO_OBJ, Clock(0, {}, 0, 0), Hook(0, {8}, true), rest);
    SmallStep(IdleTask(), ZERO_OBJ, Clock(0, {}, 0, 0), EnterCall, [Act(0, Hook(0, {8}, true))] + rest);
  }

  lemma {:induction false} HookedFrom(i: nat, n: nat)
    requires i == 0 && n == 9
    ensures Reaches(SmallState(), [Act(0, EnterCall)] + ([Act(0, Hook(0, {8}, true))] + Continues(n)), HookedState())
  {
    HookRuns(i);
    var (tk, o, ck) := HookTriple(i);
    assert Reaches(Small(tk, o, ck), Continues(n), HookedState());
    HookEntered(tk.slots, Continues(n), HookedState());
  }

  /** The state is reached from the start: a call is entered and its name hook runs to its end. */
  lemma {:induction false} HookedStateIsReached()
    ensures Initial(SmallState()) && exists trace :: Reaches(SmallState(), trace, HookedState())
  {
    SmallStateIsInitial();
    var i, n := 0, 9;
    HookedFrom(i, n);
  }

  /** A request for name bindings alone can miss a change that is in flight: the hook drew its clock value
      before the sample, and only the content flag looks at `active`. */
  lemma {:induction false} NamesAloneMissChangesInFlight()
    ensures var s := HookedState();
            var trace := [Sample(0), Act(0, Write(0)), Begin(0, [Probe(0, false, true)]), Look(0)];
            && Possible(s, trace)
            && var cl := Run(s, trace).clients[0];
               cl.phase.Asking? && cl.phase.verdicts == [Verdict(Probe(0, false, true), true, true, true)]
  {
    var s := HookedState();
    var p := Probe(0, false, true);
    var s1 := Happen(s, Sample(0));
    var s2 := Happen(s1, Act(0, Write(0)));
    var asked, written := [Begin(0, [p]), Look(0)], [Act(0, Write(0)), Begin(0, [p]), Look(0)];
    AskedInFlight();
    RunOne(s1, Act(0, Write(0)), asked);
    assert [Act(0, Write(0))] + asked == written;
    RunOne(s, Sample(0), written);
    assert [Sample(0)] + written == [Sample(0), Act(0, Write(0)), Begin(0, [p]), Look(0)];
  }

  lemma {:induction false} AskedInFlight()
    ensures var s, p := HookedState(), Probe(0, false, true);
      && CanHappen(s, Sample(0)) && CanHappen(Happen(s, Sample(0)), Act(0, Write(0)))
      && var t, asked := Happen(Happen(s, Sample(0)), Act(0, Write(0))), [Begin(0, [p]), Look(0)];
         && Possible(t, asked) && |Run(t, asked).clients| == 1 && Run(t, asked).clients[0].phase.Asking?
         && Run(t, asked).clients[0].phase.verdicts == [Verdict(p, true, true, true)]
  {
    var p := Probe(0, false, true);
    var s2 := Happen(Happen(HookedState(), Sample(0)), Act(0, Write(0)));
    var s3 := Happen(s2, Begin(0, [p]));
    assert (0, 0) in s3.clients[0].window;
    RunOne(s3, Look(0), []);
    RunOne(s2, Begin(0, [p]), [Look(0)]);
    assert [Begin(0, [p])] + [Look(0)] == [Begin(0, [p]), Look(0)];
  }
}

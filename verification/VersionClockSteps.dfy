/** What one atomic step of the version clock keeps, task by task: the counters it moves are the ones the
    task accounts for, its versions are published before they are relied on, and a hold that guards a
    write is only given up once the record's version says so. */
module VersionClockSteps {
  import opened Basics
  import opened VersionClock

  // ---------------------------------------------------------------- accounting of one task

  function B(b: bool): int {
    if b then 1 else 0
  }

  /** The slot whose contribution to the record's `active` is not in place: filled but not yet added,
      or subtracted but not yet cleared. */
  function Pending(pc: Pc): nat {
    match pc
    case AddObject(_, i, _) => i
    case SlotClock(_, i) => i
    case _ => SLOTS
  }

  /** How many of the first n slots name k, leaving out the slot at `skip`. */
  function Count(slots: seq<Slot>, skip: nat, k: nat, n: nat): (c: nat)
    requires n <= |slots|
  {
    if n == 0 then 0
    else Count(slots, skip, k, n - 1) + (if slots[n - 1] == Held(k) && n - 1 != skip then 1 else 0)
  }

  function SlotHolds(tk: Task, k: nat): int
    requires |tk.slots| == SLOTS
  {
    Count(tk.slots, Pending(tk.pc), k, SLOTS)
  }

  predicate MountHeld(tk: Task) {
    tk.mount.Some? && !tk.pc.NamespaceAdd? && !tk.pc.MountClock?
  }

  predicate MountCounted(tk: Task) {
    tk.mount.Some? && !tk.pc.NamespaceAdd? && !tk.pc.NamespaceClock?
  }

  /** What a task currently contributes to `active` of record k. */
  function Holds(tk: Task, k: nat): int
    requires |tk.slots| == SLOTS
  {
    SlotHolds(tk, k) + B(MountHeld(tk) && tk.mount == Some(k))
  }

  /** How many of the first n slots are in use. */
  function Occupied(slots: seq<Slot>, n: nat): (c: nat)
    requires n <= |slots|
  {
    if n == 0 then 0 else Occupied(slots, n - 1) + (if slots[n - 1].Held? then 1 else 0)
  }

  /** What a task contributes to all records together, and to the shared counter. */
  function HoldsAll(tk: Task): int
    requires |tk.slots| == SLOTS
  {
    Occupied(tk.slots, SLOTS) - B(tk.pc.AddObject? || tk.pc.SlotClock?) + B(MountHeld(tk))
  }

  function HoldsClock(tk: Task): int
    requires |tk.slots| == SLOTS
  {
    Occupied(tk.slots, SLOTS) - B(tk.pc.AddObject? || tk.pc.AddClock?) +
    B(MountCounted(tk))
  }

  /** Updates of the shared `uncertain` counter a task still owes. */
  function Debt(tk: Task): int {
    B(tk.pc.RebornClock?) - B(tk.pc.MarkClock?)
  }

  // ---------------------------------------------------------------- local invariant of one task

  predicate FreeBelow(tk: Task, i: nat)
    requires |tk.slots| == SLOTS
  {
    forall j :: 0 <= j < i && j < SLOTS ==> tk.slots[j] == Free
  }

  predicate ArmedHeld(tk: Task)
    requires |tk.slots| == SLOTS
  {
    forall k :: k in tk.armed ==> SlotHolds(tk, k) >= 1
  }

  /** No mount change is pending and nothing may be written: the state of a task releasing its slots. */
  predicate Draining(tk: Task) {
    tk.armed == {} && tk.mount == None && !tk.effect
  }

  predicate MountDone(tk: Task, k: nat) {
    tk.armed == {} && tk.mount == Some(k) && (tk.effect ==> tk.succeeded && tk.paths == 0)
  }

  predicate InHook(tk: Task)
    requires |tk.slots| == SLOTS
  {
    ArmedHeld(tk) && (tk.effect ==> tk.mount.Some? && tk.paths == 0)
  }

  predicate GoalOk(tk: Task, k: nat, goal: Goal)
    requires |tk.slots| == SLOTS
  {
    match goal
    case ToVersion(_) => InHook(tk) && SlotHolds(tk, k) >= 1
    case ToBinding => InHook(tk) && SlotHolds(tk, k) >= 1
    case ToMount => MountDone(tk, k)
    case ToSlot(i) => Draining(tk) && i < SLOTS && tk.slots[i] == Held(k) && FreeBelow(tk, i)
  }

  predicate PcOk(tk: Task, ck: Clock)
    requires |tk.slots| == SLOTS
  {
    match tk.pc
    case User => Draining(tk) && FreeBelow(tk, SLOTS)
    case Kernel => InHook(tk)
    case NamespaceAdd(k) => tk.armed == {} && tk.mount == Some(k) && !tk.effect
    case NamespaceClock(k) => tk.armed == {} && tk.mount == Some(k) && !tk.effect
    case NamespaceBump(k) => tk.armed == {} && tk.mount == Some(k) && !tk.effect
    case Mark(_, marks, _) => InHook(tk) && marks != {}
    case AddObject(k, i, _) => InHook(tk) && i < SLOTS && tk.slots[i] == Held(k)
    case AddClock(k, _) => InHook(tk) && SlotHolds(tk, k) >= 1
    case Bump(k, _) => InHook(tk) && SlotHolds(tk, k) >= 1
    case Read(k, goal, next) => GoalOk(tk, k, goal) && next <= ck.version
    case Swap(k, goal, next, _, _) => GoalOk(tk, k, goal) && next <= ck.version
    case MountBump(k) => MountDone(tk, k)
    case MountObject(k, next) => MountDone(tk, k) && next <= ck.version
    case MountClock(k) => tk.armed == {} && tk.mount == Some(k) && !tk.effect
    case Scan(i) => Draining(tk) && FreeBelow(tk, i)
    case SlotObject(k, i, next) =>
      Draining(tk) && i < SLOTS && tk.slots[i] == Held(k) && FreeBelow(tk, i) && next <= ck.version
    case SlotClock(k, i) => Draining(tk) && i < SLOTS && tk.slots[i] == Held(k) && FreeBelow(tk, i)
    case _ => InHook(tk)
  }

  predicate TaskOk(tk: Task, ck: Clock) {
    |tk.slots| == SLOTS && PcOk(tk, ck)
  }

  /** What the program counter promises about the record it works on. */
  predicate PcPublished(tk: Task, o: Obj) {
    match tk.pc
    case Read(_, goal, next) => goal.ToBinding? ==> o.version >= next
    case Swap(_, goal, next, previous, _) => previous <= Target(o, goal) && (goal.ToBinding? ==> o.version >= next)
    case MountObject(_, next) => tk.effect ==> o.version >= next
    case SlotObject(_, _, next) => o.version >= next
    case _ => true
  }

  predicate ObjOk(o: Obj, ck: Clock) {
    && o.version <= ck.version
    && o.binding <= ck.version
    && (!o.present ==> o == Obj(false, 0, 0, {}, 0, false))
  }

  /** A task still keeps every clock value up to `since` from being trusted for record k: a counted hold
      whose final bump has not happened, or has happened above `since`. */
  predicate Guards(tk: Task, k: nat, since: nat)
    requires |tk.slots| == SLOTS
  {
    || (exists i :: 0 <= i < SLOTS && SlotGuards(tk, i, k, since))
    || MountGuards(tk, k, since)
  }

  predicate SlotGuards(tk: Task, i: nat, k: nat, since: nat)
    requires |tk.slots| == SLOTS && i < SLOTS
  {
    tk.slots[i] == Held(k) && i != Pending(tk.pc) && SlotPromise(tk.pc, i, since)
  }

  predicate MountGuards(tk: Task, k: nat, since: nat) {
    MountHeld(tk) && tk.mount == Some(k) && tk.effect && MountPromise(tk.pc, since)
  }

  predicate SlotPromise(pc: Pc, i: nat, since: nat) {
    match pc
    case Read(_, goal, next) => goal == ToSlot(i) ==> next > since
    case Swap(_, goal, next, _, _) => goal == ToSlot(i) ==> next > since
    case SlotObject(_, j, next) => i == j ==> next > since
    case _ => true
  }

  predicate MountPromise(pc: Pc, since: nat) {
    match pc
    case Read(_, goal, next) => goal == ToMount ==> next > since
    case Swap(_, goal, next, _, _) => goal == ToMount ==> next > since
    case MountObject(_, next) => next > since
    case _ => true
  }

  // ---------------------------------------------------------------- what one step keeps

  /** The next step of a task works on a record it already found. */
  predicate NeedsRecord(tk: Task)
    requires |tk.slots| == SLOTS
  {
    match tk.pc
    case User => false
    case Kernel => false
    case Scan(i) => i < SLOTS && tk.slots[i].Held?
    case _ => true
  }

  /** The premises of every step lemma: the local invariant, no wrap of the clock, nothing lost. */
  predicate GoodStep(tk: Task, o: Obj, ck: Clock, a: Action) {
    && TaskOk(tk, ck) && PcPublished(tk, o) && ObjOk(o, ck) && Enabled(tk, a)
    && ck.version + 1 < WORD
    && (a.Continue? && NeedsRecord(tk) ==> o.present)
    && Step(tk, o, ck, a).2.lost == {}
  }

  lemma {:induction false} CountSkip(slots: seq<Slot>, i: nat, k: nat, n: nat)
    requires n <= |slots| <= SLOTS && i < |slots|
    ensures Count(slots, SLOTS, k, n) == Count(slots, i, k, n) + (if i < n && slots[i] == Held(k) then 1 else 0)
  {
    if n > 0 { CountSkip(slots, i, k, n - 1); }
  }

  lemma {:induction false} CountUpdate(slots: seq<Slot>, i: nat, v: Slot, k: nat, n: nat)
    requires n <= |slots| && i < |slots|
    ensures Count(slots[i := v], i, k, n) == Count(slots, i, k, n)
  {
    if n > 0 { CountUpdate(slots, i, v, k, n - 1); }
  }

  lemma {:induction false} CountMember(slots: seq<Slot>, skip: nat, i: nat, k: nat, n: nat)
    requires i < n <= |slots| && slots[i] == Held(k) && i != skip
    ensures Count(slots, skip, k, n) >= 1
  {
    if i < n - 1 { CountMember(slots, skip, i, k, n - 1); }
  }

  lemma {:induction false} CountWitness(slots: seq<Slot>, skip: nat, k: nat, n: nat) returns (i: nat)
    requires n <= |slots| && Count(slots, skip, k, n) >= 1
    ensures i < n && slots[i] == Held(k) && i != skip
  {
    if slots[n - 1] == Held(k) && n - 1 != skip { i := n - 1; } else { i := CountWitness(slots, skip, k, n - 1); }
  }

  lemma {:induction false} OccupiedUpdate(slots: seq<Slot>, i: nat, v: Slot, n: nat)
    requires n <= |slots| && i < |slots|
    ensures Occupied(slots[i := v], n) ==
            Occupied(slots, n) + (if i < n then B(v.Held?) - B(slots[i].Held?) else 0)
  {
    if n > 0 { OccupiedUpdate(slots, i, v, n - 1); }
  }

  lemma {:induction false} AllFree(slots: seq<Slot>, skip: nat, k: nat, n: nat)
    requires n <= |slots| && forall j :: 0 <= j < n ==> slots[j] == Free
    ensures Count(slots, skip, k, n) == 0 && Occupied(slots, n) == 0
  {
    if n > 0 { AllFree(slots, skip, k, n - 1); }
  }

  lemma {:induction false} StepMonotone(tk: Task, o: Obj, ck: Clock, a: Action)
    requires |tk.slots| == SLOTS && ck.version + 1 < WORD
    ensures var (_, o', ck') := Step(tk, o, ck, a);
            && o.version <= o'.version && o.binding <= o'.binding && (o.present ==> o'.present)
            && ck.version <= ck'.version <= ck.version + 1 && ck.lost <= ck'.lost
  {
  }

  /** Only these steps move a slot or its contribution. */
  predicate MovesSlot(tk: Task, a: Action)
    requires |tk.slots| == SLOTS
  {
    a.Continue? && (tk.pc.Fill? || tk.pc.AddObject? || tk.pc.SlotObject? || tk.pc.SlotClock? ||
                    (tk.pc.Scan? && tk.pc.index >= SLOTS))
  }

  lemma {:induction false} StepLeavesSlots(tk: Task, o: Obj, ck: Clock, a: Action)
    requires |tk.slots| == SLOTS && Enabled(tk, a) && !MovesSlot(tk, a)
    ensures var (tk', _, _) := Step(tk, o, ck, a);
            tk'.slots == tk.slots && Pending(tk'.pc) == Pending(tk.pc)
  {
  }

  lemma {:induction false} FillCount(tk: Task, o: Obj, ck: Clock, a: Action, k: nat)
    requires TaskOk(tk, ck) && Enabled(tk, a) && a.Continue? && tk.pc.Fill?
    ensures var (tk', _, _) := Step(tk, o, ck, a);
            |tk'.slots| == SLOTS && SlotHolds(tk', k) == SlotHolds(tk, k)
  {
    var i := FindSlot(tk.slots, tk.pc.key, 0);
    if i < SLOTS && tk.slots[i] == Free {
      CountSkip(tk.slots, i, k, SLOTS);
      CountUpdate(tk.slots, i, Held(tk.pc.key), k, SLOTS);
    }
  }

  lemma {:induction false} StepCount(tk: Task, o: Obj, ck: Clock, a: Action, k: nat)
    requires TaskOk(tk, ck) && Enabled(tk, a)
    ensures var (tk', _, _) := Step(tk, o, ck, a);
            && |tk'.slots| == SLOTS
            && SlotHolds(tk', k) - SlotHolds(tk, k) ==
               (if a.Continue? && tk.pc.AddObject? && tk.pc.key == k then 1
                else if a.Continue? && tk.pc.SlotObject? && tk.pc.key == k then -1 else 0)
  {
    if !MovesSlot(tk, a) {
      StepLeavesSlots(tk, o, ck, a);
    } else {
      match tk.pc {
      case Fill(_, _) => FillCount(tk, o, ck, a, k);
      case AddObject(_, i, _) => CountSkip(tk.slots, i, k, SLOTS);
      case SlotObject(_, i, _) => CountSkip(tk.slots, i, k, SLOTS);
      case SlotClock(_, i) =>
        CountUpdate(tk.slots, i, Free, k, SLOTS);
        CountSkip(tk.slots[i := Free], i, k, SLOTS);
      case Scan(i) =>
        AllFree(tk.slots, SLOTS, k, SLOTS);
        AllFree(seq(SLOTS, _ => Free), SLOTS, k, SLOTS);
      case _ => assert false;
      }
    }
  }

  lemma {:induction false} StepOccupied(tk: Task, o: Obj, ck: Clock, a: Action)
    requires GoodStep(tk, o, ck, a)
    ensures var (tk', _, _) := Step(tk, o, ck, a);
            && |tk'.slots| == SLOTS
            && Occupied(tk'.slots, SLOTS) - Occupied(tk.slots, SLOTS) ==
               B(a.Continue? && tk.pc.Fill? && tk'.pc.AddObject?) - B(a.Continue? && tk.pc.SlotClock?)
  {
    if a.Continue? {
      match tk.pc {
        case Fill(k, _) =>
          var i := FindSlot(tk.slots, k, 0);
          if i < SLOTS { OccupiedUpdate(tk.slots, i, Held(k), SLOTS); }
        case SlotClock(_, i) => OccupiedUpdate(tk.slots, i, Free, SLOTS);
        case Scan(i) =>
          if i >= SLOTS { AllFree(tk.slots, 0, 0, SLOTS); AllFree(seq(SLOTS, _ => Free), 0, 0, SLOTS); }
        case _ =>
      }
    }
  }

  lemma {:induction false} StepKeepsObject(tk: Task, o: Obj, ck: Clock, a: Action)
    requires GoodStep(tk, o, ck, a)
    ensures var (_, o', ck') := Step(tk, o, ck, a);
            ObjOk(o', ck')
  {
    if a.Continue? {
      match tk.pc {
        case Swap(_, goal, _, _, _) => assert ObjOk(Store(o, goal, tk.pc.next), ck);
        case _ =>
      }
    }
  }

  lemma {:induction false} StepKeepsArmed(tk: Task, o: Obj, ck: Clock, a: Action)
    requires GoodStep(tk, o, ck, a) && ArmedHeld(tk) && !Completing(tk.pc)
    requires a.Continue? && tk.pc.Swap? ==> SlotHolds(tk, tk.pc.key) >= 1
    ensures var (tk', _, _) := Step(tk, o, ck, a);
            && |tk'.slots| == SLOTS && ArmedHeld(tk')
            && (a.Continue? && tk.pc.AddObject? ==> SlotHolds(tk', tk.pc.key) >= 1)
  {
    var (tk', _, _) := Step(tk, o, ck, a);
    StepCount(tk, o, ck, a, PcKey(tk));
    if a.Continue? && tk.pc.AddObject? { CountMember(tk'.slots, SLOTS, tk.pc.index, tk.pc.key, SLOTS); }
    forall k | k in tk'.armed ensures SlotHolds(tk', k) >= 1 {
      StepCount(tk, o, ck, a, k);
    }
  }

  lemma {:induction false} StepKeepsFill(tk: Task, o: Obj, ck: Clock, a: Action)
    requires GoodStep(tk, o, ck, a) && a.Continue? && tk.pc.Fill?
    ensures var (tk', _, ck') := Step(tk, o, ck, a);
            TaskOk(tk', ck')
  {
    StepKeepsArmed(tk, o, ck, a);
    var i := FindSlot(tk.slots, tk.pc.key, 0);
    if i < SLOTS && tk.slots[i] == Held(tk.pc.key) { CountMember(tk.slots, SLOTS, i, tk.pc.key, SLOTS); }
    FillCount(tk, o, ck, a, PcKey(tk));
  }

  lemma {:induction false} StepKeepsMarking(tk: Task, o: Obj, ck: Clock, a: Action)
    requires GoodStep(tk, o, ck, a) && a.Continue?
    requires !Completing(tk.pc) && !tk.pc.Fill? && !tk.pc.Read? && !tk.pc.Swap?
    ensures var (tk', _, ck') := Step(tk, o, ck, a);
            TaskOk(tk', ck')
  {
    if !tk.pc.NamespaceAdd? && !tk.pc.NamespaceClock? && !tk.pc.NamespaceBump? {
      StepKeepsArmed(tk, o, ck, a);
    }
    StepCount(tk, o, ck, a, PcKey(tk));
  }

  lemma {:induction false} StepKeepsRead(tk: Task, o: Obj, ck: Clock, a: Action)
    requires GoodStep(tk, o, ck, a) && a.Continue? && tk.pc.Read?
    ensures var (tk', _, ck') := Step(tk, o, ck, a);
            TaskOk(tk', ck')
  {
    StepLeavesSlots(tk, o, ck, a);
  }

  lemma {:induction false} AdvanceEnds(tk: Task, ck: Clock)
    requires TaskOk(tk, ck) && tk.pc.Swap?
    ensures TaskOk(AfterAdvance(tk), ck)
  {
  }

  lemma {:induction false} StepKeepsSwap(tk: Task, o: Obj, ck: Clock, a: Action)
    requires GoodStep(tk, o, ck, a) && a.Continue? && tk.pc.Swap?
    ensures var (tk', _, ck') := Step(tk, o, ck, a);
            TaskOk(tk', ck')
  {
    AdvanceEnds(tk, ck);
    if tk.pc.attempt != ATTEMPTS && tk.pc.previous < tk.pc.next && Target(o, tk.pc.goal) != tk.pc.previous {
      StepLeavesSlots(tk, o, ck, a);
    }
  }

  lemma {:induction false} StepKeepsAction(tk: Task, o: Obj, ck: Clock, a: Action)
    requires GoodStep(tk, o, ck, a) && !a.Continue?
    ensures var (tk', _, ck') := Step(tk, o, ck, a);
            TaskOk(tk', ck')
  {
    StepLeavesSlots(tk, o, ck, a);
    var (tk', _, ck') := Step(tk, o, ck, a);
    assert forall k :: SlotHolds(tk', k) == SlotHolds(tk, k);
  }

  lemma {:induction false} StepKeepsCompletion(tk: Task, o: Obj, ck: Clock, a: Action)
    requires GoodStep(tk, o, ck, a) && a.Continue? && Completing(tk.pc) && !tk.pc.Read? && !tk.pc.Swap?
    ensures var (tk', _, ck') := Step(tk, o, ck, a);
            TaskOk(tk', ck')
  {
  }

  lemma {:induction false} StepKeepsTask(tk: Task, o: Obj, ck: Clock, a: Action)
    requires GoodStep(tk, o, ck, a)
    ensures var (tk', o', ck') := Step(tk, o, ck, a);
            TaskOk(tk', ck') && ObjOk(o', ck')
  {
    StepKeepsObject(tk, o, ck, a);
    if !a.Continue? { StepKeepsAction(tk, o, ck, a); }
    else if tk.pc.Read? { StepKeepsRead(tk, o, ck, a); }
    else if tk.pc.Swap? { StepKeepsSwap(tk, o, ck, a); }
    else if Completing(tk.pc) { StepKeepsCompletion(tk, o, ck, a); }
    else if tk.pc.Fill? { StepKeepsFill(tk, o, ck, a); }
    else { StepKeepsMarking(tk, o, ck, a); }
  }

  lemma {:induction false} AdvancePublishes(tk: Task, o: Obj, ck: Clock, room: bool)
    requires |tk.slots| == SLOTS && (tk.pc.Read? || tk.pc.Swap?) && PcPublished(tk, o)
    requires StepContinue(tk, o, ck, room).2.lost == {}
    ensures PcPublished(StepContinue(tk, o, ck, room).0, StepContinue(tk, o, ck, room).1)
  {
  }

  lemma {:induction false} StepKeepsPublished(tk: Task, o: Obj, ck: Clock, a: Action)
    requires GoodStep(tk, o, ck, a)
    ensures var (tk', o', _) := Step(tk, o, ck, a);
            PcPublished(tk', o')
  {
    if a.Continue? && (tk.pc.Read? || tk.pc.Swap?) {
      AdvancePublishes(tk, o, ck, a.room);
    } else {
      OthersPublish(tk, o, ck, a);
    }
  }

  /** Outside the compare-and-swap loop a step never relies on a version it did not just publish. */
  lemma {:induction false} OthersPublish(tk: Task, o: Obj, ck: Clock, a: Action)
    requires |tk.slots| == SLOTS && PcPublished(tk, o) && Enabled(tk, a)
    requires a.Continue? ==> !tk.pc.Read? && !tk.pc.Swap?
    requires tk.pc.MountBump? ==> (tk.effect ==> tk.succeeded && tk.paths == 0)
    ensures var (tk', o', _) := Step(tk, o, ck, a);
            PcPublished(tk', o')
  {
  }

  predicate InMarking(pc: Pc) {
    pc.Reborn? || pc.RebornClock? || pc.Birth? || pc.Reserve? || pc.Mark? || pc.MarkClock?
  }

  predicate InNamespace(pc: Pc) {
    pc.NamespaceAdd? || pc.NamespaceClock? || pc.NamespaceBump? || pc.MountBump? || pc.MountObject? || pc.MountClock?
  }

  predicate InFilling(pc: Pc) {
    pc.Fill? || pc.AddObject? || pc.AddClock? || pc.Bump?
  }

  predicate MountNamed(tk: Task) {
    && (InNamespace(tk.pc) ==> tk.mount.Some?)
    && (tk.pc.User? ==> tk.mount == None)
    && (tk.pc.Mark? ==> tk.pc.marks != {})
  }

  /** The contributions of a task once the slots themselves are set aside: to the records, to the shared
      `active`, and to the shared `uncertain` beyond the marked records. */
  function Side(tk: Task): (int, int, int) {
    (B(MountHeld(tk)) - B(tk.pc.AddObject? || tk.pc.SlotClock?),
     B(MountCounted(tk)) - B(tk.pc.AddObject? || tk.pc.AddClock?),
     Debt(tk))
  }

  predicate Balanced(tk: Task, o: Obj, ck: Clock, tk': Task, o': Obj, ck': Clock, moved: int) {
    && o'.active - o.active == moved + Side(tk').0 - Side(tk).0
    && ck'.active - ck.active == moved + Side(tk').1 - Side(tk).1
    && ck'.uncertain - ck.uncertain == B(o'.uncertain != {}) - B(o.uncertain != {}) + Side(tk').2 - Side(tk).2
  }

  function Moved(tk: Task, a: Action, tk': Task): int {
    B(a.Continue? && tk.pc.Fill? && tk'.pc.AddObject?) - B(a.Continue? && tk.pc.SlotClock?)
  }

  lemma {:induction false} BalanceMarking(tk: Task, o: Obj, ck: Clock, a: Action)
    requires |tk.slots| == SLOTS && a.Continue? && InMarking(tk.pc) && MountNamed(tk)
    ensures var (tk', o', ck') := Step(tk, o, ck, a); Balanced(tk, o, ck, tk', o', ck', Moved(tk, a, tk'))
  {
    if tk.pc.Mark? { assert o.uncertain + tk.pc.marks != {}; }
  }

  lemma {:induction false} BalanceNamespace(tk: Task, o: Obj, ck: Clock, a: Action)
    requires |tk.slots| == SLOTS && a.Continue? && InNamespace(tk.pc) && MountNamed(tk)
    requires Step(tk, o, ck, a).2.lost == {}
    ensures var (tk', o', ck') := Step(tk, o, ck, a); Balanced(tk, o, ck, tk', o', ck', Moved(tk, a, tk'))
  {
  }

  lemma {:induction false} BalanceAdvance(tk: Task, o: Obj, ck: Clock, a: Action)
    requires |tk.slots| == SLOTS && a.Continue? && (tk.pc.Read? || tk.pc.Swap?)
    ensures var (tk', o', ck') := Step(tk, o, ck, a); Balanced(tk, o, ck, tk', o', ck', 0)
  {
  }

  lemma {:induction false} BalanceFilling(tk: Task, o: Obj, ck: Clock, a: Action)
    requires |tk.slots| == SLOTS && a.Continue? && InFilling(tk.pc)
    ensures var (tk', o', ck') := Step(tk, o, ck, a); Balanced(tk, o, ck, tk', o', ck', Moved(tk, a, tk'))
  {
    var (tk', _, _) := Step(tk, o, ck, a);
    assert tk'.mount == tk.mount;
  }

  lemma {:induction false} BalanceSlots(tk: Task, o: Obj, ck: Clock, a: Action)
    requires |tk.slots| == SLOTS && a.Continue? && (tk.pc.Scan? || tk.pc.SlotObject? || tk.pc.SlotClock?)
    ensures var (tk', o', ck') := Step(tk, o, ck, a); Balanced(tk, o, ck, tk', o', ck', Moved(tk, a, tk'))
  {
  }

  lemma {:induction false} BalanceAction(tk: Task, o: Obj, ck: Clock, a: Action)
    requires |tk.slots| == SLOTS && !a.Continue? && Enabled(tk, a) && MountNamed(tk)
    requires Step(tk, o, ck, a).2.lost == {}
    ensures var (tk', o', ck') := Step(tk, o, ck, a); Balanced(tk, o, ck, tk', o', ck', Moved(tk, a, tk'))
  {
  }

  /** Every atomic update is matched by a change of what a task accounts for. */
  lemma {:induction false} StepAccounts(tk: Task, o: Obj, ck: Clock, a: Action)
    requires GoodStep(tk, o, ck, a)
    ensures var (tk', o', ck') := Step(tk, o, ck, a);
            && |tk'.slots| == SLOTS
            && o'.active - o.active == HoldsAll(tk') - HoldsAll(tk)
            && ck'.active - ck.active == HoldsClock(tk') - HoldsClock(tk)
            && ck'.uncertain - ck.uncertain == B(o'.uncertain != {}) - B(o.uncertain != {}) + Debt(tk') - Debt(tk)
  {
    StepOccupied(tk, o, ck, a);
    if !a.Continue? { BalanceAction(tk, o, ck, a); }
    else if InMarking(tk.pc) { BalanceMarking(tk, o, ck, a); }
    else if InNamespace(tk.pc) { BalanceNamespace(tk, o, ck, a); }
    else if tk.pc.Read? || tk.pc.Swap? { BalanceAdvance(tk, o, ck, a); }
    else if InFilling(tk.pc) { BalanceFilling(tk, o, ck, a); }
    else { BalanceSlots(tk, o, ck, a); }
  }

  /** What a step does to the slot counts of an object, by program counter. */
  function SlotChange(tk: Task, a: Action, k: nat): int {
    if a.Continue? && tk.pc.AddObject? && tk.pc.key == k then 1
    else if a.Continue? && tk.pc.SlotObject? && tk.pc.key == k then -1
    else 0
  }

  function MountHolds(tk: Task, k: nat): int {
    B(MountHeld(tk) && tk.mount == Some(k))
  }

  /** Inside the bookkeeping of a mount change the program counter names the mount. */
  predicate MountKnown(tk: Task) {
    (tk.pc.NamespaceAdd? || tk.pc.NamespaceClock? || tk.pc.MountBump? || tk.pc.MountObject? || tk.pc.MountClock?) ==>
      tk.mount == Some(tk.pc.key)
  }

  predicate MovesCounts(tk: Task) {
    tk.pc.NamespaceAdd? || tk.pc.MountObject? || tk.pc.MountClock? || tk.pc.MountBump? || tk.pc.AddObject? ||
      tk.pc.SlotObject?
  }

  lemma {:induction false} MountMoves(tk: Task, o: Obj, ck: Clock, room: bool, k: nat)
    requires |tk.slots| == SLOTS && MountKnown(tk) && (tk.pc.MountBump? ==> o.present) && MovesCounts(tk)
    ensures var (tk', o', _) := StepContinue(tk, o, ck, room);
            SlotChange(tk, Continue(room), k) + MountHolds(tk', k) - MountHolds(tk, k) ==
              (if k == PcKey(tk) then o'.active - o.active else 0)
  {
  }

  predicate Advancing(tk: Task) {
    tk.pc.Read? || tk.pc.Swap? || tk.pc.Scan? || tk.pc.SlotClock? || tk.pc.Fill?
  }

  lemma {:induction false} AdvanceStays(tk: Task, o: Obj, ck: Clock, room: bool)
    requires |tk.slots| == SLOTS && Advancing(tk)
    ensures var (tk', o', _) := StepContinue(tk, o, ck, room);
            tk'.mount == tk.mount && MountHeld(tk') == MountHeld(tk) && o'.active == o.active
  {
  }

  lemma {:induction false} MarkingStays(tk: Task, o: Obj, ck: Clock, room: bool)
    requires |tk.slots| == SLOTS && !MovesCounts(tk) && !Advancing(tk)
    ensures var (tk', o', _) := StepContinue(tk, o, ck, room);
            tk'.mount == tk.mount && MountHeld(tk') == MountHeld(tk) && o'.active == o.active
  {
  }

  lemma {:induction false} ContinueAccountsMount(tk: Task, o: Obj, ck: Clock, room: bool, k: nat)
    requires |tk.slots| == SLOTS && MountKnown(tk) && (tk.pc.MountBump? ==> o.present)
    ensures var (tk', o', _) := StepContinue(tk, o, ck, room);
            SlotChange(tk, Continue(room), k) + MountHolds(tk', k) - MountHolds(tk, k) ==
              (if k == PcKey(tk) then o'.active - o.active else 0)
  {
    if MovesCounts(tk) {
      MountMoves(tk, o, ck, room, k);
    } else if Advancing(tk) {
      AdvanceStays(tk, o, ck, room);
    } else {
      MarkingStays(tk, o, ck, room);
    }
  }

  lemma {:induction false} OtherAccountsMount(tk: Task, o: Obj, ck: Clock, a: Action, k: nat)
    requires GoodStep(tk, o, ck, a) && !a.Continue?
    ensures var (tk', o', _) := Step(tk, o, ck, a); MountHolds(tk', k) == MountHolds(tk, k) && o'.active == o.active
  {
  }

  lemma {:induction false} StepAccountsObject(tk: Task, o: Obj, ck: Clock, a: Action, k: nat)
    requires GoodStep(tk, o, ck, a)
    ensures var (tk', o', _) := Step(tk, o, ck, a);
            && |tk'.slots| == SLOTS
            && Holds(tk', k) - Holds(tk, k) == (if k == Focus(tk, a) then o'.active - o.active else 0)
  {
    StepCount(tk, o, ck, a, k);
    if a.Continue? { ContinueAccountsMount(tk, o, ck, a.room, k); } else { OtherAccountsMount(tk, o, ck, a, k); }
  }

  /** A step that moves no slot keeps the promise of every slot. */
  lemma {:induction false} StepKeepsPromise(tk: Task, o: Obj, ck: Clock, a: Action, i: nat, since: nat)
    requires |tk.slots| == SLOTS && i < SLOTS && ck.version + 1 < WORD && since <= ck.version
    requires SlotPromise(tk.pc, i, since)
    ensures var (tk', _, _) := Step(tk, o, ck, a);
            (a.Continue? && tk.pc.SlotObject? && tk.pc.index == i) || SlotPromise(tk'.pc, i, since)
  {
  }

  lemma {:induction false} StepKeepsSlotGuard(tk: Task, o: Obj, ck: Clock, a: Action, i: nat, k: nat, since: nat)
    requires GoodStep(tk, o, ck, a) && since <= ck.version
    requires i < SLOTS && SlotGuards(tk, i, k, since)
    ensures var (tk', o', _) := Step(tk, o, ck, a);
            && |tk'.slots| == SLOTS
            && (SlotGuards(tk', i, k, since) || (k == Focus(tk, a) && o'.version > since))
  {
    StepKeepsPromise(tk, o, ck, a, i, since);
    if !MovesSlot(tk, a) {
      StepLeavesSlots(tk, o, ck, a);
    } else if tk.pc.SlotObject? && tk.pc.index == i {
      assert Step(tk, o, ck, a).1 == o.(active := o.active - 1);
    }
  }

  lemma {:induction false} ContinueKeepsMountGuard(tk: Task, o: Obj, ck: Clock, room: bool, k: nat, since: nat)
    requires GoodStep(tk, o, ck, Continue(room)) && since <= ck.version
    requires MountGuards(tk, k, since)
    ensures var (tk', o', _) := StepContinue(tk, o, ck, room);
            MountGuards(tk', k, since) || (k == PcKey(tk) && o'.version > since)
  {
  }

  lemma {:induction false} StepKeepsMountGuard(tk: Task, o: Obj, ck: Clock, a: Action, k: nat, since: nat)
    requires GoodStep(tk, o, ck, a) && since <= ck.version
    requires MountGuards(tk, k, since)
    ensures var (tk', o', _) := Step(tk, o, ck, a);
            MountGuards(tk', k, since) || (k == Focus(tk, a) && o'.version > since)
  {
    if a.Continue? { ContinueKeepsMountGuard(tk, o, ck, a.room, k, since); }
  }

  lemma {:induction false} StepKeepsGuard(tk: Task, o: Obj, ck: Clock, a: Action, k: nat, since: nat)
    requires GoodStep(tk, o, ck, a) && since <= ck.version
    requires Guards(tk, k, since)
    ensures var (tk', o', _) := Step(tk, o, ck, a);
            && |tk'.slots| == SLOTS
            && (Guards(tk', k, since) || (k == Focus(tk, a) && o'.version > since))
  {
    if i :| 0 <= i < SLOTS && SlotGuards(tk, i, k, since) {
      StepKeepsSlotGuard(tk, o, ck, a, i, k, since);
    } else {
      StepKeepsMountGuard(tk, o, ck, a, k, since);
    }
  }

  lemma {:induction false} GuardHolds(tk: Task, k: nat, since: nat)
    requires |tk.slots| == SLOTS && Guards(tk, k, since)
    ensures Holds(tk, k) >= 1
  {
    if i :| 0 <= i < SLOTS && SlotGuards(tk, i, k, since) {
      CountMember(tk.slots, Pending(tk.pc), i, k, SLOTS);
    }
  }

  /** An armed write is guarded against every clock value. */
  lemma {:induction false} ArmedGuards(tk: Task, k: nat, since: nat)
    requires |tk.slots| == SLOTS && SlotHolds(tk, k) >= 1 && !Completing(tk.pc)
    ensures Guards(tk, k, since)
  {
    var i := CountWitness(tk.slots, Pending(tk.pc), k, SLOTS);
    assert SlotGuards(tk, i, k, since);
  }
}

/** What the small steps add up to.  A hook that nothing interrupts, and a completion, as one change of the record, the
    clock and the task; and what holds of every step however they interleave: a hook that gives up marks a loss, the
    marks of loss are exactly those of the steps that gave something up, and the clock counts the values drawn. */
module VersionClockAlone {
  import opened Basics
  import opened VersionClock

  // ---------------------------------------------------------------- a program that nothing interrupts

  datatype Config = Config(task: Task, obj: Obj, clock: Clock)

  function Go(c: Config): (d: Config)
    requires |c.task.slots| == SLOTS
    ensures |d.task.slots| == SLOTS
  {
    var (tk, o, ck) := StepContinue(c.task, c.obj, c.clock, true);
    Config(tk, o, ck)
  }

  function GoOn(c: Config, n: nat): (d: Config)
    requires |c.task.slots| == SLOTS
    ensures |d.task.slots| == SLOTS
    decreases n
  {
    if n == 0 then c else GoOn(Go(c), n - 1)
  }

  lemma {:induction false} GoOnFurther(c: Config, n: nat, m: nat)
    requires |c.task.slots| == SLOTS
    ensures GoOn(c, n + m) == GoOn(GoOn(c, n), m)
    decreases n
  {
    if n > 0 { GoOnFurther(Go(c), n - 1, m); }
  }

  lemma {:induction false} OneGo(c: Config, d: Config)
    requires |c.task.slots| == SLOTS && Go(c) == d
    ensures GoOn(c, 1) == d
  {
    assert GoOn(d, 0) == d;
  }

  lemma {:induction false} GoThen(c: Config, d: Config, e: Config, n: nat)
    requires |c.task.slots| == SLOTS && Go(c) == d && GoOn(d, n) == e
    ensures GoOn(c, n + 1) == e
  {
  }

  function Newer(version: nat, next: nat): nat {
    if version >= next then version else next
  }

  // ---------------------------------------------------------------- the parts of a hook

  /** A new object under the record's name has none of the old one's marks. */
  lemma {:induction false} BirthAlone(c: Config, k: nat, marks: set<nat>) returns (n: nat)
    requires |c.task.slots| == SLOTS && c.task.pc == Reborn(k, marks)
    ensures GoOn(c, n) ==
      Config(c.task.(pc := Reserve(k, marks - {64})), c.obj.(uncertain := {}, born := true),
             c.clock.(uncertain := c.clock.uncertain - if c.obj.uncertain != {} then 1 else 0))
  {
    var c1 := Go(c);
    if c.obj.uncertain != {} {
      var c2 := Go(c1);
      assert c2.task.pc == Birth(k, marks);
      OneGo(c2, Go(c2));
      GoThen(c1, c2, Go(c2), 1);
      GoThen(c, c1, Go(c2), 2);
      n := 3;
    } else {
      assert c1.task.pc == Birth(k, marks);
      OneGo(c1, Go(c1));
      GoThen(c, c1, Go(c1), 1);
      n := 2;
    }
  }

  /** The marks a hook leaves on a record: neither of the two that only say what the hook is, and not that of an object
      older than the clock once its birth was seen. */
  function Left(marks: set<nat>, born: bool): set<nat> {
    marks - {8, 64} - if born then {32} else {}
  }

  function Marked(c: Config, k: nat, marks: set<nat>): Config {
    var left := Left(marks, c.obj.born);
    Config(c.task.(pc := Fill(k, 8 in marks)), c.obj.(uncertain := c.obj.uncertain + left),
           c.clock.(uncertain := c.clock.uncertain + if left != {} && c.obj.uncertain == {} then 1 else 0))
  }

  lemma {:induction false} MarkAlone(c: Config, k: nat, marks: set<nat>) returns (n: nat)
    requires |c.task.slots| == SLOTS && c.task.pc == Reserve(k, marks) && 64 !in marks
    ensures GoOn(c, n) == Marked(c, k, marks)
  {
    var left := Left(marks, c.obj.born);
    assert (if c.obj.born then marks - {32} else marks) - {8} == left;
    var c1 := Go(c);
    if left == {} {
      assert c.obj.uncertain + left == c.obj.uncertain;
      OneGo(c, c1);
      n := 1;
    } else {
      assert c1.task.pc == Mark(k, left, 8 in marks);
      var c2 := Go(c1);
      if c.obj.uncertain == {} {
        OneGo(c2, Go(c2));
        GoThen(c1, c2, Go(c2), 1);
        GoThen(c, c1, Go(c2), 2);
        n := 3;
      } else {
        OneGo(c1, c2);
        GoThen(c, c1, c2, 1);
        n := 2;
      }
    }
  }

  function Filled(c: Config, k: nat, names: bool): Config
    requires |c.task.slots| == SLOTS && FindSlot(c.task.slots, k, 0) < SLOTS
  {
    var i := FindSlot(c.task.slots, k, 0);
    var added := if c.task.slots[i] == Free then 1 else 0;
    Config(c.task.(pc := Bump(k, names), slots := c.task.slots[i := Held(k)]),
           c.obj.(active := c.obj.active + added), c.clock.(active := c.clock.active + added))
  }

  lemma {:induction false} FillAlone(c: Config, k: nat, names: bool) returns (n: nat)
    requires |c.task.slots| == SLOTS && c.task.pc == Fill(k, names) && FindSlot(c.task.slots, k, 0) < SLOTS
    ensures GoOn(c, n) == Filled(c, k, names)
  {
    var i := FindSlot(c.task.slots, k, 0);
    var c1 := Go(c);
    if c.task.slots[i] == Free {
      var c2 := Go(c1);
      OneGo(c2, Go(c2));
      GoThen(c1, c2, Go(c2), 1);
      GoThen(c, c1, Go(c2), 2);
      n := 3;
    } else {
      assert c.task.slots[i := Held(k)] == c.task.slots;
      OneGo(c, c1);
      n := 1;
    }
  }

  lemma {:induction false} AdvanceAlone(c: Config, k: nat, goal: Goal, next: nat)
    requires |c.task.slots| == SLOTS && c.task.pc == Read(k, goal, next)
    ensures GoOn(c, 2) ==
      Config(AfterAdvance(c.task.(pc := Swap(k, goal, next, Target(c.obj, goal), 0))),
             Store(c.obj, goal, Newer(Target(c.obj, goal), next)), c.clock)
  {
    var c1 := Go(c);
    assert c1.task.pc == Swap(k, goal, next, Target(c.obj, goal), 0);
    assert Store(c.obj, goal, Target(c.obj, goal)) == c.obj;
    OneGo(c1, Go(c1));
    GoThen(c, c1, Go(c1), 1);
  }

  function Bumped(c: Config, k: nat, names: bool): Config {
    var next := c.clock.version + 1;
    Config(c.task.(pc := Kernel, armed := c.task.armed + {k}),
           c.obj.(version := Newer(c.obj.version, next),
                  binding := if names then Newer(c.obj.binding, next) else c.obj.binding),
           c.clock.(version := next))
  }

  lemma {:induction false} BumpAlone(c: Config, k: nat, names: bool) returns (n: nat)
    requires |c.task.slots| == SLOTS && c.task.pc == Bump(k, names) && c.clock.version + 1 < WORD
    ensures GoOn(c, n) == Bumped(c, k, names)
  {
    var next := c.clock.version + 1;
    var c1 := Go(c);
    assert c1.task.pc == Read(k, ToVersion(names), next);
    AdvanceAlone(c1, k, ToVersion(names), next);
    var c2 := GoOn(c1, 2);
    if names {
      assert c2.task.pc == Read(k, ToBinding, next);
      AdvanceAlone(c2, k, ToBinding, next);
      GoOnFurther(c1, 2, 2);
      GoThen(c, c1, GoOn(c2, 2), 4);
      n := 5;
    } else {
      GoThen(c, c1, c2, 2);
      n := 3;
    }
  }

  // ---------------------------------------------------------------- a whole hook

  /** The record, the clock and the task after a hook that nothing interrupts and that loses nothing. */
  function Hooked(c: Config, k: nat, marks: set<nat>): Config
    requires |c.task.slots| == SLOTS && FindSlot(c.task.slots, k, 0) < SLOTS
  {
    var o, ck, next := c.obj, c.clock, c.clock.version + 1;
    var i := FindSlot(c.task.slots, k, 0);
    var added := if c.task.slots[i] == Free then 1 else 0;
    var kept := if 64 in marks then {} else o.uncertain;
    var left := Left(marks, o.born || 64 in marks);
    var record := Obj(true, Newer(o.version, next), o.active + added, kept + left,
      if 8 in marks then Newer(o.binding, next) else o.binding, o.born || 64 in marks);
    var clock := ck.(version := next, active := ck.active + added,
      uncertain := ck.uncertain - (if kept != o.uncertain then 1 else 0) + (if left != {} && kept == {} then 1 else 0));
    Config(c.task.(slots := c.task.slots[i := Held(k)], armed := c.task.armed + {k}), record, clock)
  }

  /** The hook of a task that is not interrupted: the record gets the next clock value, and as its binding too if
      names changed; it holds the record in one more slot, or the one it has; a new object starts without marks; the
      hook's own marks are added; and the clock's two counters follow. */
  lemma {:induction false} HookAlone(c: Config, k: nat, marks: set<nat>) returns (n: nat)
    requires |c.task.slots| == SLOTS && c.task.pc.Kernel? && c.clock.version + 1 < WORD
    requires FindSlot(c.task.slots, k, 0) < SLOTS
    ensures var (tk, o, ck) := Step(c.task, c.obj, c.clock, Hook(k, marks, true));
      GoOn(Config(tk, o, ck), n) == Hooked(c, k, marks)
  {
    var (tk, o, ck) := Step(c.task, c.obj, c.clock, Hook(k, marks, true));
    var c0 := Config(tk, o, ck);
    var a, b := 0, marks;
    var c1 := c0;
    if 64 in marks {
      a := BirthAlone(c0, k, marks);
      b := marks - {64};
      c1 := GoOn(c0, a);
    }
    assert c1.task.pc == Reserve(k, b) && GoOn(c0, a) == c1;
    assert Left(b, c1.obj.born) == Left(marks, c.obj.born || 64 in marks);
    var rest := ReservedAlone(c1, k, b);
    GoOnFurther(c0, a, rest);
    n := a + rest;
  }

  lemma {:induction false} ReservedAlone(c: Config, k: nat, marks: set<nat>) returns (n: nat)
    requires |c.task.slots| == SLOTS && c.task.pc == Reserve(k, marks) && 64 !in marks && c.obj.present
    requires FindSlot(c.task.slots, k, 0) < SLOTS && c.clock.version + 1 < WORD
    ensures GoOn(c, n) == Hooked(c, k, marks).(task := Hooked(c, k, marks).task.(pc := Kernel))
  {
    PartsMakeHook(c, k, marks);
    var c1 := Marked(c, k, marks);
    var c2 := Filled(c1, k, 8 in marks);
    var x := MarkAlone(c, k, marks);
    var y := FillAlone(c1, k, 8 in marks);
    var z := BumpAlone(c2, k, 8 in marks);
    Chained(c, c1, c2, Bumped(c2, k, 8 in marks), x, y, z);
    n := x + y + z;
  }

  lemma {:induction false} Chained(c: Config, c1: Config, c2: Config, c3: Config, x: nat, y: nat, z: nat)
    requires |c.task.slots| == SLOTS && GoOn(c, x) == c1
    requires |c1.task.slots| == SLOTS && GoOn(c1, y) == c2
    requires |c2.task.slots| == SLOTS && GoOn(c2, z) == c3
    ensures GoOn(c, x + y + z) == c3
  {
    GoOnFurther(c, x, y);
    GoOnFurther(c, x + y, z);
  }

  lemma {:induction false} PartsMakeHook(c: Config, k: nat, marks: set<nat>)
    requires |c.task.slots| == SLOTS && FindSlot(c.task.slots, k, 0) < SLOTS && c.obj.present && 64 !in marks
    ensures Bumped(Filled(Marked(c, k, marks), k, 8 in marks), k, 8 in marks) ==
      Hooked(c, k, marks).(task := Hooked(c, k, marks).task.(pc := Kernel))
  {
  }

  // ---------------------------------------------------------------- a completion

  /** The end of a call settles each record it held: it gets a new version and one holder less, and the slot is free. */
  lemma {:induction false} SlotAlone(c: Config, k: nat, i: nat)
    requires |c.task.slots| == SLOTS && c.task.pc == Scan(i) && i < SLOTS && c.task.slots[i] == Held(k)
    requires c.obj.present && c.clock.version + 1 < WORD
    ensures var next := c.clock.version + 1;
      GoOn(c, 5) ==
      Config(c.task.(pc := Scan(i + 1), slots := c.task.slots[i := Free]),
             c.obj.(version := Newer(c.obj.version, next), active := c.obj.active - 1),
             c.clock.(version := next, active := c.clock.active - 1))
  {
    var next := c.clock.version + 1;
    var c1 := Go(c);
    AdvanceAlone(c1, k, ToSlot(i), next);
    var c3 := GoOn(c1, 2);
    assert c3.task.pc == SlotObject(k, i, next);
    var c4 := Go(c3);
    OneGo(c4, Go(c4));
    GoThen(c3, c4, Go(c4), 1);
    GoOnFurther(c1, 2, 2);
    GoThen(c, c1, Go(c4), 4);
  }

  /** And the mounts it changed: their record gets a new version exactly if the call succeeded and no path was resolved
      in it, and one holder less in any case. */
  lemma {:induction false} MountAlone(c: Config, k: nat) returns (n: nat)
    requires |c.task.slots| == SLOTS && c.task.pc == MountBump(k) && c.obj.present && c.clock.version + 1 < WORD
    ensures var next, publishes := c.clock.version + 1, c.task.succeeded && c.task.paths == 0;
      GoOn(c, n) ==
      Config(c.task.(pc := Scan(0), mount := None, effect := false),
             c.obj.(version := if publishes then Newer(c.obj.version, next) else c.obj.version,
                       active := c.obj.active - 1),
             c.clock.(version := next, active := c.clock.active - 1))
  {
    var next := c.clock.version + 1;
    var c1 := Go(c);
    if c.task.succeeded && c.task.paths == 0 {
      AdvanceAlone(c1, k, ToMount, next);
      var c3 := GoOn(c1, 2);
      MountLeaves(c3, k, next);
      GoOnFurther(c1, 2, 2);
      GoThen(c, c1, GoOn(c3, 2), 4);
      n := 5;
    } else {
      MountLeaves(c1, k, next);
      GoThen(c, c1, GoOn(c1, 2), 2);
      n := 3;
    }
  }

  lemma {:induction false} MountLeaves(c: Config, k: nat, next: nat)
    requires |c.task.slots| == SLOTS && c.task.pc == MountObject(k, next)
    ensures GoOn(c, 2) ==
      Config(c.task.(pc := Scan(0), mount := None, effect := false), c.obj.(active := c.obj.active - 1),
             c.clock.(active := c.clock.active - 1))
  {
    var c1 := Go(c);
    OneGo(c1, Go(c1));
    GoThen(c, c1, Go(c1), 1);
  }

  // ---------------------------------------------------------------- between calls

  /** Between calls a task has nothing open; in one, what it announced is not over before the end. */
  predicate Tidy(tk: Task) {
    && |tk.slots| == SLOTS
    && (tk.pc.User? ==> tk == IdleTask())
    && (tk.mount.None? ==> !tk.effect && (Settling(tk.pc) || tk.paths == 0))
    && (Settling(tk.pc) ==> tk.mount.None? && tk.armed == {})
    && (tk.pc.MountBump? || tk.pc.MountObject? || tk.pc.MountClock? || ToMounts(tk.pc) ==> tk.armed == {})
    && (tk.pc.MountClock? ==> !tk.effect)
  }

  predicate Settling(pc: Pc) {
    pc.Scan? || pc.SlotObject? || pc.SlotClock? || ((pc.Read? || pc.Swap?) && pc.goal.ToSlot?)
  }

  predicate ToMounts(pc: Pc) {
    (pc.Read? || pc.Swap?) && pc.goal.ToMount?
  }

  lemma {:induction false} StepKeepsTidy(tk: Task, o: Obj, ck: Clock, a: Action)
    requires Tidy(tk) && Enabled(tk, a)
    ensures Tidy(Step(tk, o, ck, a).0)
  {
    if !a.Continue? { ActionKeepsTidy(tk, o, ck, a); }
    else if tk.pc.Read? || tk.pc.Swap? { AdvanceKeepsTidy(tk, o, ck, a.room); }
    else if Completing(tk.pc) { CompletionKeepsTidy(tk, o, ck, a.room); }
    else { ProgramKeepsTidy(tk, o, ck, a.room); }
  }

  lemma {:induction false} ActionKeepsTidy(tk: Task, o: Obj, ck: Clock, a: Action)
    requires Tidy(tk) && Enabled(tk, a) && !a.Continue?
    ensures Tidy(Step(tk, o, ck, a).0)
  {
  }

  lemma {:induction false} AdvanceKeepsTidy(tk: Task, o: Obj, ck: Clock, room: bool)
    requires Tidy(tk) && (tk.pc.Read? || tk.pc.Swap?)
    ensures Tidy(StepContinue(tk, o, ck, room).0)
  {
    if tk.pc.Swap? { EndKeepsTidy(tk); }
  }

  lemma {:induction false} EndKeepsTidy(tk: Task)
    requires Tidy(tk) && tk.pc.Swap?
    ensures Tidy(AfterAdvance(tk))
  {
  }

  lemma {:induction false} CompletionKeepsTidy(tk: Task, o: Obj, ck: Clock, room: bool)
    requires Tidy(tk) && Completing(tk.pc) && !tk.pc.Read? && !tk.pc.Swap?
    ensures Tidy(StepContinue(tk, o, ck, room).0)
  {
    if tk.pc.Scan? { ScanKeepsTidy(tk, o, ck, room); }
  }

  lemma {:induction false} ScanKeepsTidy(tk: Task, o: Obj, ck: Clock, room: bool)
    requires Tidy(tk) && tk.pc.Scan?
    ensures Tidy(StepContinue(tk, o, ck, room).0)
  {
  }

  lemma {:induction false} ProgramKeepsTidy(tk: Task, o: Obj, ck: Clock, room: bool)
    requires Tidy(tk) && !Completing(tk.pc) && !tk.pc.Read? && !tk.pc.Swap? && !tk.pc.User? && !tk.pc.Kernel?
    ensures Tidy(StepContinue(tk, o, ck, room).0)
  {
    if tk.pc.Fill? { FillKeepsTidy(tk, o, ck, room); }
    else if tk.pc.Reserve? || tk.pc.Mark? || tk.pc.Reborn? { MarkKeepsTidy(tk, o, ck, room); }
  }

  lemma {:induction false} FillKeepsTidy(tk: Task, o: Obj, ck: Clock, room: bool)
    requires Tidy(tk) && tk.pc.Fill?
    ensures Tidy(StepContinue(tk, o, ck, room).0)
  {
  }

  lemma {:induction false} MarkKeepsTidy(tk: Task, o: Obj, ck: Clock, room: bool)
    requires Tidy(tk) && (tk.pc.Reserve? || tk.pc.Mark? || tk.pc.Reborn?)
    ensures Tidy(StepContinue(tk, o, ck, room).0)
  {
  }

  /** In every run a task that is between calls is as it was at the start: whatever its calls did, nothing of them is
      left to disturb the next. */
  lemma {:induction false} NothingLeftOver(s: State, trace: seq<Event>, t: nat)
    requires Initial(s) && Possible(s, trace) && t < |s.tasks|
    ensures var r := Run(s, trace); t < |r.tasks| && (r.tasks[t].pc.User? ==> r.tasks[t] == IdleTask())
  {
    RunKeepsTidy(s, trace);
  }

  predicate AllTidy(s: State) {
    forall t :: 0 <= t < |s.tasks| ==> Tidy(s.tasks[t])
  }

  lemma {:induction false} RunKeepsTidy(s: State, trace: seq<Event>)
    requires AllTidy(s) && Possible(s, trace)
    ensures AllTidy(Run(s, trace)) && |Run(s, trace).tasks| == |s.tasks|
    decreases |trace|
  {
    if trace != [] {
      HappenKeepsTidy(s, trace[0]);
      RunKeepsTidy(Happen(s, trace[0]), trace[1..]);
    }
  }

  lemma {:induction false} HappenKeepsTidy(s: State, e: Event)
    requires AllTidy(s) && CanHappen(s, e)
    ensures AllTidy(Happen(s, e)) && |Happen(s, e).tasks| == |s.tasks|
  {
    match e
    case Act(t, a) => StepKeepsTidy(s.tasks[t], s.objs[Focus(s.tasks[t], a)], s.clock, a);
    case _ =>
  }

  // ---------------------------------------------------------------- losses and draws

  /** What a step gives up: a swap after its last attempt, a hook for want of room for the task, of a record or of a
      slot, a clock value that has wrapped, and a change of mounts without a record. */
  function Loss(tk: Task, o: Obj, ck: Clock, a: Action): set<nat>
    requires |tk.slots| == SLOTS
  {
    match a
    case Hook(_, _, room) => if o.present || room then {} else {8}
    case EnterNamespace(_, room) => if o.present || room then {} else {128}
    case Continue(room) =>
      if tk.pc.Swap? && tk.pc.attempt == ATTEMPTS then {2}
      else if tk.pc.Reserve? && !room then {4}
      else if tk.pc.Fill? && NoSlot(tk.slots, tk.pc.key) then {16}
      else if tk.pc.Bump? && (ck.version + 1) % WORD == 0 then {64}
      else if tk.pc.MountBump? && !o.present then {128} else {}
    case _ => {}
  }

  /** The task has no slot for the record. */
  predicate NoSlot(slots: seq<Slot>, k: nat) {
    forall i :: 0 <= i < |slots| ==> slots[i] != Free && slots[i] != Held(k)
  }

  lemma {:induction false} NoSlotExactly(slots: seq<Slot>, k: nat, from: nat)
    requires |slots| == SLOTS && from <= SLOTS && NoSlot(slots[..from], k)
    ensures FindSlot(slots, k, from) == SLOTS <==> NoSlot(slots, k)
    decreases SLOTS - from
  {
    if from < SLOTS && slots[from] != Free && slots[from] != Held(k) {
      assert slots[..from + 1] == slots[..from] + [slots[from]];
      NoSlotExactly(slots, k, from + 1);
    } else if from == SLOTS {
      assert slots[..from] == slots;
    }
  }

  /** The steps that draw a value from the clock. */
  predicate Draws(tk: Task, o: Obj, a: Action)
    requires |tk.slots| == SLOTS
  {
    a.Continue? &&
    (tk.pc.NamespaceBump? || tk.pc.Bump? || tk.pc.MountBump? ||
     (tk.pc.Scan? && tk.pc.index < SLOTS && tk.slots[tk.pc.index].Held? && o.present))
  }

  lemma {:induction false} StepLosesExactly(tk: Task, o: Obj, ck: Clock, a: Action)
    requires |tk.slots| == SLOTS && Enabled(tk, a)
    ensures Step(tk, o, ck, a).2.lost == ck.lost + Loss(tk, o, ck, a)
  {
    if a.Continue? && tk.pc.Fill? { NoSlotExactly(tk.slots, tk.pc.key, 0); }
  }

  lemma {:induction false} StepDrawsExactly(tk: Task, o: Obj, ck: Clock, a: Action)
    requires |tk.slots| == SLOTS && Enabled(tk, a) && ck.version < WORD
    ensures Step(tk, o, ck, a).2.version == (ck.version + if Draws(tk, o, a) then 1 else 0) % WORD
  {
  }

  function Losses(s: State, trace: seq<Event>): set<nat>
    requires Possible(s, trace)
    decreases |trace|
  {
    if trace == [] then {} else EventLoss(s, trace[0]) + Losses(Happen(s, trace[0]), trace[1..])
  }

  function EventLoss(s: State, e: Event): set<nat>
    requires CanHappen(s, e)
  {
    match e
    case Act(t, a) => Loss(s.tasks[t], s.objs[Focus(s.tasks[t], a)], s.clock, a)
    case _ => {}
  }

  function EventDraws(s: State, e: Event): nat
    requires CanHappen(s, e)
  {
    match e
    case Act(t, a) => if Draws(s.tasks[t], s.objs[Focus(s.tasks[t], a)], a) then 1 else 0
    case _ => 0
  }

  lemma {:induction false} EventLosesExactly(s: State, e: Event)
    requires CanHappen(s, e)
    ensures Happen(s, e).clock.lost == s.clock.lost + EventLoss(s, e)
  {
    match e
    case Act(t, a) => StepLosesExactly(s.tasks[t], s.objs[Focus(s.tasks[t], a)], s.clock, a);
    case _ => assert Happen(s, e).clock == s.clock;
  }

  lemma {:induction false} EventDrawsExactly(s: State, e: Event)
    requires CanHappen(s, e) && s.clock.version < WORD
    ensures Happen(s, e).clock.version == (s.clock.version + EventDraws(s, e)) % WORD
  {
    match e
    case Act(t, a) => StepDrawsExactly(s.tasks[t], s.objs[Focus(s.tasks[t], a)], s.clock, a);
    case _ => assert Happen(s, e).clock == s.clock;
  }

  function Drawn(s: State, trace: seq<Event>): nat
    requires Possible(s, trace)
    decreases |trace|
  {
    if trace == [] then 0 else EventDraws(s, trace[0]) + Drawn(Happen(s, trace[0]), trace[1..])
  }

  /** In every run what is marked lost is exactly what its steps gave up, in the kinds of `Loss`: nothing is given up in
      silence, and nothing is marked without a cause. */
  lemma {:induction false} LostExactly(s: State, trace: seq<Event>)
    requires Possible(s, trace)
    ensures Run(s, trace).clock.lost == s.clock.lost + Losses(s, trace)
    decreases |trace|
  {
    if trace != [] {
      EventLosesExactly(s, trace[0]);
      LostExactly(Happen(s, trace[0]), trace[1..]);
    }
  }

  /** In every run the clock has counted the values drawn, so no two of them are equal before it wraps. */
  lemma {:induction false} DrawsAreCounted(s: State, trace: seq<Event>)
    requires Possible(s, trace) && s.clock.version < WORD
    ensures Run(s, trace).clock.version == (s.clock.version + Drawn(s, trace)) % WORD
    decreases |trace|
  {
    if trace != [] {
      var s1 := Happen(s, trace[0]);
      EventDrawsExactly(s, trace[0]);
      assert s1.clock.version < WORD;
      DrawsAreCounted(s1, trace[1..]);
      Wraps(s.clock.version, EventDraws(s, trace[0]), Drawn(s1, trace[1..]), s1.clock.version,
        Run(s1, trace[1..]).clock.version);
    }
  }

  lemma {:induction false} Wraps(version: nat, draws: nat, more: nat, next: nat, last: nat)
    requires version < WORD && draws <= 1
    requires next == (version + draws) % WORD && last == (next + more) % WORD
    ensures next < WORD && last == (version + (draws + more)) % WORD
  {
  }

  // ---------------------------------------------------------------- a hook that gives up

  /** The task is in a hook on this record. */
  predicate Hooking(tk: Task, k: nat) {
    match tk.pc
    case Read(key, goal, _) => key == k && (goal.ToVersion? || goal.ToBinding?)
    case Swap(key, goal, _, _, _) => key == k && (goal.ToVersion? || goal.ToBinding?)
    case Reborn(key, _) => key == k
    case RebornClock(key, _) => key == k
    case Birth(key, _) => key == k
    case Reserve(key, _) => key == k
    case Mark(key, _, _) => key == k
    case MarkClock(key, _) => key == k
    case Fill(key, _) => key == k
    case AddObject(key, _, _) => key == k
    case AddClock(key, _) => key == k
    case Bump(key, _) => key == k
    case _ => false
  }

  /** The hook is over: the kernel may write the record now, or the loss is marked. */
  predicate Over(tk: Task, ck: Clock, k: nat) {
    tk.pc.Kernel? && (k in tk.armed || ck.lost * {4, 16} != {})
  }

  lemma {:induction false} StepHooks(tk: Task, o: Obj, ck: Clock, a: Action, k: nat)
    requires |tk.slots| == SLOTS && Hooking(tk, k) && Enabled(tk, a)
    ensures var r := Step(tk, o, ck, a); Hooking(r.0, k) || Over(r.0, r.2, k)
  {
    var r := Step(tk, o, ck, a);
    if tk.pc.Reserve? && !a.room { assert 4 in r.2.lost * {4, 16}; }
    if tk.pc.Fill? && FindSlot(tk.slots, k, 0) == SLOTS { assert 16 in r.2.lost * {4, 16}; }
  }

  /** Every hook starts or marks the loss; and once it has started it goes on, whatever the others do, until the kernel
      may write the record, or until its loss is marked. */
  lemma {:induction false} EveryHookCounts(s: State, t: nat, k: nat, marks: set<nat>, room: bool, trace: seq<Event>)
    requires AllTidy(s) && CanHappen(s, Act(t, Hook(k, marks, room)))
    requires Possible(Happen(s, Act(t, Hook(k, marks, room))), trace)
    ensures t < |Run(Happen(s, Act(t, Hook(k, marks, room))), trace).tasks|
    ensures var s1 := Happen(s, Act(t, Hook(k, marks, room)));
      || 8 in s1.clock.lost || Hooking(Run(s1, trace).tasks[t], k)
      || exists i: nat :: OverBy(s1, trace, i, t, k)
  {
    var s1 := Happen(s, Act(t, Hook(k, marks, room)));
    HappenKeepsTidy(s, Act(t, Hook(k, marks, room)));
    RunKeepsTidy(s1, trace);
    if 8 !in s1.clock.lost { HookGoesOn(s1, trace, t, k); }
  }

  /** After that many events of the run the hook is over. */
  predicate OverBy(s: State, trace: seq<Event>, i: nat, t: nat, k: nat) {
    i <= |trace| && Possible(s, trace[..i]) &&
    var r := Run(s, trace[..i]); t < |r.tasks| && Over(r.tasks[t], r.clock, k)
  }

  lemma {:induction false} HookGoesOn(s: State, trace: seq<Event>, t: nat, k: nat)
    requires AllTidy(s) && t < |s.tasks| && Hooking(s.tasks[t], k) && Possible(s, trace)
    ensures |Run(s, trace).tasks| == |s.tasks|
    ensures Hooking(Run(s, trace).tasks[t], k) || exists i: nat :: OverBy(s, trace, i, t, k)
    decreases |trace|
  {
    RunKeepsTidy(s, trace);
    if trace != [] {
      var s1 := Happen(s, trace[0]);
      HappenKeepsTidy(s, trace[0]);
      if Hooking(s1.tasks[t], k) {
        HookGoesOn(s1, trace[1..], t, k);
        if i: nat :| OverBy(s1, trace[1..], i, t, k) {
          assert trace[..i + 1][1..] == trace[1..][..i] && trace[..i + 1][0] == trace[0];
          assert OverBy(s, trace, i + 1, t, k);
        }
      } else {
        var a := trace[0].action;
        StepHooks(s.tasks[t], s.objs[Focus(s.tasks[t], a)], s.clock, a, k);
        assert trace[..1] == [trace[0]] && [trace[0]][1..] == [];
        assert Run(s, trace[..1]) == s1 && s1.tasks[t] == Step(s.tasks[t], s.objs[Focus(s.tasks[t], a)], s.clock, a).0;
        assert OverBy(s, trace, 1, t, k);
      }
    }
  }
}

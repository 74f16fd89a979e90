/** The object version clock of the execution-domain collector: tasks mark objects dirty through
    BPF programs made of single atomic operations, and clients ask which objects changed since a
    clock value they sampled.  Every fetch-add, fetch-or, compare-and-swap and map lookup is one step
    and the steps of all tasks and clients interleave in any order. */
module VersionClock {
  import opened Basics

  const WORD := 0x1_0000_0000_0000_0000
  const ATTEMPTS := 32
  const SLOTS := 8

  /** One record of the `versions` map.  A record that was never inserted reads as all zero. */
  datatype Obj = Obj(present: bool, version: nat, active: int, uncertain: set<nat>, binding: nat, born: bool)

  datatype Clock = Clock(version: nat, lost: set<nat>, uncertain: int, active: int)

  datatype Slot = Free | Held(key: nat)

  /** Where the result of a compare-and-swap loop goes, and what the program does afterwards. */
  datatype Goal = ToVersion(names: bool) | ToBinding | ToMount | ToSlot(index: nat)

  /** The program counter of a task, with the locals its current program still needs. */
  datatype Pc =
    | User
    | Kernel
    | NamespaceAdd(key: nat)
    | NamespaceClock(key: nat)
    | NamespaceBump(key: nat)
    | Reborn(key: nat, marks: set<nat>)
    | RebornClock(key: nat, marks: set<nat>)
    | Birth(key: nat, marks: set<nat>)
    | Reserve(key: nat, marks: set<nat>)
    | Mark(key: nat, marks: set<nat>, names: bool)
    | MarkClock(key: nat, names: bool)
    | Fill(key: nat, names: bool)
    | AddObject(key: nat, index: nat, names: bool)
    | AddClock(key: nat, names: bool)
    | Bump(key: nat, names: bool)
    | Read(key: nat, goal: Goal, next: nat)
    | Swap(key: nat, goal: Goal, next: nat, previous: nat, attempt: nat)
    | MountBump(key: nat)
    | MountObject(key: nat, next: nat)
    | MountClock(key: nat)
    | Scan(index: nat)
    | SlotObject(key: nat, index: nat, next: nat)
    | SlotClock(key: nat, index: nat)

  /** `armed` and `effect` record what the kernel may do on behalf of a task: write an object whose
      hook returned, or change the mounts of the namespace it announced. */
  datatype Task = Task(pc: Pc, slots: seq<Slot>, mount: Option<nat>, paths: nat, succeeded: bool,
                       armed: set<nat>, effect: bool)

  datatype Action =
    | EnterCall
    | EnterNamespace(ns: nat, room: bool)
    | Hook(object: nat, marks: set<nat>, room: bool)
    | Continue(room: bool)
    | Write(object: nat)
    | MountEffect
    | ResolvePath
    | LeaveCall(ok: bool)

  // ---------------------------------------------------------------- one atomic step of one task

  predicate Completing(pc: Pc) {
    match pc
    case Read(_, goal, _) => goal.ToMount? || goal.ToSlot?
    case Swap(_, goal, _, _, _) => goal.ToMount? || goal.ToSlot?
    case _ => pc.MountBump? || pc.MountObject? || pc.MountClock? || pc.Scan? || pc.SlotObject? || pc.SlotClock?
  }

  predicate Enabled(tk: Task, a: Action) {
    match a
    case EnterCall => tk.pc.User?
    case EnterNamespace(_, _) => tk.pc.User?
    case Hook(_, _, _) => tk.pc.Kernel?
    case Continue(_) => !tk.pc.User? && !tk.pc.Kernel?
    case Write(k) => tk.pc.Kernel? && k in tk.armed
    case MountEffect => tk.pc.Kernel? && tk.mount.Some? && tk.paths == 0
    case ResolvePath => tk.pc.Kernel? && tk.mount.Some? && !tk.effect
    case LeaveCall(ok) => tk.pc.Kernel? && (tk.effect ==> ok)
  }

  /** The one record a step may touch. */
  function Focus(tk: Task, a: Action): nat {
    match a
    case EnterNamespace(ns, _) => ns
    case Hook(k, _, _) => k
    case Continue(_) => PcKey(tk)
    case Write(k) => k
    case MountEffect => if tk.mount.Some? then tk.mount.value else 0
    case _ => 0
  }

  function PcKey(tk: Task): nat {
    match tk.pc
    case User => 0
    case Kernel => 0
    case Scan(i) => if i < |tk.slots| && tk.slots[i].Held? then tk.slots[i].key else 0
    case _ => tk.pc.key
  }

  function Next(version: nat): nat {
    (version + 1) % WORD
  }

  function Lose(ck: Clock, bit: nat): Clock {
    ck.(lost := ck.lost + {bit})
  }

  function ObjectFound(o: Obj, room: bool): Obj {
    if room then o.(present := true) else o
  }

  /** The first slot that already names `key`, or else the first free one; SLOTS when there is neither. */
  function FindSlot(slots: seq<Slot>, key: nat, from: nat): (i: nat)
    requires |slots| == SLOTS && from <= SLOTS
    ensures from <= i <= SLOTS
    ensures i < SLOTS ==> slots[i] == Held(key) || slots[i] == Free
    decreases SLOTS - from
  {
    if from == SLOTS then SLOTS
    else if slots[from] == Held(key) || slots[from] == Free then from
    else FindSlot(slots, key, from + 1)
  }

  function StepContinue(tk: Task, o: Obj, ck: Clock, room: bool): (r: (Task, Obj, Clock))
    requires |tk.slots| == SLOTS
  {
    match tk.pc
    case User => (tk, o, ck)
    case Kernel => (tk, o, ck)
    case NamespaceAdd(k) => (tk.(pc := NamespaceClock(k)), o.(active := o.active + 1), ck)
    case NamespaceClock(k) => (tk.(pc := NamespaceBump(k)), o, ck.(active := ck.active + 1))
    case NamespaceBump(k) => (tk.(pc := Kernel), o, ck.(version := Next(ck.version)))
    case Reborn(k, marks) =>
      (tk.(pc := if o.uncertain != {} then RebornClock(k, marks) else Birth(k, marks)), o.(uncertain := {}), ck)
    case RebornClock(k, marks) => (tk.(pc := Birth(k, marks)), o, ck.(uncertain := ck.uncertain - 1))
    case Birth(k, marks) => (tk.(pc := Reserve(k, marks - {64})), o.(born := true), ck)
    case Reserve(k, marks) =>
      if !room then (tk.(pc := Kernel), o, Lose(ck, 4))
      else
        var kept := (if o.born then marks - {32} else marks) - {8};
        (tk.(pc := if kept == {} then Fill(k, 8 in marks) else Mark(k, kept, 8 in marks)), o, ck)
    case Mark(k, marks, names) =>
      (tk.(pc := if o.uncertain == {} then MarkClock(k, names) else Fill(k, names)),
       o.(uncertain := o.uncertain + marks), ck)
    case MarkClock(k, names) => (tk.(pc := Fill(k, names)), o, ck.(uncertain := ck.uncertain + 1))
    case Fill(k, names) =>
      var i := FindSlot(tk.slots, k, 0);
      if i == SLOTS then (tk.(pc := Kernel), o, Lose(ck, 16))
      else if tk.slots[i] == Held(k) then (tk.(pc := Bump(k, names)), o, ck)
      else (tk.(pc := AddObject(k, i, names), slots := tk.slots[i := Held(k)]), o, ck)
    case AddObject(k, i, names) => (tk.(pc := AddClock(k, names)), o.(active := o.active + 1), ck)
    case AddClock(k, names) => (tk.(pc := Bump(k, names)), o, ck.(active := ck.active + 1))
    case Bump(k, names) =>
      var n := Next(ck.version);
      var bumped := ck.(version := n);
      (tk.(pc := Read(k, ToVersion(names), n)), o, if n == 0 then Lose(bumped, 64) else bumped)
    case Read(k, goal, next) => (tk.(pc := Swap(k, goal, next, Target(o, goal), 0)), o, ck)
    case Swap(k, goal, next, previous, attempt) =>
      if attempt == ATTEMPTS then (AfterAdvance(tk), o, Lose(ck, 2))
      else if previous >= next then (AfterAdvance(tk), o, ck)
      else if Target(o, goal) == previous then (AfterAdvance(tk), Store(o, goal, next), ck)
      else (tk.(pc := Swap(k, goal, next, Target(o, goal), attempt + 1)), o, ck)
    case MountBump(k) =>
      var n := Next(ck.version);
      var bumped := ck.(version := n);
      if !o.present then (tk.(pc := Scan(0), mount := None, effect := false), o, Lose(bumped, 128))
      else (tk.(pc := if tk.succeeded && tk.paths == 0 then Read(k, ToMount, n) else MountObject(k, n)), o, bumped)
    case MountObject(k, _) => (tk.(pc := MountClock(k), effect := false), o.(active := o.active - 1), ck)
    case MountClock(k) => (tk.(pc := Scan(0), mount := None), o, ck.(active := ck.active - 1))
    case Scan(i) =>
      if i >= SLOTS then (tk.(pc := User, slots := seq(SLOTS, _ => Free), paths := 0, succeeded := false), o, ck)
      else if tk.slots[i].Held? && o.present then
        var n := Next(ck.version);
        (tk.(pc := Read(tk.slots[i].key, ToSlot(i), n)), o, ck.(version := n))
      else (tk.(pc := Scan(i + 1)), o, ck)
    case SlotObject(k, i, _) => (tk.(pc := SlotClock(k, i)), o.(active := o.active - 1), ck)
    case SlotClock(k, i) =>
      (tk.(pc := Scan(i + 1), slots := if i < SLOTS then tk.slots[i := Free] else tk.slots), o,
       ck.(active := ck.active - 1))
  }

  function Target(o: Obj, goal: Goal): nat {
    if goal.ToBinding? then o.binding else o.version
  }

  function Store(o: Obj, goal: Goal, next: nat): Obj {
    if goal.ToBinding? then o.(binding := next) else o.(version := next)
  }

  /** What follows a finished `advance`. */
  function AfterAdvance(tk: Task): Task
    requires tk.pc.Swap?
  {
    var Swap(k, goal, next, _, _) := tk.pc;
    match goal
    case ToVersion(names) =>
      if names then tk.(pc := Read(k, ToBinding, next)) else tk.(pc := Kernel, armed := tk.armed + {k})
    case ToBinding => tk.(pc := Kernel, armed := tk.armed + {k})
    case ToMount => tk.(pc := MountObject(k, next))
    case ToSlot(i) => tk.(pc := SlotObject(k, i, next))
  }

  function Step(tk: Task, o: Obj, ck: Clock, a: Action): (r: (Task, Obj, Clock))
    requires |tk.slots| == SLOTS
  {
    match a
    case EnterCall => (tk.(pc := Kernel), o, ck)
    case EnterNamespace(ns, room) =>
      var found := ObjectFound(o, room);
      if found.present then (tk.(pc := NamespaceAdd(ns), mount := Some(ns)), found, ck)
      else (tk.(pc := Kernel, mount := Some(ns)), found, Lose(ck, 128))
    case Hook(k, marks, room) =>
      var found := ObjectFound(o, room);
      if !found.present then (tk, found, Lose(ck, 8))
      else (tk.(pc := if 64 in marks then Reborn(k, marks) else Reserve(k, marks)), found, ck)
    case Continue(room) => StepContinue(tk, o, ck, room)
    case Write(_) => (tk, o, ck)
    case MountEffect => (tk.(effect := true), o, ck)
    case ResolvePath => (tk.(paths := tk.paths + 1), o, ck)
    case LeaveCall(ok) =>
      (tk.(pc := if tk.mount.Some? then MountBump(tk.mount.value) else Scan(0), succeeded := ok, armed := {}), o, ck)
  }

  // ---------------------------------------------------------------- the whole system

  /** One object of a CHANGES request: flag 1 asks for its content, flag 2 for its name bindings. */
  datatype Probe = Probe(key: nat, content: bool, names: bool)

  /** The answer for one record, with what had really happened to it when the record was read:
      `written` since the sampled version, `everWritten` since the first sample of the chain. */
  datatype Verdict = Verdict(probe: Probe, clean: bool, written: bool, everWritten: bool)

  datatype Phase = Idle | Asking(version: nat, rest: seq<Probe>, mountRead: bool, verdicts: seq<Verdict>)

  /** An answer a client was given: what it asked, the sample it asked against, the version it was handed, what was read
      for it, and the records that every answer before it in the chain reported clean. */
  datatype Reply = Reply(asked: seq<Probe>, since: nat, version: nat, verdicts: seq<Verdict>, kept: set<nat>)

  /** A client of the collector.  `window`, `later`, `chain`, `kept`, `asked` and `replies` are history: the writes, as
      (task, record) pairs, since the value in `since` and since the value the current request will
      return; the records written since the first sample; the records every answered request of
      the chain reported clean; what the current request asks; and all answers so far. */
  datatype Client = Client(since: nat, mount: nat, phase: Phase, window: set<(nat, nat)>, later: set<(nat, nat)>,
                           chain: set<nat>, kept: set<nat>, asked: seq<Probe>, replies: seq<Reply>)

  datatype State = State(objs: seq<Obj>, clock: Clock, tasks: seq<Task>, clients: seq<Client>)

  datatype Event =
    | Act(task: nat, action: Action)
    | Sample(client: nat)
    | Begin(client: nat, probes: seq<Probe>)
    | Look(client: nat)
    | LookMount(client: nat)
    | Confirm(client: nat)

  function IdleTask(): Task {
    Task(User, seq(SLOTS, _ => Free), None, 0, false, {}, false)
  }

  predicate Initial(s: State) {
    && |s.objs| > 0
    && (forall k :: 0 <= k < |s.objs| ==> s.objs[k] == Obj(false, 0, 0, {}, 0, false))
    && s.clock == Clock(0, {}, 0, 0)
    && (forall t :: 0 <= t < |s.tasks| ==> s.tasks[t] == IdleTask())
    && (forall c :: 0 <= c < |s.clients| ==> s.clients[c].mount < |s.objs|)
    && (forall c :: 0 <= c < |s.clients| ==>
       s.clients[c] == Client(0, s.clients[c].mount, Idle, {}, {}, {}, Below(|s.objs|), [], []))
  }

  predicate CanHappen(s: State, e: Event) {
    match e
    case Act(t, a) =>
      t < |s.tasks| && |s.tasks[t].slots| == SLOTS && Enabled(s.tasks[t], a) && Focus(s.tasks[t], a) < |s.objs|
    case Sample(c) => c < |s.clients| && s.clients[c].phase.Idle?
    case Begin(c, probes) => c < |s.clients| && s.clients[c].phase.Idle? &&
      forall p :: p in probes ==> p.key < |s.objs| && (p.content || p.names)
    case Look(c) => c < |s.clients| && s.clients[c].phase.Asking? && s.clients[c].phase.rest != [] &&
      s.clients[c].phase.rest[0].key < |s.objs|
    case LookMount(c) => c < |s.clients| && s.clients[c].phase.Asking? && s.clients[c].phase.rest == [] &&
      !s.clients[c].phase.mountRead && s.clients[c].mount < |s.objs|
    case Confirm(c) => c < |s.clients| && s.clients[c].phase.Asking? && s.clients[c].phase.mountRead
  }

  /** The test CHANGES makes on one record it read. */
  predicate Dirty(o: Obj, p: Probe, since: nat) {
    || (p.content && (o.version > since || o.active != 0 || o.uncertain - {4, 16, 32} != {}))
    || (p.names && o.binding > since)
  }

  predicate In(w: set<(nat, nat)>, k: nat) {
    exists p :: p in w && p.1 == k
  }

  function NoteWrite(c: Client, t: nat, k: nat): Client {
    c.(window := c.window + {(t, k)}, chain := c.chain + {k},
       later := if c.phase.Asking? then c.later + {(t, k)} else c.later)
  }

  function Notes(cs: seq<Client>, t: nat, k: nat): seq<Client> {
    seq(|cs|, i requires 0 <= i < |cs| => NoteWrite(cs[i], t, k))
  }

  function Happen(s: State, e: Event): State
    requires CanHappen(s, e)
  {
    match e
    case Act(t, a) =>
      var k := Focus(s.tasks[t], a);
      var (tk, o, ck) := Step(s.tasks[t], s.objs[k], s.clock, a);
      State(s.objs[k := o], ck, s.tasks[t := tk],
            if a.Write? || a.MountEffect? then Notes(s.clients, t, k) else s.clients)
    case Sample(c) =>
      PutClient(s, c, s.clients[c].(since := s.clock.version, window := {}, chain := {}, kept := Below(|s.objs|)))
    case Begin(c, probes) =>
      if s.clock.lost != {} then s
      else PutClient(s, c, s.clients[c].(phase := Asking(s.clock.version, probes, false, []), later := {},
                                                asked := probes))
    case Look(c) =>
      var cl := s.clients[c];
      var p := cl.phase.rest[0];
      PutClient(s, c, cl.(phase := cl.phase.(rest := cl.phase.rest[1..],
                          verdicts := cl.phase.verdicts + [Observe(cl, s.objs[p.key], p)])))
    case LookMount(c) =>
      var cl := s.clients[c];
      var o := s.objs[cl.mount];
      if o.version > cl.since || o.active != 0 || o.uncertain != {} then PutClient(s, c, cl.(phase := Idle))
      else PutClient(s, c, cl.(phase := cl.phase.(mountRead := true,
                               verdicts := cl.phase.verdicts + [Observe(cl, o, Probe(cl.mount, true, false))])))
    case Confirm(c) =>
      var cl := s.clients[c];
      if s.clock.lost != {} then PutClient(s, c, cl.(phase := Idle))
      else PutClient(s, c, cl.(since := cl.phase.version, phase := Idle, window := cl.later,
                               replies := cl.replies +
                                 [Reply(cl.asked, cl.since, cl.phase.version, cl.phase.verdicts, cl.kept)],
                               kept := set k | k in cl.kept && ReportedClean(cl.phase.verdicts, k)))
  }

  function PutClient(s: State, c: nat, cl: Client): State
    requires c < |s.clients|
  {
    s.(clients := s.clients[c := cl])
  }

  function Observe(cl: Client, o: Obj, p: Probe): Verdict {
    Verdict(p, !Dirty(o, p, cl.since), In(cl.window, p.key), p.key in cl.chain)
  }

  predicate ReportedClean(vs: seq<Verdict>, k: nat) {
    exists v :: v in vs && v.probe.key == k && v.probe.content && v.clean
  }

  function Run(s: State, trace: seq<Event>): (r: State)
    requires Possible(s, trace)
    decreases |trace|
  {
    if trace == [] then s else Run(Happen(s, trace[0]), trace[1..])
  }

  predicate Possible(s: State, trace: seq<Event>)
    decreases |trace|
  {
    trace == [] || (CanHappen(s, trace[0]) && Possible(Happen(s, trace[0]), trace[1..]))
  }
}

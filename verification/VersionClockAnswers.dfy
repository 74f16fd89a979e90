/** The answers clients are given, and when they are refused.  What is said here holds of every run, losses included:
    no answer is given once one is marked. */
module VersionClockAnswers {
  import opened Basics
  import opened VersionClock
  import opened VersionClockSteps
  import opened VersionClockSafety
  import opened VersionClockAlone

  // ---------------------------------------------------------------- what an answer rests on

  function ProbesOf(vs: seq<Verdict>): (r: seq<Probe>)
    ensures |r| == |vs|
  {
    seq(|vs|, i requires 0 <= i < |vs| => vs[i].probe)
  }

  function MountProbe(mount: nat): Probe {
    Probe(mount, true, false)
  }

  /** The mount record was read last, found clean, and had not been written since the sample. */
  predicate MountUntouched(vs: seq<Verdict>, mount: nat) {
    vs != [] && var v := vs[|vs| - 1]; v.probe == MountProbe(mount) && v.clean && !v.written
  }

  predicate Unwritten(v: Verdict, kept: set<nat>) {
    v.probe.content && v.clean ==> !v.written && (v.probe.key in kept ==> !v.everWritten)
  }

  /** Every probe asked is answered, in order, and after them the mount. */
  predicate SoundReply(r: Reply, mount: nat) {
    && ProbesOf(r.verdicts) == r.asked + [MountProbe(mount)]
    && MountUntouched(r.verdicts, mount)
    && forall v :: v in r.verdicts ==> Unwritten(v, r.kept)
  }

  predicate AskedInOrder(cl: Client) {
    cl.phase.Asking? ==>
      if cl.phase.mountRead
      then
        && cl.phase.rest == [] && ProbesOf(cl.phase.verdicts) == cl.asked + [MountProbe(cl.mount)]
        && cl.phase.verdicts[|cl.phase.verdicts| - 1].clean
      else ProbesOf(cl.phase.verdicts) + cl.phase.rest == cl.asked
  }

  predicate AnsweredWell(cl: Client) {
    AskedInOrder(cl) && forall r :: r in cl.replies ==> SoundReply(r, cl.mount)
  }

  predicate AnswersInv(s: State) {
    && (s.clock.lost == {} ==> Inv(s))
    && forall c :: 0 <= c < |s.clients| ==> AnsweredWell(s.clients[c])
  }

  lemma {:induction false} NotesKeepAnswers(s: State, t: nat, a: Action)
    requires CanHappen(s, Act(t, a)) && forall c :: 0 <= c < |s.clients| ==> AnsweredWell(s.clients[c])
    ensures var s' := Happen(s, Act(t, a)); forall c :: 0 <= c < |s'.clients| ==> AnsweredWell(s'.clients[c])
  {
    var s' := Happen(s, Act(t, a));
    forall c | 0 <= c < |s'.clients| ensures AnsweredWell(s'.clients[c]) {
      assert AnsweredWell(s.clients[c]);
    }
  }

  /** A request about to be answered, with nothing lost, read the mount record before anything could have changed it. */
  lemma {:induction false} ConfirmedWell(s: State, c: nat)
    requires Inv(s) && c < |s.clients| && AnsweredWell(s.clients[c])
    requires s.clients[c].phase.Asking? && s.clients[c].phase.mountRead
    ensures var cl := s.clients[c];
      SoundReply(Reply(cl.asked, cl.since, cl.phase.version, cl.phase.verdicts, cl.kept), cl.mount)
  {
    var cl := s.clients[c];
    assert ClientOk(cl, s);
    var vs := cl.phase.verdicts;
    var last := vs[|vs| - 1];
    assert ProbesOf(vs)[|vs| - 1] == last.probe;
    assert SoundVerdict(cl, last);
    forall v | v in vs ensures Unwritten(v, cl.kept) { assert SoundVerdict(cl, v); }
  }

  lemma {:induction false} LooksInOrder(cl: Client, v: Verdict)
    requires AskedInOrder(cl) && cl.phase.Asking? && !cl.phase.mountRead && cl.phase.rest != []
    requires v.probe == cl.phase.rest[0]
    ensures ProbesOf(cl.phase.verdicts + [v]) + cl.phase.rest[1..] == cl.asked
  {
    var vs := cl.phase.verdicts;
    assert ProbesOf(vs + [v]) == ProbesOf(vs) + [v.probe];
    assert cl.phase.rest == [cl.phase.rest[0]] + cl.phase.rest[1..];
  }

  lemma {:induction false} LooksLast(cl: Client, v: Verdict)
    requires AskedInOrder(cl) && cl.phase.Asking? && !cl.phase.mountRead && cl.phase.rest == []
    requires v.probe == MountProbe(cl.mount)
    ensures ProbesOf(cl.phase.verdicts + [v]) == cl.asked + [MountProbe(cl.mount)]
  {
    var vs := cl.phase.verdicts;
    assert ProbesOf(vs + [v]) == ProbesOf(vs) + [v.probe];
  }

  lemma {:induction false} ClientsKeepAnswers(s: State, e: Event)
    requires AnswersInv(s) && CanHappen(s, e) && !e.Act?
    ensures var s' := Happen(s, e); forall c :: 0 <= c < |s'.clients| ==> AnsweredWell(s'.clients[c])
  {
    var s', cl := Happen(s, e), s.clients[e.client];
    assert AnsweredWell(cl);
    assert AnsweredWell(s'.clients[e.client]) by {
      match e
      case Look(_) => LooksInOrder(cl, Observe(cl, s.objs[cl.phase.rest[0].key], cl.phase.rest[0]));
      case LookMount(_) => LooksLast(cl, Observe(cl, s.objs[cl.mount], MountProbe(cl.mount)));
      case Confirm(c) => if s.clock.lost == {} { ConfirmedWell(s, c); }
      case Begin(_, probes) => assert [] + probes == probes;
      case Sample(_) =>
    }
    forall c | 0 <= c < |s'.clients| ensures AnsweredWell(s'.clients[c]) {
      if c != e.client { assert AnsweredWell(s.clients[c]); }
    }
  }

  lemma {:induction false} HappenKeepsAnswers(s: State, e: Event)
    requires AnswersInv(s) && CanHappen(s, e) && s.clock.version + 1 < WORD
    ensures AnswersInv(Happen(s, e))
  {
    HappenMonotone(s, e);
    if Happen(s, e).clock.lost == {} { HappenKeeps(s, e); }
    if e.Act? { NotesKeepAnswers(s, e.task, e.action); } else { ClientsKeepAnswers(s, e); }
  }

  lemma {:induction false} RunKeepsAnswers(s: State, trace: seq<Event>)
    requires AnswersInv(s) && Possible(s, trace) && s.clock.version + |trace| < WORD
    ensures AnswersInv(Run(s, trace))
    decreases |trace|
  {
    if trace != [] {
      HappenMonotone(s, trace[0]);
      HappenKeepsAnswers(s, trace[0]);
      RunKeepsAnswers(Happen(s, trace[0]), trace[1..]);
    }
  }

  /** In every run, whatever is lost in it: an answer a client was given says something of every probe it asked; the
      mount record, read after them, had not been written since the sample; and no record whose content the answer
      reports clean had been either, nor since the first sample if every earlier answer of the chain reported it
      clean. */
  lemma {:induction false} EveryAnswerIsSound(s: State, trace: seq<Event>, c: nat, r: Reply)
    requires Initial(s) && Possible(s, trace) && |trace| < WORD
    requires c < |Run(s, trace).clients| && r in Run(s, trace).clients[c].replies
    ensures SoundReply(r, Run(s, trace).clients[c].mount)
  {
    InitialInv(s);
    RunKeepsAnswers(s, trace);
    assert AnsweredWell(Run(s, trace).clients[c]);
  }

  /** The same while the last step of a request is still to come: behind a mount record that was read there is no change
      of the mounts since the sample. */
  lemma {:induction false} MountReadIsClean(s: State, trace: seq<Event>, c: nat)
    requires Initial(s) && Possible(s, trace) && |trace| < WORD
    requires var r := Run(s, trace);
      c < |r.clients| && r.clients[c].phase.Asking? && r.clients[c].phase.mountRead && r.clock.lost == {}
    ensures var cl := Run(s, trace).clients[c]; MountUntouched(cl.phase.verdicts, cl.mount)
  {
    InitialInv(s);
    RunKeepsAnswers(s, trace);
    ConfirmedWell(Run(s, trace), c);
  }

  // ---------------------------------------------------------------- what a version is

  /** The step that finishes an advance of a record's version. */
  predicate PublishesVersion(tk: Task, o: Obj, ck: Clock, a: Action)
    requires |tk.slots| == SLOTS
  {
    a.Continue? && tk.pc.Swap? && !tk.pc.goal.ToBinding? && !Step(tk, o, ck, a).0.pc.Swap?
  }

  /** The clock values that hooks and completions drew and published in the run, with the records they were drawn
      for. */
  function Published(s: State, trace: seq<Event>): set<(nat, nat)>
    requires Possible(s, trace)
    decreases |trace|
  {
    if trace == [] then {} else PublishedBy(s, trace[0]) + Published(Happen(s, trace[0]), trace[1..])
  }

  function PublishedBy(s: State, e: Event): set<(nat, nat)>
    requires CanHappen(s, e)
  {
    match e
    case Act(t, a) =>
      var tk := s.tasks[t];
      if PublishesVersion(tk, s.objs[Focus(tk, a)], s.clock, a) then {(tk.pc.key, tk.pc.next)} else {}
    case _ => {}
  }

  predicate VersionOk(o: Obj, k: nat, published: set<(nat, nat)>) {
    && (forall p :: p in published && p.0 == k ==> p.1 <= o.version)
    && (o.version == 0 || (k, o.version) in published)
  }

  predicate VersionsOk(s: State, published: set<(nat, nat)>) {
    forall k :: 0 <= k < |s.objs| ==> VersionOk(s.objs[k], k, published)
  }

  /** Only the end of an advance moves a version, and it moves it to its own value if that is newer. */
  lemma {:induction false} StepVersion(tk: Task, o: Obj, ck: Clock, a: Action)
    requires GoodStep(tk, o, ck, a)
    ensures var (_, o', _) := Step(tk, o, ck, a);
      o'.version == if PublishesVersion(tk, o, ck, a) && tk.pc.next > o.version then tk.pc.next else o.version
  {
    if a.Continue? && tk.pc.Swap? {
      SwapVersion(tk, o, ck, a);
    } else if a.Continue? {
      ContinueVersion(tk, o, ck, a.room);
    }
  }

  lemma {:induction false} SwapVersion(tk: Task, o: Obj, ck: Clock, a: Action)
    requires GoodStep(tk, o, ck, a) && a.Continue? && tk.pc.Swap?
    ensures var (_, o', _) := Step(tk, o, ck, a);
      o'.version == if PublishesVersion(tk, o, ck, a) && tk.pc.next > o.version then tk.pc.next else o.version
  {
  }

  lemma {:induction false} ContinueVersion(tk: Task, o: Obj, ck: Clock, room: bool)
    requires |tk.slots| == SLOTS && !tk.pc.Swap?
    ensures StepContinue(tk, o, ck, room).1.version == o.version
  {
  }

  lemma {:induction false} ActKeepsVersions(s: State, t: nat, a: Action, published: set<(nat, nat)>)
    requires Premise(s, Act(t, a)) && VersionsOk(s, published)
    ensures VersionsOk(Happen(s, Act(t, a)), published + PublishedBy(s, Act(t, a)))
  {
    ActGood(s, t, a);
    var tk, f := s.tasks[t], Focus(s.tasks[t], a);
    StepVersion(tk, s.objs[f], s.clock, a);
    var r, more := Happen(s, Act(t, a)), published + PublishedBy(s, Act(t, a));
    forall k | 0 <= k < |r.objs| ensures VersionOk(r.objs[k], k, more) {
      assert VersionOk(s.objs[k], k, published);
      if k == f { assert r.objs[k] == Step(tk, s.objs[f], s.clock, a).1; } else { assert r.objs[k] == s.objs[k]; }
    }
  }

  lemma {:induction false} EventKeepsVersions(s: State, e: Event, published: set<(nat, nat)>)
    requires Premise(s, e) && VersionsOk(s, published)
    ensures VersionsOk(Happen(s, e), published + PublishedBy(s, e))
  {
    if e.Act? { ActKeepsVersions(s, e.task, e.action, published); } else {
      assert Happen(s, e).objs == s.objs && published + {} == published;
    }
  }

  lemma {:induction false} RunKeepsVersions(s: State, trace: seq<Event>, published: set<(nat, nat)>)
    requires Inv(s) && Possible(s, trace) && s.clock.version + |trace| < WORD && Run(s, trace).clock.lost == {}
    requires VersionsOk(s, published)
    ensures VersionsOk(Run(s, trace), published + Published(s, trace))
    decreases |trace|
  {
    if trace == [] {
      assert published + {} == published;
    } else {
      HappenMonotone(s, trace[0]);
      VersionsNeverDecrease(Happen(s, trace[0]), trace[1..]);
      HappenKeeps(s, trace[0]);
      EventKeepsVersions(s, trace[0], published);
      var now, rest := PublishedBy(s, trace[0]), Published(Happen(s, trace[0]), trace[1..]);
      RunKeepsVersions(Happen(s, trace[0]), trace[1..], published + now);
      assert published + now + rest == published + (now + rest);
    }
  }

  // ---------------------------------------------------------------- when a record is reported, and a request refused

  predicate PublishedAbove(published: set<(nat, nat)>, k: nat, since: nat) {
    exists p :: p in published && p.0 == k && p.1 > since
  }

  /** Some task still has to settle the record: it filled a slot for it, or announced a change of this namespace. */
  predicate HeldBySome(s: State, k: nat) {
    exists t :: 0 <= t < |s.tasks| && |s.tasks[t].slots| == SLOTS && Holds(s.tasks[t], k) > 0
  }

  lemma {:induction false} ActiveExactly(s: State, k: nat)
    requires Inv(s) && k < |s.objs|
    ensures s.objs[k].active != 0 <==> HeldBySome(s, k)
  {
    forall t | 0 <= t < |s.tasks| ensures HoldsOf(k)(s.tasks[t]) == Holds(s.tasks[t], k) >= 0 {
      assert TaskOk(s.tasks[t], s.clock);
    }
    if HeldBySome(s, k) {
      var t :| 0 <= t < |s.tasks| && |s.tasks[t].slots| == SLOTS && Holds(s.tasks[t], k) > 0;
      SumAtLeast(s.tasks, t, HoldsOf(k));
    } else {
      SumZero(s.tasks, HoldsOf(k));
    }
  }

  lemma {:induction false} RecordExactly(s: State, trace: seq<Event>, k: nat, since: nat)
    requires Initial(s) && Possible(s, trace) && |trace| < WORD && Run(s, trace).clock.lost == {}
    requires k < |Run(s, trace).objs|
    ensures var r := Run(s, trace);
      && (r.objs[k].version > since <==> PublishedAbove(Published(s, trace), k, since))
      && (r.objs[k].active != 0 <==> HeldBySome(r, k))
  {
    InitialInv(s);
    RunKeepsInv(s, trace);
    RunKeepsVersions(s, trace, {});
    assert {} + Published(s, trace) == Published(s, trace);
    assert VersionOk(Run(s, trace).objs[k], k, Published(s, trace));
    ActiveExactly(Run(s, trace), k);
  }

  /** In every run with nothing lost, a query about a record's content reports it exactly if a hook or a completion
      published a newer value for it than the sample, a task still has to settle it, or it carries a mark that makes it
      doubtful; asked about names too, also if its binding is newer. */
  lemma {:induction false} ContentDirtyExactly(s: State, trace: seq<Event>, k: nat, since: nat, names: bool)
    requires Initial(s) && Possible(s, trace) && |trace| < WORD && Run(s, trace).clock.lost == {}
    requires k < |Run(s, trace).objs|
    ensures var r := Run(s, trace);
      Dirty(r.objs[k], Probe(k, true, names), since) <==>
        || PublishedAbove(Published(s, trace), k, since) || HeldBySome(r, k)
        || (exists m :: m in r.objs[k].uncertain && m != 4 && m != 16 && m != 32)
        || (names && r.objs[k].binding > since)
  {
    RecordExactly(s, trace, k, since);
    var u := Run(s, trace).objs[k].uncertain;
    if m :| m in u && m != 4 && m != 16 && m != 32 { assert m in u - {4, 16, 32}; }
    if u - {4, 16, 32} != {} {
      var m :| m in u - {4, 16, 32};
      assert m in u && m != 4 && m != 16 && m != 32;
    }
  }

  predicate GivesUp(s: State, c: nat)
    requires CanHappen(s, LookMount(c))
  {
    Happen(s, LookMount(c)).clients[c].phase.Idle?
  }

  /** With nothing lost, a request is refused for the mounts exactly if a change of them was published above the sample,
      one is under way, or the mount record carries any mark at all. */
  lemma {:induction false} RefusedExactly(s: State, trace: seq<Event>, c: nat)
    requires Initial(s) && Possible(s, trace) && |trace| < WORD && Run(s, trace).clock.lost == {}
    requires CanHappen(Run(s, trace), LookMount(c))
    ensures var r := Run(s, trace); var cl := r.clients[c];
      GivesUp(r, c) <==>
        || PublishedAbove(Published(s, trace), cl.mount, cl.since) || HeldBySome(r, cl.mount)
        || r.objs[cl.mount].uncertain != {}
  {
    var r := Run(s, trace);
    RecordExactly(s, trace, r.clients[c].mount, r.clients[c].since);
  }

  /** Once anything is marked lost no request is begun and none is answered, for the rest of the run. */
  lemma {:induction false} LostRefuses(s: State, trace: seq<Event>, e: Event)
    requires Possible(s, trace) && s.clock.lost != {} && (e.Confirm? || e.Begin?) && CanHappen(Run(s, trace), e)
    ensures var r := Run(s, trace); var t := Happen(r, e);
      && r.clock.lost != {} && t.clients[e.client].phase.Idle?
      && t.clients[e.client].replies == r.clients[e.client].replies
  {
    LostExactly(s, trace);
  }
}

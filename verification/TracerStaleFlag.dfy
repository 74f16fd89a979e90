/** A run in which the flag `vforking` goes stale and a decision holds its lease while another process runs: a second
    thread execs while the first thread of its process is blocked in a vfork, so the kernel drops the vfork without
    reporting its end. */
module TracerStaleFlag {
  import opened Basics
  import opened Tracer
  import opened TracerDecisions

  const END: nat := 28

  /** The process the session starts with, and whoever it brings along; nothing retires. */
  function Of(procs: map<nat, Mode>, leader: map<nat, nat>, items: map<nat, Item>, barrier: Option<nat>,
              execs: nat): State {
    State(procs, leader, items, barrier, false, false, execs > 0, execs)
  }

  const PLAIN := FreshItem(false)
  const HALTED := PLAIN.(stopped := true)
  const WAITING := PLAIN.(vforking := true)
  const LISTED := HALTED.(vforking := true)
  const DUE := LISTED.(pending := true)
  const SECOND := HALTED.(pending := true)

  function Scene(i: nat): State {
    if i == 0 then Of(map[1 := Running], map[], map[1 := PLAIN], None, 0)
    else if i == 1 then Of(map[1 := Trapped(Exec(1), false)], map[], map[1 := PLAIN], None, 0)
    else if i == 2 then Of(map[1 := Trapped(Exec(1), true)], map[], map[1 := HALTED], None, 1)
    else if i == 3 then Of(map[1 := Running], map[], map[1 := PLAIN], None, 1)
    else if i == 4 then
      Of(map[1 := Trapped(Born(Thread, 2), false), 2 := Starting], map[2 := 1],
         map[1 := PLAIN], None, 1)
    else if i == 5 then
      Of(map[1 := Trapped(Born(Thread, 2), true), 2 := Starting], map[2 := 1],
         map[1 := HALTED, 2 := PLAIN], None, 1)
    else if i == 6 then
      Of(map[1 := Trapped(Born(Thread, 2), true), 2 := Trapped(Stop(false), false)], map[2 := 1],
         map[1 := HALTED, 2 := PLAIN], None, 1)
    else if i == 7 then
      Of(map[1 := Trapped(Born(Thread, 2), true), 2 := Trapped(Stop(false), true)], map[2 := 1],
         map[1 := HALTED, 2 := HALTED], None, 1)
    else if i == 8 then
      Of(map[1 := Running, 2 := Trapped(Stop(false), true)], map[2 := 1],
         map[1 := PLAIN, 2 := HALTED], None, 1)
    else if i == 9 then Of(map[1 := Running, 2 := Running], map[2 := 1], map[1 := PLAIN, 2 := PLAIN], None, 1)
    else if i == 10 then
      Of(map[1 := Trapped(Born(Vfork, 3), false), 2 := Running, 3 := Starting], map[2 := 1],
         map[1 := PLAIN, 2 := PLAIN], None, 1)
    else if i == 11 then
      Of(map[1 := Trapped(Born(Vfork, 3), true), 2 := Running, 3 := Starting], map[2 := 1],
         map[1 := LISTED, 2 := PLAIN, 3 := PLAIN], None, 1)
    else if i == 12 then
      Of(map[1 := Trapped(Born(Vfork, 3), true), 2 := Running, 3 := Trapped(Stop(false), false)], map[2 := 1],
         map[1 := LISTED, 2 := PLAIN, 3 := PLAIN], None, 1)
    else if i == 13 then
      Of(map[1 := Trapped(Born(Vfork, 3), true), 2 := Running, 3 := Trapped(Stop(false), true)], map[2 := 1],
         map[1 := LISTED, 2 := PLAIN, 3 := HALTED], None, 1)
    else if i == 14 then
      Of(map[1 := InVfork, 2 := Running, 3 := Trapped(Stop(false), true)], map[2 := 1],
         map[1 := WAITING, 2 := PLAIN, 3 := HALTED], None, 1)
    else if i == 15 then
      Of(map[1 := InVfork, 2 := Running, 3 := Running], map[2 := 1],
         map[1 := WAITING, 2 := PLAIN, 3 := PLAIN], None, 1)
    else if i == 16 then
      Of(map[1 := Trapped(Exec(2), false), 3 := Running], map[2 := 1],
         map[1 := WAITING, 2 := PLAIN, 3 := PLAIN], None, 1)
    else if i == 17 then
      Of(map[1 := Trapped(Exec(2), true), 3 := Running], map[2 := 1],
         map[1 := DUE, 3 := PLAIN], None, 2)
    else if i == 18 then
      Of(map[1 := Trapped(Exec(2), true), 3 := Running], map[2 := 1],
         map[1 := DUE, 3 := PLAIN], Some(1), 2)
    else if i == 19 then
      Of(map[1 := Trapped(Exec(2), true), 3 := Trapped(Stop(false), false)], map[2 := 1],
         map[1 := DUE, 3 := PLAIN], Some(1), 2)
    else if i == 20 then
      Of(map[1 := Trapped(Exec(2), true), 3 := Trapped(Stop(false), true)], map[2 := 1],
         map[1 := DUE, 3 := HALTED], Some(1), 2)
    else if i == 21 then
      Of(map[1 := Trapped(Exec(2), true), 3 := Trapped(Stop(false), true)], map[2 := 1],
         map[1 := DUE.(job := true, lease := true), 3 := HALTED], Some(1), 2)
    else if i == 22 then
      Of(map[1 := Trapped(Exec(2), true), 3 := Trapped(Stop(false), true)], map[2 := 1],
         map[1 := LISTED, 3 := HALTED], None, 2)
    else if i == 23 then
      Of(map[1 := Running, 3 := Trapped(Stop(false), true)], map[2 := 1],
         map[1 := WAITING, 3 := HALTED], None, 2)
    else if i == 24 then Of(map[1 := Running, 3 := Running], map[2 := 1], map[1 := WAITING, 3 := PLAIN], None, 2)
    else if i == 25 then
      Of(map[1 := Running, 3 := Trapped(Exec(3), false)], map[2 := 1],
         map[1 := WAITING, 3 := PLAIN], None, 2)
    else if i == 26 then
      Of(map[1 := Running, 3 := Trapped(Exec(3), true)], map[2 := 1],
         map[1 := WAITING, 3 := SECOND], None, 3)
    else if i == 27 then
      Of(map[1 := Running, 3 := Trapped(Exec(3), true)], map[2 := 1],
         map[1 := WAITING, 3 := SECOND], Some(3), 3)
    else
      Of(map[1 := Running, 3 := Trapped(Exec(3), true)], map[2 := 1],
         map[1 := WAITING, 3 := SECOND.(job := true, lease := true)], Some(3), 3)
  }

  function Move(i: nat): Action {
    if i == 0 then Trap(1, Exec(1))
    else if i == 1 then Report(1)
    else if i == 2 then Continue(1)
    else if i == 3 then Birthing(1, Thread, 2)
    else if i == 4 then Report(1)
    else if i == 5 then FirstTrap(2)
    else if i == 6 then Report(2)
    else if i == 7 then Continue(1)
    else if i == 8 then Continue(2)
    else if i == 9 then Birthing(1, Vfork, 3)
    else if i == 10 then Report(1)
    else if i == 11 then FirstTrap(3)
    else if i == 12 then Report(3)
    else if i == 13 then Continue(1)
    else if i == 14 then Continue(3)
    else if i == 15 then SiblingExec(2, 1)
    else if i == 16 then Report(1)
    else if i == 17 then PickBarrier(1)
    else if i == 18 then Trap(3, Stop(false))
    else if i == 19 then Report(3)
    else if i == 20 then StartDecision(1, true)
    else if i == 21 then JobEnds(1, false)
    else if i == 22 then Continue(1)
    else if i == 23 then Continue(3)
    else if i == 24 then Trap(3, Exec(3))
    else if i == 25 then Report(3)
    else if i == 26 then PickBarrier(3)
    else StartDecision(3, true)
  }

  function Moves(move: nat -> Action, i: nat, n: nat): seq<Action>
    requires i <= n
    decreases n - i
  {
    if i == n then [] else [move(i)] + Moves(move, i + 1, n)
  }

  predicate Follows(i: nat) {
    Enabled(Scene(i), Move(i)) && Apply(Scene(i), Move(i)) == Scene(i + 1)
  }

  lemma {:induction false} Follows0(i: nat)
    requires 0 <= i < 4
    ensures Follows(i)
  {
  }

  lemma {:induction false} Follows4(i: nat)
    requires 4 <= i < 6
    ensures Follows(i)
  {
  }

  lemma {:induction false} Follows6(i: nat)
    requires 6 <= i < 8
    ensures Follows(i)
  {
  }

  lemma {:induction false} Follows8(i: nat)
    requires 8 <= i < 10
    ensures Follows(i)
  {
  }

  lemma {:induction false} Follows10(i: nat)
    requires 10 <= i < 12
    ensures Follows(i)
  {
  }

  lemma {:induction false} Follows12(i: nat)
    requires i == 12
    ensures Follows(i)
  {
  }

  lemma {:induction false} Continued(s: State, p: nat)
    requires Enabled(s, Continue(p)) && Stopped(s, p) && !s.items[p].listening
    ensures Apply(s, Continue(p)) ==
      s.(procs := s.procs[p := Resume(s.procs[p])], items := s.items[p := s.items[p].(stopped := false)])
  {
  }

  lemma {:induction false} MayContinue13(i: nat)
    requires i == 13
    ensures Move(i) == Continue(1) && Enabled(Scene(i), Continue(1))
  {
  }

  lemma {:induction false} Follows13(i: nat)
    requires i == 13
    ensures Follows(i)
  {
    MayContinue13(i);
    Continued(Scene(i), 1);
  }

  lemma {:induction false} Follows14(i: nat)
    requires 14 <= i < 16
    ensures Follows(i)
  {
  }

  lemma {:induction false} Follows16(i: nat)
    requires 16 <= i < 18
    ensures Follows(i)
  {
  }

  lemma {:induction false} Follows18(i: nat)
    requires 18 <= i < 20
    ensures Follows(i)
  {
  }

  lemma {:induction false} Follows20(i: nat)
    requires 20 <= i < 22
    ensures Follows(i)
  {
  }

  lemma {:induction false} MayContinue22(i: nat)
    requires i == 22
    ensures Move(i) == Continue(1) && Enabled(Scene(i), Continue(1))
  {
  }

  lemma {:induction false} Follows22(i: nat)
    requires i == 22
    ensures Follows(i)
  {
    MayContinue22(i);
    Continued(Scene(i), 1);
  }

  lemma {:induction false} Follows23(i: nat)
    requires i == 23
    ensures Follows(i)
  {
  }

  lemma {:induction false} Follows24(i: nat)
    requires i == 24
    ensures Follows(i)
  {
  }

  lemma {:induction false} Follows25(i: nat)
    requires 25 <= i < 28
    ensures Follows(i)
  {
  }

  lemma {:induction false} EachFollows(i: nat)
    requires i < END
    ensures Follows(i)
  {
    if i < 4 { Follows0(i); }
    else if i < 6 { Follows4(i); }
    else if i < 8 { Follows6(i); }
    else if i < 10 { Follows8(i); }
    else if i < 12 { Follows10(i); }
    else if i < 13 { Follows12(i); }
    else if i < 14 { Follows13(i); }
    else if i < 16 { Follows14(i); }
    else if i < 18 { Follows16(i); }
    else if i < 20 { Follows18(i); }
    else if i < 22 { Follows20(i); }
    else if i < 23 { Follows22(i); }
    else if i < 24 { Follows23(i); }
    else if i < 25 { Follows24(i); }
    else { Follows25(i); }
  }

  lemma {:induction false} TheReport(i: nat)
    requires i == 16
    ensures Enabled(Scene(i), Move(i)) && Misleads(Scene(i), Move(i))
  {
  }

  lemma {:induction false} OneScene(s: State, a: Action, next: State, rest: seq<Action>)
    requires Enabled(s, a) && Apply(s, a) == next && Possible(next, rest)
    ensures Possible(s, [a] + rest) && Run(s, [a] + rest) == Run(next, rest)
    ensures Misled(s, [a] + rest) <==> Misleads(s, a) || Misled(next, rest)
  {
    assert ([a] + rest)[1..] == rest;
  }

  ghost predicate Chain(scene: nat -> State, move: nat -> Action, n: nat) {
    forall k: nat :: k < n ==> Linked(scene, move, k)
  }

  predicate Linked(scene: nat -> State, move: nat -> Action, k: nat) {
    Enabled(scene(k), move(k)) && Apply(scene(k), move(k)) == scene(k + 1)
  }

  lemma {:induction false} ScenesRun(scene: nat -> State, move: nat -> Action, d: nat, i: nat, n: nat)
    requires i <= n && Chain(scene, move, n)
    ensures Possible(scene(i), Moves(move, i, n)) && Run(scene(i), Moves(move, i, n)) == scene(n)
    ensures i <= d < n && Enabled(scene(d), move(d)) && Misleads(scene(d), move(d)) ==>
      Misled(scene(i), Moves(move, i, n))
    decreases n - i
  {
    if i < n {
      ScenesRun(scene, move, d, i + 1, n);
      assert Linked(scene, move, i);
      OneScene(scene(i), move(i), scene(i + 1), Moves(move, i + 1, n));
    }
  }

  predicate Defeated(s: State, run: seq<Action>) {
    && Initial(s, 1) && Possible(s, run) && Misled(s, run)
    && var t := Run(s, run); 3 in t.items && t.items[3].lease && Is(t, 1, Running)
  }

  lemma {:induction false} SceneLinked(k: nat)
    requires k < END
    ensures Linked(Scene, Move, k)
  {
    EachFollows(k);
  }

  lemma {:induction false} ScenesChain()
    ensures Chain(Scene, Move, END)
  {
    forall k: nat | k < END ensures Linked(Scene, Move, k) {
      SceneLinked(k);
    }
  }

  lemma {:induction false} DefeatedBy(scene: nat -> State, move: nat -> Action, d: nat, n: nat)
    requires Chain(scene, move, n) && d < n && Enabled(scene(d), move(d)) && Misleads(scene(d), move(d))
    requires Initial(scene(0), 1)
    requires 3 in scene(n).items && scene(n).items[3].lease && Is(scene(n), 1, Running)
    ensures Defeated(scene(0), Moves(move, 0, n))
  {
    var i := 0;
    ScenesRun(scene, move, d, i, n);
  }

  /** Step 15 is the exec over the flagged thread and step 16 its report, which keeps the flag; in the last state
      process 3 holds the lease and process 1 runs user code. */
  lemma {:induction false} StaleFlagDefeatsTheBarrier()
    ensures exists s, run :: Defeated(s, run)
  {
    ScenesChain();
    TheReport(16);
    DefeatedBy(Scene, Move, 16, END);
  }
}

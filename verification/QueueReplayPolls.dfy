/** Whether a poll for room on a pipe tells the truth.  The interpreter counts bytes, the kernel slots: as long as
    nothing came into the pipe by splice or tee, every poll the dry run decides is what the kernel shows at that point
    of the replay; after two tees it need not be. */
module QueueReplayPolls {
  import opened Basics
  import opened QueueReplay
  import opened QueueReplayPipes
  import opened QueueReplayProofs
  import opened QueueReplayRoom
  import opened QueueReplayDrain
  import opened QueueReplayCramped

  // ---------------------------------------------------------------- a pipe that was only written to

  /** A pipe captured empty has one slot at most, which takes all writes; one that nothing was written to or read from
      has the slots it was captured with. */
  predicate Tame(p: Position, q: Queue, kq: Real, was: nat) {
    && kq.RealPipe? && SlotsOk(kq.slots) && PipeBytes(kq.slots) == q.bytes
    && (p.content == [] ==> kq.slots == [] || (|kq.slots| == 1 && TakesAll(kq.slots, q.produced)))
    && (q.produced == 0 && q.consumed == 0 ==> |kq.slots| == was)
  }

  lemma {:induction false} ReadStaysTame(p: Position, q: Queue, slots: seq<PipeSlot>, was: nat, n: nat)
    requires Tame(p, q, RealPipe(slots), was) && n <= |q.bytes|
    ensures Tame(p, Advance(q, n), RealPipe(DropSlots(slots, n)), was)
  {
    DropShape(slots, n);
  }

  lemma {:induction false} WriteStaysTame(p: Position, q: Queue, slots: seq<PipeSlot>, was: nat, data: seq<byte>)
    requires Tame(p, q, RealPipe(slots), was) && q.produced + |data| <= PAGE
    ensures Tame(p, Written(q, data), RealPipe(WriteSlots(slots, data)), was)
  {
    if data == [] {
      EmptyWrite(slots);
      assert q.bytes + data == q.bytes;
    } else {
      WriteShape(slots, data);
    }
  }

  /** The event brings bytes from another pipe into this one. */
  predicate CarriesInto(ps: seq<Position>, e: Event, o: nat) {
    var f := Find(ps, e.fd, 0);
    e.Send? && (e.source.Move? || e.source.Copy?) && f.Some? && Owner(ps, f.value) == o
  }

  predicate SameContents(a: Queue, b: Queue) {
    b.bytes == a.bytes && b.produced == a.produced && b.consumed == a.consumed
  }

  /** What one event does to a pipe on both sides: nothing, a read, or a write. */
  ghost predicate PipeStep(q: Queue, kq: Real, r: Queue, kr: Real) {
    || (SameContents(q, r) && kr == kq)
    || (kq.RealPipe? && exists n: nat :: Takes(q, r, n) && kr == RealPipe(DropSlots(kq.slots, n)))
    || (kq.RealPipe? && exists data :: Fills(q, r, data) && kr == RealPipe(WriteSlots(kq.slots, data)))
  }

  predicate Takes(q: Queue, r: Queue, n: nat) {
    n <= |q.bytes| && SameContents(Advance(q, n), r)
  }

  predicate Fills(q: Queue, r: Queue, data: seq<byte>) {
    q.produced + |data| <= PAGE && SameContents(Written(q, data), r)
  }

  lemma {:induction false} StepStaysTame(p: Position, q: Queue, kq: Real, r: Queue, kr: Real, was: nat)
    requires Tame(p, q, kq, was) && PipeStep(q, kq, r, kr)
    ensures Tame(p, r, kr, was)
  {
    if SameContents(q, r) && kr == kq {
    } else if n: nat :| Takes(q, r, n) && kr == RealPipe(DropSlots(kq.slots, n)) {
      ReadStaysTame(p, q, kq.slots, was, n);
    } else {
      var data :| Fills(q, r, data) && kr == RealPipe(WriteSlots(kq.slots, data));
      WriteStaysTame(p, q, kq.slots, was, data);
    }
  }

  // ---------------------------------------------------------------- one event, on both sides

  lemma {:induction false} ReceivePipes(ps: seq<Position>, s: State, k: seq<Real>, i: nat, e: Event, o: nat)
    requires Sized(ps, s) && |k| == |ps| && i < |ps| && e.Receive? && !ps[i].kind.Plain?
    requires ReceiveOp(ps, s, i, e).Some? && RealReceive(ps, k, i, e).Some?
    requires o < |ps| && k[o].RealPipe?
    ensures PipeStep(s.queues[o], k[o], ReceiveOp(ps, s, i, e).value.queues[o], RealReceive(ps, k, i, e).value[o])
  {
    var n := |e.data|;
    if o == Owner(ps, i) && !e.peek {
      assert n <= |s.queues[o].bytes|;
      assert Takes(s.queues[o], ReceiveOp(ps, s, i, e).value.queues[o], n);
      if n == 0 { assert DropSlots(k[o].slots, 0) == k[o].slots; }
      assert RealReceive(ps, k, i, e).value[o] == RealPipe(DropSlots(k[o].slots, n));
    }
  }

  lemma {:induction false} WritePipes(ps: seq<Position>, s: State, k: seq<Real>, i: nat, e: Event, cost: nat, o: nat)
    requires WellFormed(ps) && Sized(ps, s) && |k| == |ps| && i < |ps| && ps[i].kind.Pipe? && e.Send?
    requires !e.source.Move? && !e.source.Copy? && SendOp(ps, s, i, e).Some? && RealSend(ps, k, i, e, cost).Some?
    requires o < |ps| && k[o].RealPipe? && k[Owner(ps, i)].RealPipe?
    ensures PipeStep(s.queues[o], k[o], SendOp(ps, s, i, e).value.queues[o], RealSend(ps, k, i, e, cost).value[o])
  {
    PipeSendShape(ps, s, i, e);
    if o == Owner(ps, i) {
      assert Fills(s.queues[o], SendOp(ps, s, i, e).value.queues[o], e.data);
    }
  }

  lemma {:induction false} CarryPipes(ps: seq<Position>, s: State, k: seq<Real>, past: Past, i: nat, e: Event,
                                      cost: nat, o: nat)
    requires WellFormed(ps) && Rel(ps, s, k, past) && i < |ps| && ps[i].kind.Pipe? && e.Send?
    requires (e.source.Move? || e.source.Copy?) && SendOp(ps, s, i, e).Some? && RealSend(ps, k, i, e, cost).Some?
    requires IsOwner(ps, o) && k[o].RealPipe? && o != Owner(ps, i)
    ensures PipeStep(s.queues[o], k[o], SendOp(ps, s, i, e).value.queues[o], RealSend(ps, k, i, e, cost).value[o])
  {
    CarryShape(ps, s, i, e);
    var input, n := Owner(ps, Find(ps, e.source.fd, 0).value), |e.data|;
    var to := Owner(ps, i);
    assert InStep(ps, s.queues[input], Live(s.messages, input), k[input], input, past);
    assert InStep(ps, s.queues[to], Live(s.messages, to), k[to], to, past);
    SlotsAtMostBytes(k[to].slots);
    CarrySucceeds(ps, k, i, e, cost, input);
    if o == input && e.source.Move? {
      assert Takes(s.queues[o], SendOp(ps, s, i, e).value.queues[o], n);
    }
  }

  lemma {:induction false} SocketSendPipes(ps: seq<Position>, s: State, k: seq<Real>, i: nat, e: Event, cost: nat,
                                           o: nat)
    requires WellFormed(ps) && Sized(ps, s) && |k| == |ps| && i < |ps| && ps[i].kind.Socket? && e.Send?
    requires SendOp(ps, s, i, e).Some? && RealSend(ps, k, i, e, cost).Some?
    requires o < |ps| && ps[o].kind.Pipe? && k[Owner(ps, i)].RealSocket?
    ensures SameContents(s.queues[o], SendOp(ps, s, i, e).value.queues[o])
    ensures RealSend(ps, k, i, e, cost).value[o] == k[o]
  {
    OwnerIsOwner(ps, i);
    assert Twins(ps[i], ps[Owner(ps, i)]);
    if Peer(ps, i).Some? { PeerIsOwner(ps, i); }
    assert TakeSource(ps, s, i, e) == Some(s);
  }

  lemma {:induction false} ClosePipes(ps: seq<Position>, s: State, i: nat, e: Event, o: nat)
    requires WellFormed(ps) && Sized(ps, s) && i < |ps| && e.Close? && CloseQueue(ps, s, i, e).Some?
    requires o < |ps| && ps[o].kind.Pipe?
    ensures SameContents(s.queues[o], CloseQueue(ps, s, i, e).value.queues[o])
  {
    if ps[i].kind.Socket? {
      OwnerIsOwner(ps, i);
      assert Twins(ps[i], ps[Owner(ps, i)]);
      if Peer(ps, i).Some? { PeerIsOwner(ps, i); }
    }
  }

  lemma {:induction false} ShutdownPipes(ps: seq<Position>, s: State, k: seq<Real>, i: nat, e: Event, o: nat)
    requires WellFormed(ps) && Sized(ps, s) && |k| == |ps| && i < |ps| && e.Shutdown? && !ps[i].kind.Plain?
    requires ShutdownQueue(ps, s, i, e).Some? && RealShutdown(ps, k, i, e).Some?
    requires o < |ps| && ps[o].kind.Pipe?
    ensures SameContents(s.queues[o], ShutdownQueue(ps, s, i, e).value.queues[o])
    ensures RealShutdown(ps, k, i, e).value[o] == k[o]
  {
    OwnerIsOwner(ps, i);
    assert Twins(ps[i], ps[Owner(ps, i)]);
    if Peer(ps, i).Some? { PeerIsOwner(ps, i); }
  }

  lemma {:induction false} EventPipes(ps: seq<Position>, s: State, k: seq<Real>, past: Past, e: Event, cost: nat,
                                      o: nat)
    requires WellFormed(ps) && Rel(ps, s, k, past) && Interpret(ps, s, e).Some? && Effect(ps, k, e, cost).Some?
    requires IsOwner(ps, o) && ps[o].kind.Pipe? && !CarriesInto(ps, e, o)
    ensures PipeStep(s.queues[o], k[o], Interpret(ps, s, e).value.queues[o], Effect(ps, k, e, cost).value[o])
  {
    var i := Find(ps, e.fd, 0).value;
    assert InStep(ps, s.queues[o], Live(s.messages, o), k[o], o, past);
    if !ps[i].kind.Plain? {
      OwnerIsOwner(ps, i);
      assert Twins(ps[i], ps[Owner(ps, i)]);
      assert InStep(ps, s.queues[Owner(ps, i)], Live(s.messages, Owner(ps, i)), k[Owner(ps, i)], Owner(ps, i), past);
    }
    if e.Receive? { ReceivePipes(ps, s, k, i, e, o); }
    else if e.Close? { ClosePipes(ps, s, i, e, o); }
    else if e.Shutdown? { ShutdownPipes(ps, s, k, i, e, o); }
    else if e.Send? {
      if ps[i].kind.Socket? { SocketSendPipes(ps, s, k, i, e, cost, o); }
      else if e.source.Move? || e.source.Copy? { CarryPipes(ps, s, k, past, i, e, cost, o); }
      else { WritePipes(ps, s, k, i, e, cost, o); }
    }
  }

  // ---------------------------------------------------------------- polls

  lemma {:induction false} ReplayStaysTame(ps: seq<Position>, s: State, k: seq<Real>, closed: set<nat>, es: seq<Event>,
                                           costs: seq<nat>, o: nat, was: nat)
    requires WellFormed(ps) && Rel(ps, s, k, Anything(ps, closed)) && |costs| == |es|
    requires forall c :: 0 <= c < |costs| ==> costs[c] <= CHARGE
    requires IsOwner(ps, o) && ps[o].kind.Pipe? && forall j :: 0 <= j < |es| ==> !CarriesInto(ps, es[j], o)
    requires Tame(ps[o], s.queues[o], k[o], was) && Replay(ps, s, k, es, costs).Some?
    ensures var r := Replay(ps, s, k, es, costs).value; Tame(ps[o], r.0.queues[o], r.1[o], was)
    decreases |es|
  {
    if es != [] {
      var t, l := Interpret(ps, s, es[0]).value, Effect(ps, k, es[0], costs[0]).value;
      StepFailsExactly(ps, s, k, closed, es[0], costs[0]);
      EventPipes(ps, s, k, Anything(ps, closed), es[0], costs[0], o);
      StepStaysTame(ps[o], s.queues[o], k[o], t.queues[o], l[o], was);
      ReplayStaysTame(ps, t, l, closed + ClosedBy(ps, es[0]), es[1..], costs[1..], o, was);
    }
  }

  /** In every replay, on every kernel that holds what was captured: a poll for room on a pipe that nothing was spliced
      or teed into is decided the way the kernel has it at that point. */
  lemma {:induction false} PollsAreTrue(ps: seq<Position>, k: seq<Real>, pollOut: nat -> bool, es: seq<Event>,
                                        costs: seq<nat>, i: nat, room: bool)
    requires WellFormed(ps) && AtSnapshot(ps, k, pollOut) && PollsTruly(ps, k, pollOut) && Start(ps, pollOut).Some?
    requires |costs| == |es| && forall c :: 0 <= c < |costs| ==> costs[c] <= CHARGE
    requires Replay(ps, Start(ps, pollOut).value, k, es, costs).Some?
    requires i < |ps| && ps[i].kind.Pipe? && !ps[i].access.ReadOnly? && ps[i].capacity % PAGE == 0
    requires forall j :: 0 <= j < |es| ==> !CarriesInto(ps, es[j], Owner(ps, i))
    requires var r := Replay(ps, Start(ps, pollOut).value, k, es, costs).value; PollWritable(ps, r.0, i) == Some(room)
    ensures var r, o := Replay(ps, Start(ps, pollOut).value, k, es, costs).value, Owner(ps, i);
      r.1[o].RealPipe? && (room <==> |r.1[o].slots| < MaxSlots(ps[o].capacity))
  {
    var s, o := Start(ps, pollOut).value, Owner(ps, i);
    OwnerIsOwner(ps, i);
    assert Twins(ps[i], ps[o]);
    StartInStep(ps, k, pollOut);
    StaysInStep(ps, s, k, NOTHING);
    StartsTame(ps, k, pollOut, o);
    ReplayStaysTame(ps, s, k, {}, es, costs, o, |k[o].slots|);
    WritableStays(ps, s, k, es, costs, o);
    var r := Replay(ps, s, k, es, costs).value;
    assert HasWriter(ps, o);
    TameTells(ps, r.0, r.1, i, |k[o].slots|);
  }

  lemma {:induction false} StartsTame(ps: seq<Position>, k: seq<Real>, pollOut: nat -> bool, o: nat)
    requires WellFormed(ps) && AtSnapshot(ps, k, pollOut) && Start(ps, pollOut).Some?
    requires IsOwner(ps, o) && ps[o].kind.Pipe?
    ensures k[o].RealPipe? && Tame(ps[o], Start(ps, pollOut).value.queues[o], k[o], |k[o].slots|)
  {
    SlotsAtMostBytes(k[o].slots);
  }

  lemma {:induction false} WritableStays(ps: seq<Position>, s: State, k: seq<Real>, es: seq<Event>, costs: seq<nat>,
                                         o: nat)
    requires Sized(ps, s) && |k| == |ps| && |costs| == |es| && o < |ps| && Replay(ps, s, k, es, costs).Some?
    ensures Replay(ps, s, k, es, costs).value.0.queues[o].writable == s.queues[o].writable
    decreases |es|
  {
    if es != [] {
      StepLeavesWritable(ps, s, es[0], o);
      WritableStays(ps, Interpret(ps, s, es[0]).value, Effect(ps, k, es[0], costs[0]).value, es[1..], costs[1..], o);
    }
  }

  lemma {:induction false} StepLeavesWritable(ps: seq<Position>, s: State, e: Event, o: nat)
    requires Sized(ps, s) && Interpret(ps, s, e).Some? && o < |ps|
    ensures Interpret(ps, s, e).value.queues[o].writable == s.queues[o].writable
  {
    var i := Find(ps, e.fd, 0).value;
    if e.Send? { SendLeavesWritable(ps, s, i, e, o); }
    else if e.Close? && ps[i].kind.Socket? { assert CloseQueue(ps, s, i, e).Some?; }
  }

  lemma {:induction false} SendLeavesWritable(ps: seq<Position>, s: State, i: nat, e: Event, o: nat)
    requires Sized(ps, s) && i < |ps| && !ps[i].kind.Plain? && e.Send? && SendOp(ps, s, i, e).Some? && o < |ps|
    ensures SendOp(ps, s, i, e).value.queues[o].writable == s.queues[o].writable
  {
    assert TakeSource(ps, s, i, e).value.queues[o].writable == s.queues[o].writable;
  }

  lemma {:induction false} TameTells(ps: seq<Position>, t: State, l: seq<Real>, i: nat, was: nat)
    requires WellFormed(ps) && Sized(ps, t) && |l| == |ps| && i < |ps| && ps[i].kind.Pipe?
    requires ps[i].capacity % PAGE == 0 && PollWritable(ps, t, i).Some?
    requires Twins(ps[i], ps[Owner(ps, i)])
    requires var o := Owner(ps, i);
      Tame(ps[o], t.queues[o], l[o], was) && (t.queues[o].writable <==> was < MaxSlots(ps[o].capacity))
    ensures var o := Owner(ps, i); PollWritable(ps, t, i).value <==> |l[o].slots| < MaxSlots(ps[o].capacity)
  {
    var o := Owner(ps, i);
    SlotsAtMostBytes(l[o].slots);
    assert MaxSlots(ps[o].capacity) * PAGE == ps[o].capacity;
    if t.queues[o].bytes != [] { assert l[o].slots != []; }
  }

  // ---------------------------------------------------------------- a poll that does not

  /** Descriptor 3 reads a pipe that holds one byte, descriptor 4 writes an empty one of two pages. */
  function TwoPages(): seq<Position> {
    [Handle(3, ReadOnly, [7]), Handle(4, WriteOnly, []).(capacity := 2 * PAGE)]
  }

  const ROOM := Poll(4, {Out}, {Out}, false)

  function TeedTwice(): State {
    Begun().(queues := [QueueReplayCramped.Fresh([7], false),
                        Written(Written(QueueReplayCramped.Fresh([], true), [7]), [7])])
  }

  function KernelTeed(times: nat): seq<Real> {
    [RealPipe([PipeSlot([7], 1, true)]), RealPipe(seq(times, _ => PipeSlot([7], 1, false)))]
  }

  lemma {:induction false} TwoResolve()
    ensures var ps := TwoPages();
      && Find(ps, 3, 0) == Some(0) && Find(ps, 4, 0) == Some(1) && Owner(ps, 0) == 0 && Owner(ps, 1) == 1
      && Peer(ps, 1) == Some(1)
  {
    var ps := TwoPages();
    assert Find(ps, 4, 1) == Some(1);
    assert FindObject(ps, 4, 1) == Some(1);
  }

  lemma {:induction false} TwoBegin()
    ensures WellFormed(TwoPages()) && AtSnapshot(TwoPages(), KernelTeed(0), Writable)
    ensures Start(TwoPages(), Writable) == Some(Begun())
  {
    var ps, k := TwoPages(), KernelTeed(0);
    TwoResolve();
    assert PipeBytes(k[0].slots) == [7] by { assert [PipeSlot([7], 1, true)][1..] == []; }
    assert k[1].slots == [];
    assert MaxSlots(PAGE) == 1 && MaxSlots(2 * PAGE) == 2;
    assert StartMessages(ps, 0) == Some([]) && StartMessages(ps, 1) == Some([]) && StartMessages(ps, 2) == Some([]);
    assert HasWriter(ps, 1);
    var s := Start(ps, Writable).value;
    assert ps[0].content[ps[0].after..] == [7] && ps[1].content[ps[1].after..] == [];
    assert s.queues == Begun().queues && s.flags == Begun().flags;
  }

  lemma {:induction false} TeeOnce(s: State, t: State)
    requires s == Begun() || s == Teed()
    requires t == if s == Begun() then Teed() else TeedTwice()
    ensures Interpret(TwoPages(), s, TEE) == Some(t)
  {
    var ps := TwoPages();
    TwoResolve();
    assert IsPrefix([7], s.queues[0].bytes);
    assert TakeSource(ps, s, 1, TEE) == Some(s);
    assert !SendRefused(ps, s, 1, TEE);
    var u := Deliver(s, 1, Some(1), [7], []);
    assert u.queues[1] == Written(s.queues[1], [7]);
    assert u.queues == t.queues;
  }

  lemma {:induction false} TeeFillsSlot(n: nat)
    requires n < 2
    ensures Effect(TwoPages(), KernelTeed(n), TEE, 0) == Some(KernelTeed(n + 1))
  {
    var ps, k := TwoPages(), KernelTeed(n);
    TwoResolve();
    var slots := k[0].slots;
    assert slots[1..] == [] && PipeBytes(slots) == [7] && TakeSlots(slots, 1) == [slots[0]];
    assert CopySlots(slots, 1) == [PipeSlot([7], 1, false)];
    assert MaxSlots(2 * PAGE) == 2;
    assert k[1].slots + [PipeSlot([7], 1, false)] == KernelTeed(n + 1)[1].slots;
    assert RealCarry(ps, k, 1, 0, 1, false) == Some(k[1 := RealPipe(k[1].slots + [PipeSlot([7], 1, false)])]);
    assert k[1 := RealPipe(KernelTeed(n + 1)[1].slots)] == KernelTeed(n + 1);
  }

  /** After two tees of a byte each the poll is accepted that saw room, and the kernel's pipe is full. */
  lemma {:induction false} PollAfterTees()
    ensures var ps, es := TwoPages(), [TEE, TEE, ROOM];
      && WellFormed(ps) && AtSnapshot(ps, KernelTeed(0), Writable) && Start(ps, Writable).Some?
      && var r := Replay(ps, Start(ps, Writable).value, KernelTeed(0), es, [0, 0, 0]);
         r.Some? && r.value.1[1].RealPipe? && |r.value.1[1].slots| == MaxSlots(ps[1].capacity)
  {
    var ps, es, costs := TwoPages(), [TEE, TEE, ROOM], [0, 0, 0];
    TwoBegin();
    TeeOnce(Begun(), Teed());
    TeeOnce(Teed(), TeedTwice());
    TeeFillsSlot(0);
    TeeFillsSlot(1);
    RoomSeen();
    assert es[1..] == [TEE, ROOM] && es[1..][1..] == [ROOM] && es[1..][1..][1..] == [];
    assert costs[1..] == [0, 0] && costs[1..][1..] == [0] && costs[1..][1..][1..] == [];
    assert Replay(ps, TeedTwice(), KernelTeed(2), [ROOM], [0]) == Some((TeedTwice(), KernelTeed(2)));
    assert Replay(ps, Teed(), KernelTeed(1), [TEE, ROOM], [0, 0]) == Some((TeedTwice(), KernelTeed(2)));
    assert MaxSlots(2 * PAGE) == 2;
  }

  lemma {:induction false} RoomSeen()
    ensures Interpret(TwoPages(), TeedTwice(), ROOM) == Some(TeedTwice())
    ensures Effect(TwoPages(), KernelTeed(2), ROOM, 0) == Some(KernelTeed(2))
  {
    var ps, t := TwoPages(), TeedTwice();
    TwoResolve();
    assert PollWritable(ps, t, 1) == Some(true);
    assert ({In} + {Out}) * ({Out} + {Err, Hup}) == {Out};
    assert PollAgrees(ps, t, 1, ROOM);
  }
}

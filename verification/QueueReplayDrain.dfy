/** The dry run looks at the kernel before the `after` bytes of each queue are drained, the replay after.
    Draining can make a full pipe writable, and then the two need not agree: this module says when they do. */
module QueueReplayDrain {
  import opened Basics
  import opened QueueReplay
  import opened QueueReplayPipes
  import opened QueueReplayProofs

  /** A pipe that poll found full before the drain and writable after it, and that still holds bytes. */
  ghost predicate Flips(ps: seq<Position>, o: nat, before: nat -> bool, after: nat -> bool) {
    && IsOwner(ps, o) && ps[o].kind.Pipe? && HasWriter(ps, o)
    && ps[o].after < |ps[o].content| && !before(ps[o].inode) && after(ps[o].inode)
  }

  /** Draining never takes room away. */
  ghost predicate DrainOnlyFrees(ps: seq<Position>, before: nat -> bool, after: nat -> bool) {
    forall o: nat :: IsOwner(ps, o) && ps[o].kind.Pipe? && before(ps[o].inode) ==> after(ps[o].inode)
  }

  /** The queues agree except perhaps for `writable`, and there only where no poll can tell. */
  ghost predicate Loose(p: Position, a: Queue, b: Queue) {
    && b == a.(writable := b.writable)
    && (a.writable ==> b.writable)
    && (a.writable != b.writable ==> p.kind.Pipe? && (a.bytes == [] || a.produced > 0 || a.consumed > 0))
  }

  ghost predicate LooseStates(ps: seq<Position>, a: State, b: State) {
    && Sized(ps, a) && Sized(ps, b) && a.flags == b.flags && a.messages == b.messages
    && forall o :: 0 <= o < |ps| ==> Loose(ps[o], a.queues[o], b.queues[o])
  }

  lemma {:induction false} LooseReceive(ps: seq<Position>, a: State, b: State, i: nat, e: Event)
    requires LooseStates(ps, a, b) && i < |ps| && e.Receive? && !ps[i].kind.Plain? && ReceiveOp(ps, a, i, e).Some?
    ensures ReceiveOp(ps, b, i, e).Some? && LooseStates(ps, ReceiveOp(ps, a, i, e).value, ReceiveOp(ps, b, i, e).value)
  {
    var o := Owner(ps, i);
    assert Loose(ps[o], a.queues[o], b.queues[o]);
  }

  lemma {:induction false} LooseTake(ps: seq<Position>, a: State, b: State, i: nat, e: Event)
    requires LooseStates(ps, a, b) && i < |ps| && e.Send? && !ps[i].kind.Plain? && TakeSource(ps, a, i, e).Some?
    ensures TakeSource(ps, b, i, e).Some?
    ensures LooseStates(ps, TakeSource(ps, a, i, e).value, TakeSource(ps, b, i, e).value)
  {
    var o := Owner(ps, i);
    assert Loose(ps[o], a.queues[o], b.queues[o]);
    if e.source.Move? || e.source.Copy? {
      var input := Owner(ps, Find(ps, e.source.fd, 0).value);
      assert Loose(ps[input], a.queues[input], b.queues[input]);
    }
  }

  lemma {:induction false} LooseRefused(ps: seq<Position>, a: State, b: State, i: nat, e: Event)
    requires LooseStates(ps, a, b) && i < |ps| && e.Send? && !ps[i].kind.Plain? && !SendRefused(ps, a, i, e)
    ensures !SendRefused(ps, b, i, e)
  {
    var o, peer := Owner(ps, i), Peer(ps, i);
    assert Loose(ps[o], a.queues[o], b.queues[o]);
    if peer.Some? { assert Loose(ps[peer.value], a.queues[peer.value], b.queues[peer.value]); }
  }

  /** The queue that receives is a pipe whose own count grows, or a socket. */
  lemma {:induction false} LooseDeliver(ps: seq<Position>, a: State, b: State, o: nat, peer: Option<nat>,
                                        data: seq<byte>, refs: seq<nat>)
    requires LooseStates(ps, a, b) && o < |ps|
    requires peer.Some? ==> peer.value < |ps| && (ps[peer.value].kind.Socket? || peer.value == o)
    ensures LooseStates(ps, Deliver(a, o, peer, data, refs), Deliver(b, o, peer, data, refs))
  {
    var s, t := Deliver(a, o, peer, data, refs), Deliver(b, o, peer, data, refs);
    assert Loose(ps[o], a.queues[o], b.queues[o]);
    if peer.Some? { assert Loose(ps[peer.value], a.queues[peer.value], b.queues[peer.value]); }
    assert s.messages == t.messages;
    forall p | 0 <= p < |ps| ensures Loose(ps[p], s.queues[p], t.queues[p]) {
      assert Loose(ps[p], a.queues[p], b.queues[p]);
    }
  }

  lemma {:induction false} LooseSend(ps: seq<Position>, a: State, b: State, i: nat, e: Event)
    requires WellFormed(ps) && LooseStates(ps, a, b) && i < |ps| && e.Send? && !ps[i].kind.Plain?
    requires SendOp(ps, a, i, e).Some?
    ensures SendOp(ps, b, i, e).Some? && LooseStates(ps, SendOp(ps, a, i, e).value, SendOp(ps, b, i, e).value)
  {
    LooseTake(ps, a, b, i, e);
    var s, t := TakeSource(ps, a, i, e).value, TakeSource(ps, b, i, e).value;
    LooseRefused(ps, s, t, i, e);
    if Peer(ps, i).Some? { PeerIsOwner(ps, i); }
    LooseDeliver(ps, s, t, Owner(ps, i), Peer(ps, i), e.data, SentRights(ps, e).value);
  }

  lemma {:induction false} LooseCloseSocket(ps: seq<Position>, a: State, b: State, o: nat, peer: Option<nat>)
    requires LooseStates(ps, a, b) && o < |ps| && ps[o].kind.Socket?
    requires peer.Some? ==> peer.value < |ps| && ps[peer.value].kind.Socket?
    ensures LooseStates(ps, CloseSocket(a, o, peer), CloseSocket(b, o, peer))
  {
    assert Loose(ps[o], a.queues[o], b.queues[o]);
    if peer.Some? { assert Loose(ps[peer.value], a.queues[peer.value], b.queues[peer.value]); }
    var s, t := CloseSocket(a, o, peer), CloseSocket(b, o, peer);
    forall p | 0 <= p < |ps| ensures Loose(ps[p], s.queues[p], t.queues[p]) {
      assert Loose(ps[p], a.queues[p], b.queues[p]);
    }
  }

  lemma {:induction false} LooseClosePipe(ps: seq<Position>, a: State, b: State, o: nat, ends: Ends)
    requires LooseStates(ps, a, b) && o < |ps|
    ensures LooseStates(ps, ClosePipe(a, o, ends), ClosePipe(b, o, ends))
  {
    assert Loose(ps[o], a.queues[o], b.queues[o]);
    var s, t := ClosePipe(a, o, ends), ClosePipe(b, o, ends);
    forall p | 0 <= p < |ps| ensures Loose(ps[p], s.queues[p], t.queues[p]) {
      assert Loose(ps[p], a.queues[p], b.queues[p]);
    }
  }

  lemma {:induction false} LooseClose(ps: seq<Position>, a: State, b: State, i: nat, e: Event)
    requires WellFormed(ps) && LooseStates(ps, a, b) && i < |ps| && e.Close? && CloseQueue(ps, a, i, e).Some?
    ensures CloseQueue(ps, b, i, e).Some?
    ensures LooseStates(ps, CloseQueue(ps, a, i, e).value, CloseQueue(ps, b, i, e).value)
  {
    match ps[i].kind
    case Plain =>
    case Pipe => LooseClosePipe(ps, a, b, Owner(ps, i), e.ends);
    case Socket =>
      OwnerIsOwner(ps, i);
      assert Twins(ps[i], ps[Owner(ps, i)]);
      if Peer(ps, i).Some? { PeerIsOwner(ps, i); }
      LooseCloseSocket(ps, a, b, Owner(ps, i), Peer(ps, i));
  }

  lemma {:induction false} LooseWritable(ps: seq<Position>, a: State, b: State, i: nat)
    requires WellFormed(ps) && LooseStates(ps, a, b) && i < |ps| && !ps[i].kind.Plain?
    ensures PollWritable(ps, a, i).Some? ==> PollWritable(ps, b, i) == PollWritable(ps, a, i)
  {
    var o := Owner(ps, i);
    assert Loose(ps[o], a.queues[o], b.queues[o]) && Twins(ps[i], ps[o]);
    if Peer(ps, i).Some? {
      assert Loose(ps[Peer(ps, i).value], a.queues[Peer(ps, i).value], b.queues[Peer(ps, i).value]);
    }
  }

  lemma {:induction false} LoosePoll(ps: seq<Position>, a: State, b: State, i: nat, e: Event)
    requires WellFormed(ps) && LooseStates(ps, a, b) && i < |ps| && e.Poll? && !ps[i].kind.Plain?
    requires PollAgrees(ps, a, i, e)
    ensures PollAgrees(ps, b, i, e)
  {
    var o := Owner(ps, i);
    assert Loose(ps[o], a.queues[o], b.queues[o]);
    LooseWritable(ps, a, b, i);
  }

  lemma {:induction false} LooseShutdownQueue(ps: seq<Position>, a: State, b: State, i: nat, e: Event)
    requires WellFormed(ps) && LooseStates(ps, a, b) && i < |ps| && e.Shutdown? && !ps[i].kind.Plain?
    requires ShutdownQueue(ps, a, i, e).Some?
    ensures ShutdownQueue(ps, b, i, e).Some?
    ensures LooseStates(ps, ShutdownQueue(ps, a, i, e).value, ShutdownQueue(ps, b, i, e).value)
  {
    assert Loose(ps[Owner(ps, i)], a.queues[Owner(ps, i)], b.queues[Owner(ps, i)]);
    if Peer(ps, i).Some? {
      assert Loose(ps[Peer(ps, i).value], a.queues[Peer(ps, i).value], b.queues[Peer(ps, i).value]);
    }
  }

  lemma {:induction false} LooseShutdown(ps: seq<Position>, a: State, b: State, i: nat, e: Event)
    requires WellFormed(ps) && LooseStates(ps, a, b) && e.Shutdown? && Find(ps, e.fd, 0) == Some(i)
    requires Interpret(ps, a, e).Some?
    ensures Interpret(ps, b, e).Some? && LooseStates(ps, Interpret(ps, a, e).value, Interpret(ps, b, e).value)
  {
    LooseShutdownQueue(ps, a, b, i, e);
  }

  lemma {:induction false} LooseFail(ps: seq<Position>, a: State, b: State, i: nat, e: Event)
    requires WellFormed(ps) && LooseStates(ps, a, b) && e.Fail? && Find(ps, e.fd, 0) == Some(i)
    requires Interpret(ps, a, e).Some?
    ensures Interpret(ps, b, e).Some? && LooseStates(ps, Interpret(ps, a, e).value, Interpret(ps, b, e).value)
  {
    var o := Owner(ps, i);
    assert Loose(ps[o], a.queues[o], b.queues[o]);
    if Peer(ps, i).Some? {
      assert Loose(ps[Peer(ps, i).value], a.queues[Peer(ps, i).value], b.queues[Peer(ps, i).value]);
    }
  }

  lemma {:induction false} LooseStep(ps: seq<Position>, a: State, b: State, e: Event)
    requires WellFormed(ps) && LooseStates(ps, a, b) && Interpret(ps, a, e).Some?
    ensures Interpret(ps, b, e).Some? && LooseStates(ps, Interpret(ps, a, e).value, Interpret(ps, b, e).value)
  {
    var i := Find(ps, e.fd, 0).value;
    match e
    case Receive(_, _, _, _) => LooseReceive(ps, a, b, i, e);
    case Send(_, _, _, _) => LooseSend(ps, a, b, i, e);
    case Close(_, _) => LooseClose(ps, a, b, i, e);
    case Poll(_, _, _, _) => LoosePoll(ps, a, b, i, e);
    case Shutdown(_, _) => LooseShutdown(ps, a, b, i, e);
    case SetFlags(_, _) =>
    case Fail(_, _, _, _, _) => LooseFail(ps, a, b, i, e);
  }

  lemma {:induction false} LooseRun(ps: seq<Position>, a: State, b: State, es: seq<Event>)
    requires WellFormed(ps) && LooseStates(ps, a, b) && DryRun(ps, a, es).Some?
    ensures DryRun(ps, b, es).Some?
    decreases |es|
  {
    if es != [] {
      LooseStep(ps, a, b, es[0]);
      LooseRun(ps, Interpret(ps, a, es[0]).value, Interpret(ps, b, es[0]).value, es[1..]);
    }
  }

  /** The one recorded operation that tells the two passes apart: a poll that saw the pipe full. */
  function FullPoll(p: Position, s: State, o: nat): Event
    requires o < |s.queues|
  {
    Poll(p.descriptor, {Out}, if p.access.WriteOnly? && s.queues[o].shutdown.wr then {Err} else {}, false)
  }

  lemma {:induction false} FlipTells(ps: seq<Position>, o: nat, j: nat, before: nat -> bool, after: nat -> bool)
    requires WellFormed(ps) && Start(ps, before).Some? && Flips(ps, o, before, after)
    requires o <= j < |ps| && ps[j].kind.Pipe? && ps[j].inode == ps[o].inode && !ps[j].access.ReadOnly?
    requires Find(ps, ps[j].descriptor, 0) == Some(j)
    ensures var s, t := Start(ps, before).value, Start(ps, after).value;
            Interpret(ps, s, FullPoll(ps[j], s, o)).Some? && Interpret(ps, t, FullPoll(ps[j], s, o)).None?
  {
    var s, t := Start(ps, before).value, Start(ps, after).value;
    var e := FullPoll(ps[j], s, o);
    assert Owner(ps, j) == o;
    assert Twins(ps[j], ps[o]);
    assert s.queues[o].bytes == ps[o].content[ps[o].after..] != [];
    assert PollWritable(ps, s, j) == Some(false) && PollWritable(ps, t, j) == Some(true);
    var all := {In} + (if ps[j].access.WriteOnly? && s.queues[o].shutdown.wr then {Err} else {});
    var base := if ps[j].access.WriteOnly? && s.queues[o].shutdown.wr then {In} + {Err} else {In};
    assert base * ({Out} + {Err, Hup}) == e.expected;
    assert Out in (base + {Out}) * ({Out} + {Err, Hup});
    assert Out !in e.expected;
  }

  lemma {:induction false} StartsLoose(ps: seq<Position>, before: nat -> bool, after: nat -> bool)
    requires WellFormed(ps) && Start(ps, before).Some? && DrainOnlyFrees(ps, before, after)
    requires forall o: nat :: !Flips(ps, o, before, after)
    ensures LooseStates(ps, Start(ps, before).value, Start(ps, after).value)
  {
    forall o | 0 <= o < |ps| ensures Loose(ps[o], StartQueue(ps, o, before), StartQueue(ps, o, after)) {
      assert !Flips(ps, o, before, after);
    }
  }

  /** The dry run accepts the list, and so does the replay's own interpretation. */
  ghost predicate Carries(ps: seq<Position>, before: nat -> bool, after: nat -> bool, es: seq<Event>)
    requires WellFormed(ps) && Start(ps, before).Some? && Start(ps, after).Some?
  {
    DryRun(ps, Start(ps, before).value, es).Some? ==> DryRun(ps, Start(ps, after).value, es).Some?
  }

  lemma {:induction false} FlipBreaks(ps: seq<Position>, o: nat, before: nat -> bool, after: nat -> bool)
    returns (es: seq<Event>)
    requires WellFormed(ps) && Start(ps, before).Some? && Flips(ps, o, before, after)
    requires forall j: nat :: j < |ps| ==> Find(ps, ps[j].descriptor, 0) == Some(j)
    ensures Start(ps, after).Some? && !Carries(ps, before, after, es)
  {
    var s := Start(ps, before).value;
    var j: nat :| o <= j < |ps| && ps[j].kind.Pipe? && ps[j].inode == ps[o].inode && !ps[j].access.ReadOnly?;
    FlipTells(ps, o, j, before, after);
    es := [FullPoll(ps[j], s, o)];
    assert es[1..] == [];
    Singleton(ps, s, es[0]);
    Singleton(ps, Start(ps, after).value, es[0]);
  }

  lemma {:induction false} Singleton(ps: seq<Position>, s: State, e: Event)
    requires Sized(ps, s)
    ensures DryRun(ps, s, [e]).Some? <==> Interpret(ps, s, e).Some?
  {
  }

  /** The replay accepts every list the dry run accepts exactly when no pipe that keeps bytes became writable
      by the drain. */
  lemma {:induction false} DryRunPredictsReplay(ps: seq<Position>, before: nat -> bool, after: nat -> bool)
    requires WellFormed(ps) && Start(ps, before).Some? && DrainOnlyFrees(ps, before, after)
    requires forall j: nat :: j < |ps| ==> Find(ps, ps[j].descriptor, 0) == Some(j)
    ensures Start(ps, after).Some?
    ensures (forall es :: Carries(ps, before, after, es)) <==> !(exists o: nat :: Flips(ps, o, before, after))
  {
    if o: nat :| Flips(ps, o, before, after) {
      var es := FlipBreaks(ps, o, before, after);
    } else {
      StartsLoose(ps, before, after);
      forall es ensures Carries(ps, before, after, es) {
        if DryRun(ps, Start(ps, before).value, es).Some? {
          LooseRun(ps, Start(ps, before).value, Start(ps, after).value, es);
        }
      }
    }
  }

  // ---------------------------------------------------------------- the whole way, from capture to replay

  /** The kernel's queues as captured. */
  ghost predicate AtCapture(ps: seq<Position>, k: seq<Real>) {
    && |k| == |ps|
    && forall o: nat :: IsOwner(ps, o) ==> CapturedAs(ps, k, o)
  }

  ghost predicate CapturedAs(ps: seq<Position>, k: seq<Real>, o: nat)
    requires |k| == |ps| && o < |ps|
  {
    match ps[o].kind
    case Plain => true
    case Pipe =>
      && k[o].RealPipe? && SlotsOk(k[o].slots) && PipeBytes(k[o].slots) == ps[o].content
      && |k[o].slots| <= MaxSlots(ps[o].capacity)
    case Socket =>
      && k[o].RealSocket? && Filled(k[o].buffers) && AllBytes(k[o].buffers) == ps[o].content
      && Layout(k[o].buffers, 0) == CapturedMarks(ps, ps[o].controls)
      && k[o].shut == ps[o].shutdown && k[o].spent <= ps[o].charged
  }

  /** The drain reads from each queue what had been taken from it when the list was recorded. */
  function Drained(ps: seq<Position>, k: seq<Real>): (r: seq<Real>)
    requires |k| == |ps|
    ensures |r| == |k|
  {
    seq(|k|, o requires 0 <= o < |k| =>
      match k[o]
      case NoQueue => NoQueue
      case RealPipe(slots) => RealPipe(DropSlots(slots, ps[o].after))
      case RealSocket(bs, shut, spent) => RealSocket(DropBytes(bs, ps[o].after), shut, spent))
  }

  /** Poll finds a pipe writable exactly if it has a free slot. */
  ghost predicate PollsTruly(ps: seq<Position>, k: seq<Real>, poll: nat -> bool)
    requires |k| == |ps|
  {
    forall o: nat :: IsOwner(ps, o) && ps[o].kind.Pipe? && k[o].RealPipe? ==>
      (poll(ps[o].inode) <==> |k[o].slots| < MaxSlots(ps[o].capacity))
  }

  lemma {:induction false} NoMarks(bs: seq<Buffer>, base: nat, other: nat)
    requires Layout(bs, base) == []
    ensures Layout(bs, other) == []
    decreases |bs|
  {
    if bs != [] { NoMarks(bs[1..], base + |bs[0].data|, other + |bs[0].data|); }
  }

  /** Messages with rights are only captured on sockets nothing had been taken from. */
  lemma {:induction false} NothingTakenBefore(ps: seq<Position>, n: nat, o: nat)
    requires n <= |ps| && o < n && IsOwner(ps, o) && StartMessages(ps, n).Some? && ps[o].after > 0
    ensures ps[o].controls == []
  {
    if o < n - 1 { NothingTakenBefore(ps, n - 1, o); }
  }

  lemma {:induction false} DrainedSocket(ps: seq<Position>, k: seq<Real>, o: nat)
    requires WellFormed(ps) && AtCapture(ps, k) && IsOwner(ps, o) && ps[o].kind.Socket? && StartMessages(ps, |ps|).Some?
    ensures var bs := DropBytes(k[o].buffers, ps[o].after);
      Filled(bs) && AllBytes(bs) == ps[o].content[ps[o].after..] && Layout(bs, 0) == CapturedMarks(ps, ps[o].controls)
  {
    assert CapturedAs(ps, k, o);
    var n := ps[o].after;
    if n == 0 {
      assert ps[o].content[0..] == ps[o].content;
    } else {
      NothingTakenBefore(ps, |ps|, o);
      DropLayout(k[o].buffers, n, 0);
      NoMarks(DropBytes(k[o].buffers, n), n, 0);
    }
  }

  lemma {:induction false} DrainedAtSnapshot(ps: seq<Position>, k: seq<Real>, after: nat -> bool)
    requires WellFormed(ps) && AtCapture(ps, k) && StartMessages(ps, |ps|).Some?
    requires PollsTruly(ps, Drained(ps, k), after)
    ensures AtSnapshot(ps, Drained(ps, k), after)
  {
    forall o: nat | IsOwner(ps, o) && ps[o].kind.Socket?
      ensures var bs := DropBytes(k[o].buffers, ps[o].after);
        Filled(bs) && AllBytes(bs) == ps[o].content[ps[o].after..] && Layout(bs, 0) == CapturedMarks(ps, ps[o].controls)
    {
      DrainedSocket(ps, k, o);
    }
    forall o: nat | IsOwner(ps, o) ensures CapturedAs(ps, k, o) {
    }
    forall o: nat | IsOwner(ps, o) && ps[o].kind.Pipe?
      ensures var slots := DropSlots(k[o].slots, ps[o].after);
        SlotsOk(slots) && PipeBytes(slots) == ps[o].content[ps[o].after..] && |slots| <= MaxSlots(ps[o].capacity)
    {
      DropShape(k[o].slots, ps[o].after);
    }
  }

  lemma {:induction false} DrainingFrees(ps: seq<Position>, k: seq<Real>, before: nat -> bool, after: nat -> bool)
    requires WellFormed(ps) && AtCapture(ps, k) && PollsTruly(ps, k, before) && PollsTruly(ps, Drained(ps, k), after)
    ensures DrainOnlyFrees(ps, before, after)
  {
    forall o: nat | IsOwner(ps, o) && ps[o].kind.Pipe? && before(ps[o].inode) ensures after(ps[o].inode) {
      assert CapturedAs(ps, k, o);
      DropShape(k[o].slots, ps[o].after);
    }
  }

  lemma {:induction false} LooseCramped(ps: seq<Position>, a: State, b: State, rough: set<nat>, es: seq<Event>)
    requires WellFormed(ps) && LooseStates(ps, a, b) && DryRun(ps, a, es).Some? && DryRun(ps, b, es).Some?
    ensures CrampedIn(ps, a, rough, es) <==> CrampedIn(ps, b, rough, es)
    decreases |es|
  {
    if es != [] {
      LooseStep(ps, a, b, es[0]);
      LooseCrampedNow(ps, a, b, rough, es[0]);
      LooseCramped(ps, Interpret(ps, a, es[0]).value, Interpret(ps, b, es[0]).value, RoughAfter(ps, rough, es[0]),
        es[1..]);
    }
  }

  lemma {:induction false} LooseCrampedNow(ps: seq<Position>, a: State, b: State, rough: set<nat>, e: Event)
    requires LooseStates(ps, a, b)
    ensures Cramped(ps, a, rough, e) <==> Cramped(ps, b, rough, e)
  {
    var f := Find(ps, e.fd, 0);
    if f.Some? { assert Loose(ps[Owner(ps, f.value)], a.queues[Owner(ps, f.value)], b.queues[Owner(ps, f.value)]); }
  }

  /** Captured, accepted by the dry run, drained and replayed: without a flip the kernel carries out every accepted list
      that has no cramped write, and ends as the replay's own interpretation. */
  lemma {:induction false} DrainedReplays(ps: seq<Position>, k: seq<Real>, before: nat -> bool, after: nat -> bool,
                                          es: seq<Event>, costs: seq<nat>)
    requires WellFormed(ps) && AtCapture(ps, k) && Start(ps, before).Some?
    requires PollsTruly(ps, k, before) && PollsTruly(ps, Drained(ps, k), after)
    requires forall o: nat :: !Flips(ps, o, before, after)
    requires |costs| == |es| && forall c :: 0 <= c < |costs| ==> costs[c] <= CHARGE
    requires DryRun(ps, Start(ps, before).value, es).Some? && !CrampedIn(ps, Start(ps, before).value, {}, es)
    ensures Start(ps, after).Some? && DryRun(ps, Start(ps, after).value, es).Some?
    ensures var r := Replay(ps, Start(ps, after).value, Drained(ps, k), es, costs);
      r.Some? && r.value.0 == DryRun(ps, Start(ps, after).value, es).value &&
        Rel(ps, r.value.0, r.value.1, PastAll(ps, NOTHING, es))
  {
    DrainingFrees(ps, k, before, after);
    StartsLoose(ps, before, after);
    var s, t := Start(ps, before).value, Start(ps, after).value;
    LooseRun(ps, s, t, es);
    LooseCramped(ps, s, t, {}, es);
    DrainedAtSnapshot(ps, k, after);
    StartInStep(ps, Drained(ps, k), after);
    ReplayFollows(ps, t, Drained(ps, k), NOTHING, es, costs);
  }

  /** The list is accepted by the dry run, and has no cramped write. */
  ghost predicate Sound(ps: seq<Position>, before: nat -> bool, es: seq<Event>)
    requires WellFormed(ps) && Start(ps, before).Some?
  {
    DryRun(ps, Start(ps, before).value, es).Some? && !CrampedIn(ps, Start(ps, before).value, {}, es)
  }

  ghost predicate CarriedOut(ps: seq<Position>, k: seq<Real>, after: nat -> bool, es: seq<Event>)
    requires WellFormed(ps) && |k| == |ps| && Start(ps, after).Some?
  {
    forall costs: seq<nat> :: |costs| == |es| && (forall c :: 0 <= c < |costs| ==> costs[c] <= CHARGE) ==>
      Replay(ps, Start(ps, after).value, k, es, costs).Some?
  }

  /** And exactly then: the drained kernel carries out all such lists if and only if no pipe flips. */
  lemma {:induction false} DrainedReplaysExactly(ps: seq<Position>, k: seq<Real>, before: nat -> bool,
                                                 after: nat -> bool)
    requires WellFormed(ps) && AtCapture(ps, k) && Start(ps, before).Some?
    requires PollsTruly(ps, k, before) && PollsTruly(ps, Drained(ps, k), after)
    requires forall j: nat :: j < |ps| ==> Find(ps, ps[j].descriptor, 0) == Some(j)
    ensures Start(ps, after).Some?
    ensures (forall es :: Sound(ps, before, es) ==> CarriedOut(ps, Drained(ps, k), after, es)) <==>
      !(exists o: nat :: Flips(ps, o, before, after))
  {
    if o: nat :| Flips(ps, o, before, after) {
      var es := FlipFails(ps, k, o, before, after);
      assert Sound(ps, before, es) && !CarriedOut(ps, Drained(ps, k), after, es);
    } else {
      forall es | Sound(ps, before, es) ensures CarriedOut(ps, Drained(ps, k), after, es) {
        forall costs: seq<nat> | |costs| == |es| && (forall c :: 0 <= c < |costs| ==> costs[c] <= CHARGE)
          ensures Replay(ps, Start(ps, after).value, Drained(ps, k), es, costs).Some?
        {
          DrainedReplays(ps, k, before, after, es, costs);
        }
      }
    }
  }

  lemma {:induction false} FlipFails(ps: seq<Position>, k: seq<Real>, o: nat, before: nat -> bool, after: nat -> bool)
    returns (es: seq<Event>)
    requires |k| == |ps| && WellFormed(ps) && Start(ps, before).Some? && Flips(ps, o, before, after)
    requires forall j: nat :: j < |ps| ==> Find(ps, ps[j].descriptor, 0) == Some(j)
    ensures Start(ps, after).Some? && Sound(ps, before, es) && !CarriedOut(ps, Drained(ps, k), after, es)
  {
    var s := Start(ps, before).value;
    var j: nat :| o <= j < |ps| && ps[j].kind.Pipe? && ps[j].inode == ps[o].inode && !ps[j].access.ReadOnly?;
    FlipTells(ps, o, j, before, after);
    es := [FullPoll(ps[j], s, o)];
    assert es[1..] == [];
    Singleton(ps, s, es[0]);
    var costs: seq<nat> := [0];
    assert Replay(ps, Start(ps, after).value, Drained(ps, k), es, costs).None?;
  }
}

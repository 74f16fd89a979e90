/** Which recorded writes, closes, shutdowns, failures and polls are accepted after an accepted list, in terms of what
    was captured and what the list holds; and that a poll for room is answered exactly when the captured state decides
    it. */
module QueueReplayAccepts {
  import opened Basics
  import opened QueueReplay
  import opened QueueReplayPipes
  import opened QueueReplayProofs
  import opened QueueReplayEnds

  // ---------------------------------------------------------------- what has been sent

  predicate SendsTo(ps: seq<Position>, e: Event, o: nat) {
    e.Send? && Own(ps, e, o)
  }

  /** How many writes the list made on queue o, and of how many bytes together. */
  function Writes(ps: seq<Position>, es: seq<Event>, o: nat): nat {
    if es == [] then 0 else (if SendsTo(ps, es[0], o) then 1 else 0) + Writes(ps, es[1..], o)
  }

  function WrittenBytes(ps: seq<Position>, es: seq<Event>, o: nat): nat {
    if es == [] then 0 else (if SendsTo(ps, es[0], o) then |es[0].data| else 0) + WrittenBytes(ps, es[1..], o)
  }

  predicate SameCounts(a: Queue, b: Queue, writes: nat, bytes: nat) {
    b.writes == a.writes + writes && b.produced == a.produced + bytes && b.writable == a.writable
  }

  lemma {:induction false} DeliverCounts(s: State, o: nat, peer: Option<nat>, data: seq<byte>, refs: seq<nat>, p: nat)
    requires o < |s.queues| && (peer.Some? ==> peer.value < |s.queues|) && p < |s.queues|
    ensures SameCounts(s.queues[p], Deliver(s, o, peer, data, refs).queues[p], if p == o then 1 else 0,
                       if p == o then |data| else 0)
  {
  }

  lemma {:induction false} TakeCounts(ps: seq<Position>, s: State, i: nat, e: Event, p: nat)
    requires Sized(ps, s) && i < |ps| && e.Send? && !ps[i].kind.Plain? && TakeSource(ps, s, i, e).Some? && p < |ps|
    ensures SameCounts(s.queues[p], TakeSource(ps, s, i, e).value.queues[p], 0, 0)
  {
  }

  lemma {:induction false} SendCounts(ps: seq<Position>, s: State, i: nat, e: Event, p: nat)
    requires Sized(ps, s) && i < |ps| && e.Send? && !ps[i].kind.Plain? && SendOp(ps, s, i, e).Some? && p < |ps|
    ensures var own := p == Owner(ps, i);
      SameCounts(s.queues[p], SendOp(ps, s, i, e).value.queues[p], if own then 1 else 0, if own then |e.data| else 0)
  {
    TakeCounts(ps, s, i, e, p);
    DeliverCounts(TakeSource(ps, s, i, e).value, Owner(ps, i), Peer(ps, i), e.data, SentRights(ps, e).value, p);
  }

  lemma {:induction false} CloseCounts(ps: seq<Position>, s: State, i: nat, e: Event, p: nat)
    requires Sized(ps, s) && i < |ps| && e.Close? && CloseQueue(ps, s, i, e).Some? && p < |ps|
    ensures SameCounts(s.queues[p], CloseQueue(ps, s, i, e).value.queues[p], 0, 0)
  {
  }

  lemma {:induction false} StepCounts(ps: seq<Position>, s: State, e: Event, p: nat)
    requires Sized(ps, s) && Interpret(ps, s, e).Some? && p < |ps|
    ensures var own := SendsTo(ps, e, p);
      SameCounts(s.queues[p], Interpret(ps, s, e).value.queues[p], if own then 1 else 0, if own then |e.data| else 0)
  {
    var i := Find(ps, e.fd, 0).value;
    if e.Send? { SendCounts(ps, s, i, e, p); }
    else if e.Close? { CloseCounts(ps, s, i, e, p); }
  }

  /** Over any accepted list the two counters of a queue are those of its writes. */
  lemma {:induction false} ListCounts(ps: seq<Position>, s: State, es: seq<Event>, p: nat)
    requires Sized(ps, s) && DryRun(ps, s, es).Some? && p < |ps|
    ensures SameCounts(s.queues[p], DryRun(ps, s, es).value.queues[p], Writes(ps, es, p), WrittenBytes(ps, es, p))
    decreases |es|
  {
    if es != [] {
      StepCounts(ps, s, es[0], p);
      ListCounts(ps, Interpret(ps, s, es[0]).value, es[1..], p);
    }
  }

  lemma {:induction false} CountsFromCapture(ps: seq<Position>, pollOut: nat -> bool, es: seq<Event>, o: nat)
    requires Accepted(ps, pollOut, es) && IsOwner(ps, o)
    ensures var q := DryRun(ps, Start(ps, pollOut).value, es).value.queues[o];
      && q.writes == Writes(ps, es, o) && q.produced == WrittenBytes(ps, es, o)
      && (q.writable <==> ps[o].kind.Pipe? && HasWriter(ps, o) && pollOut(ps[o].inode))
  {
    ListCounts(ps, Start(ps, pollOut).value, es, o);
  }

  // ---------------------------------------------------------------- writes

  /** Nobody reads any more what the socket sends. */
  predicate PeerDeaf(ps: seq<Position>, es: seq<Event>, i: nat)
    requires i < |ps|
  {
    var peer := Peer(ps, i);
    if peer.Some? then Ended(ps, es, peer.value, ReadShut) else ps[i].peerShutdown.rd
  }

  /** A send on a socket, with or without rights, is accepted exactly if the handle can write, all that was asked for
      was sent, both sides are open, a page and sixteen writes are not exceeded, the send budget bears another full
      charge, the captured peer's buffer has room, and rights come with bytes and name captured handles. */
  lemma {:induction false} SocketSendExactly(ps: seq<Position>, pollOut: nat -> bool, es: seq<Event>, e: Event, i: nat)
    requires Accepted(ps, pollOut, es)
    requires e.Send? && (e.source.Given? || e.source.Message?) && Find(ps, e.fd, 0) == Some(i) && ps[i].kind.Socket?
    ensures var t := DryRun(ps, Start(ps, pollOut).value, es).value;
      var o, peer, n := Owner(ps, i), Peer(ps, i), |e.data|;
      Interpret(ps, t, e).Some? <==>
        && !ps[i].access.ReadOnly? && e.requested == n && !Ended(ps, es, o, WriteShut) && !PeerDeaf(ps, es, i)
        && WrittenBytes(ps, es, o) + n <= PAGE && Writes(ps, es, o) < WRITES
        && ps[i].charged + (Writes(ps, es, o) + 1) * CHARGE <= ps[i].capacity
        && (peer.Some? ==> |t.queues[peer.value].bytes| + n <= |ps[peer.value].content| + PAGE)
        && (e.source.Message? ==> (e.source.rights == [] || n > 0) && ResolveAll(ps, e.source.rights).Some?)
  {
    var o := Owner(ps, i);
    OwnerIsOwner(ps, i);
    EndsExactly(ps, pollOut, es, o, WriteShut);
    CountsFromCapture(ps, pollOut, es, o);
    if Peer(ps, i).Some? {
      PeerIsOwner(ps, i);
      EndsExactly(ps, pollOut, es, Peer(ps, i).value, ReadShut);
    }
    SocketSendNow(ps, DryRun(ps, Start(ps, pollOut).value, es).value, e, i);
  }

  lemma {:induction false} SocketSendNow(ps: seq<Position>, t: State, e: Event, i: nat)
    requires Sized(ps, t) && Find(ps, e.fd, 0) == Some(i) && ps[i].kind.Socket?
    requires e.Send? && (e.source.Given? || e.source.Message?)
    ensures var o, peer, n := Owner(ps, i), Peer(ps, i), |e.data|; var q := t.queues[o];
      Interpret(ps, t, e).Some? <==>
        && !ps[i].access.ReadOnly? && e.requested == n && !q.shutdown.wr
        && !(if peer.Some? then t.queues[peer.value].shutdown.rd else ps[i].peerShutdown.rd)
        && q.produced + n <= PAGE && q.writes < WRITES && ps[i].charged + (q.writes + 1) * CHARGE <= ps[i].capacity
        && (peer.Some? ==> |t.queues[peer.value].bytes| + n <= |ps[peer.value].content| + PAGE)
        && (e.source.Message? ==> (e.source.rights == [] || n > 0) && ResolveAll(ps, e.source.rights).Some?)
  {
    assert Interpret(ps, t, e).Some? <==> SentRights(ps, e).Some? && !SendRefused(ps, t, i, e);
    assert e.source.Message? && ResolveAll(ps, e.source.rights) == Some([]) ==> e.source.rights == [];
  }

  /** A plain write on a pipe is accepted exactly if the handle can write; all that was asked for was written, or a
      write of more than a page that does not wait filled the empty pipe; a reader is left; poll found room when the
      pipe was captured, or a page has been read since; and the page of all writes, their number, the pipe's capacity
      and its buffer bear it. */
  lemma {:induction false} PipeWriteExactly(ps: seq<Position>, pollOut: nat -> bool, es: seq<Event>, e: Event, i: nat)
    requires Accepted(ps, pollOut, es)
    requires e.Send? && e.source.Given? && Find(ps, e.fd, 0) == Some(i) && ps[i].kind.Pipe?
    ensures var t := DryRun(ps, Start(ps, pollOut).value, es).value; var o, n := Owner(ps, i), |e.data|;
      Interpret(ps, t, e).Some? <==>
        && !ps[i].access.ReadOnly? && !Ended(ps, es, o, WriteShut)
        && (e.requested == n ||
             (SettingAfter(ps, es, i, Flags(ps[i].append, ps[i].nonblock)).nonblock && e.requested > PAGE &&
              n == ps[i].capacity && t.queues[o].bytes == []))
        && ((HasWriter(ps, o) && pollOut(ps[o].inode)) || t.queues[o].consumed >= PAGE)
        && WrittenBytes(ps, es, o) + n <= PAGE && Writes(ps, es, o) < WRITES
        && |t.queues[o].bytes| + n <= ps[i].capacity && |t.queues[o].bytes| + n <= |ps[o].content| + PAGE
  {
    var o := Owner(ps, i);
    OwnerIsOwner(ps, i);
    EndsExactly(ps, pollOut, es, o, WriteShut);
    CountsFromCapture(ps, pollOut, es, o);
    ListSets(ps, Start(ps, pollOut).value, es, i);
    PipeWriteNow(ps, DryRun(ps, Start(ps, pollOut).value, es).value, e, i);
  }

  lemma {:induction false} PipeWriteNow(ps: seq<Position>, t: State, e: Event, i: nat)
    requires Sized(ps, t) && Find(ps, e.fd, 0) == Some(i) && ps[i].kind.Pipe? && e.Send? && e.source.Given?
    ensures var o, n := Owner(ps, i), |e.data|; var q := t.queues[o];
      Interpret(ps, t, e).Some? <==>
        && !ps[i].access.ReadOnly? && !q.shutdown.wr
        && (e.requested == n || (t.flags[i].nonblock && e.requested > PAGE && n == ps[i].capacity && q.bytes == []))
        && (q.writable || q.consumed >= PAGE) && q.produced + n <= PAGE && q.writes < WRITES
        && |q.bytes| + n <= ps[i].capacity && |q.bytes| + n <= |ps[o].content| + PAGE
  {
    assert Interpret(ps, t, e).Some? <==> !SendRefused(ps, t, i, e);
  }

  /** A splice or tee is accepted only between two pipes, from a handle that can read, of some bytes that are at the
      front of its queue, all that were asked for, where every byte finds a slot of its own; and only on the
      conditions of a write of as many bytes. */
  lemma {:induction false} CarryExactly(ps: seq<Position>, t: State, e: Event, i: nat)
    requires WellFormed(ps) && Sized(ps, t) && Find(ps, e.fd, 0) == Some(i) && !ps[i].kind.Plain?
    requires e.Send? && (e.source.Move? || e.source.Copy?)
    ensures var f := Find(ps, e.source.fd, 0); var o := Owner(ps, i);
      Interpret(ps, t, e).Some? <==>
        && f.Some? && ps[i].kind.Pipe? && ps[f.value].kind.Pipe? && ps[f.value].inode != ps[i].inode
        && !ps[f.value].access.WriteOnly? && e.data != [] && e.requested == |e.data|
        && IsPrefix(e.data, t.queues[Owner(ps, f.value)].bytes)
        && (|t.queues[o].bytes| + |e.data|) * PAGE <= ps[i].capacity
        && Interpret(ps, t, e.(source := Given)).Some?
  {
    var f := Find(ps, e.source.fd, 0);
    if f.Some? && ps[i].kind.Pipe? && ps[f.value].kind.Pipe? {
      OwnerIsOwner(ps, i);
      OwnerIsOwner(ps, f.value);
      assert Owner(ps, f.value) == Owner(ps, i) <==> ps[f.value].inode == ps[i].inode by {
        SameOwner(ps, i, f.value);
      }
      CarryNow(ps, t, e, i, f.value);
    }
  }

  lemma {:induction false} SameOwner(ps: seq<Position>, i: nat, j: nat)
    requires i < |ps| && j < |ps| && !ps[i].kind.Plain? && !ps[j].kind.Plain?
    ensures Owner(ps, i) == Owner(ps, j) <==> ps[i].inode == ps[j].inode
  {
  }

  lemma {:induction false} CarryNow(ps: seq<Position>, t: State, e: Event, i: nat, j: nat)
    requires Sized(ps, t) && Find(ps, e.fd, 0) == Some(i) && ps[i].kind.Pipe?
    requires e.Send? && (e.source.Move? || e.source.Copy?) && Find(ps, e.source.fd, 0) == Some(j) && ps[j].kind.Pipe?
    ensures Interpret(ps, t, e).Some? <==>
      && Owner(ps, j) != Owner(ps, i) && !ps[j].access.WriteOnly? && e.data != [] && e.requested == |e.data|
      && IsPrefix(e.data, t.queues[Owner(ps, j)].bytes)
      && (|t.queues[Owner(ps, i)].bytes| + |e.data|) * PAGE <= ps[i].capacity
      && Interpret(ps, t, e.(source := Given)).Some?
  {
    var taken := TakeSource(ps, t, i, e);
    assert Interpret(ps, t, e).Some? <==> taken.Some? && !SendRefused(ps, taken.value, i, e);
    assert Interpret(ps, t, e.(source := Given)).Some? <==> !SendRefused(ps, t, i, e.(source := Given));
    if taken.Some? {
      assert taken.value.queues[Owner(ps, i)] == t.queues[Owner(ps, i)] && taken.value.flags == t.flags;
      assert Peer(ps, i) == Some(Owner(ps, i));
      assert SendRefused(ps, taken.value, i, e) <==> SendRefused(ps, t, i, e.(source := Given));
    }
  }

  // ---------------------------------------------------------------- closes and shutdowns

  /** A handle that keeps one of these ends of handle i's object open. */
  predicate KeepsOpen(ps: seq<Position>, r: nat, i: nat, ends: Ends)
    requires r < |ps| && i < |ps|
  {
    if ps[i].kind.Plain? then ps[r].description == ps[i].description
    else !ps[r].kind.Plain? && ps[r].inode == ps[i].inode &&
         ((ends.rd && !ps[r].access.WriteOnly?) || (ends.wr && !ps[r].access.ReadOnly?))
  }

  /** A message on its way, wherever to, carries a right to such a handle. */
  predicate OnItsWay(ps: seq<Position>, t: State, i: nat, ends: Ends)
    requires i < |ps|
  {
    exists m, r :: 0 <= m < |t.messages| && 0 <= r < |t.messages[m].rights| && CarriesRight(ps, t, m, r, i, ends)
  }

  predicate CarriesRight(ps: seq<Position>, t: State, m: nat, r: nat, i: nat, ends: Ends)
    requires i < |ps| && m < |t.messages| && r < |t.messages[m].rights|
  {
    !t.messages[m].place.Gone? && t.messages[m].rights[r] < |ps| && KeepsOpen(ps, t.messages[m].rights[r], i, ends)
  }

  lemma {:induction false} HeldExactly(ps: seq<Position>, t: State, i: nat, ends: Ends)
    requires i < |ps|
    ensures HeldByMessage(ps, t.messages, i, ends) <==> OnItsWay(ps, t, i, ends)
  {
    forall m, r | 0 <= m < |t.messages| && 0 <= r < |t.messages[m].rights| && t.messages[m].rights[r] < |ps|
      ensures RightHolds(ps, t.messages[m].rights[r], i, ends) <==> KeepsOpen(ps, t.messages[m].rights[r], i, ends)
    {
      if !ps[i].kind.Plain? && !ps[t.messages[m].rights[r]].kind.Plain? { SameOwner(ps, i, t.messages[m].rights[r]); }
    }
    if HeldByMessage(ps, t.messages, i, ends) {
      var m, r :| 0 <= m < |t.messages| && t.messages[m].place != Gone && 0 <= r < |t.messages[m].rights| &&
        t.messages[m].rights[r] < |ps| && RightHolds(ps, t.messages[m].rights[r], i, ends);
      assert CarriesRight(ps, t, m, r, i, ends);
    }
    if OnItsWay(ps, t, i, ends) {
      var m, r :| 0 <= m < |t.messages| && 0 <= r < |t.messages[m].rights| && CarriesRight(ps, t, m, r, i, ends);
      assert RightHolds(ps, t.messages[m].rights[r], i, ends);
    }
  }

  /** A last close is accepted exactly if it names an end, both of them for what is no queue, nobody outside keeps one
      of them open, and no message still on its way carries a right that does. */
  lemma {:induction false} CloseExactly(ps: seq<Position>, t: State, e: Event, i: nat)
    requires Sized(ps, t) && e.Close? && Find(ps, e.fd, 0) == Some(i)
    ensures Interpret(ps, t, e).Some? <==>
      && (e.ends.rd || e.ends.wr) && (ps[i].kind.Plain? ==> e.ends.rd && e.ends.wr)
      && (!ps[i].kind.Plain? ==> !(ps[i].outside.rd && e.ends.rd) && !(ps[i].outside.wr && e.ends.wr))
      && !OnItsWay(ps, t, i, e.ends)
  {
    HeldExactly(ps, t, i, e.ends);
  }

  /** A shutdown is accepted exactly of a socket, and of at least one side; and what is no queue can only be closed. */
  lemma {:induction false} ShutdownExactly(ps: seq<Position>, t: State, e: Event, i: nat)
    requires Sized(ps, t) && Find(ps, e.fd, 0) == Some(i)
    ensures e.Shutdown? ==> (Interpret(ps, t, e).Some? <==> ps[i].kind.Socket? && (e.ends.rd || e.ends.wr))
    ensures ps[i].kind.Plain? && !e.Close? ==> Interpret(ps, t, e).None?
  {
  }

  // ---------------------------------------------------------------- failures

  /** A write is recorded as one that would wait exactly on a pipe with a reader, by a handle that can write and does
      not wait, if the pipe is full, or too full for a write of at most a page, which is never split. */
  lemma {:induction false} WriteWaitsExactly(ps: seq<Position>, pollOut: nat -> bool, es: seq<Event>, e: Event, i: nat)
    requires Accepted(ps, pollOut, es)
    requires e.Fail? && e.fault.WouldBlock? && e.writing && Find(ps, e.fd, 0) == Some(i) && !ps[i].kind.Plain?
    ensures var t := DryRun(ps, Start(ps, pollOut).value, es).value; var o := Owner(ps, i);
      Interpret(ps, t, e).Some? <==>
        && ps[i].kind.Pipe? && !ps[i].access.ReadOnly? && e.requested > 0
        && (e.dontwait || SettingAfter(ps, es, i, Flags(ps[i].append, ps[i].nonblock)).nonblock)
        && !Ended(ps, es, o, WriteShut)
        && (|t.queues[o].bytes| == ps[i].capacity ||
            (e.requested <= PAGE && |t.queues[o].bytes| + e.requested > ps[i].capacity))
  {
    OwnerIsOwner(ps, i);
    EndsExactly(ps, pollOut, es, Owner(ps, i), WriteShut);
    ListSets(ps, Start(ps, pollOut).value, es, i);
  }

  /** The other failures: a bad descriptor exactly for the direction the handle lacks, and none but the three kinds. */
  lemma {:induction false} FaultExactly(ps: seq<Position>, t: State, e: Event, i: nat)
    requires Sized(ps, t) && e.Fail? && Find(ps, e.fd, 0) == Some(i) && !ps[i].kind.Plain?
    ensures e.fault.BadDescriptor? ==>
      (Interpret(ps, t, e).Some? <==> if e.writing then ps[i].access.ReadOnly? else ps[i].access.WriteOnly?)
    ensures e.fault.OtherError? ==> Interpret(ps, t, e).None?
  {
  }

  // ---------------------------------------------------------------- polls for room

  /** What the kernel may have charged to the socket by now: nothing once its peer has read all; what was captured as
      long as neither has moved; and never more than a full charge for each send. */
  predicate MayBeCharged(ps: seq<Position>, t: State, i: nat, charge: nat)
    requires Sized(ps, t) && i < |ps| && ps[i].kind.Socket?
  {
    var q, peer := t.queues[Owner(ps, i)], Peer(ps, i);
    if peer.Some? && t.queues[peer.value].bytes == [] then charge == 0
    else if q.writes == 0 && (peer.None? || t.queues[peer.value].consumed == 0) then charge == ps[i].charged
    else charge <= ps[i].charged + q.writes * CHARGE
  }

  /** A socket has room for a poll when its charges take at most a quarter of the budget. */
  predicate HasRoom(p: Position, charge: nat) {
    charge * 4 <= p.capacity
  }

  predicate Whatever(ps: seq<Position>, t: State, i: nat, room: bool, charge: nat)
    requires Sized(ps, t) && i < |ps| && ps[i].kind.Socket?
  {
    MayBeCharged(ps, t, i, charge) ==> HasRoom(ps[i], charge) == room
  }

  /** A poll for room on a socket is decided exactly if all charges the kernel may have come to agree on the answer, and
      the answer is theirs; otherwise the list is refused. */
  lemma {:induction false} SocketRoomExactly(ps: seq<Position>, t: State, i: nat, room: bool)
    requires Sized(ps, t) && i < |ps| && ps[i].kind.Socket?
    ensures PollWritable(ps, t, i) == Some(room) <==> forall charge: nat :: Whatever(ps, t, i, room, charge)
  {
    var q, peer := t.queues[Owner(ps, i)], Peer(ps, i);
    var most := ps[i].charged + q.writes * CHARGE;
    assert MayBeCharged(ps, t, i, most) || MayBeCharged(ps, t, i, ps[i].charged) || MayBeCharged(ps, t, i, 0);
    if forall charge: nat :: Whatever(ps, t, i, room, charge) {
      assert Whatever(ps, t, i, room, most) && Whatever(ps, t, i, room, 0) && Whatever(ps, t, i, room, ps[i].charged);
    }
  }

  /** Something failed at the other end, as a poll sees it. */
  predicate Failed(ps: seq<Position>, t: State, i: nat)
    requires Sized(ps, t) && i < |ps|
  {
    var q := t.queues[Owner(ps, i)];
    if ps[i].kind.Socket? then q.error else ps[i].access.WriteOnly? && q.shutdown.wr
  }

  /** An accepted poll that asks for room on a handle that can write has an answer, and reports just that; a select,
      which knows three kinds of events, reports failures as room too. */
  lemma {:induction false} RoomReported(ps: seq<Position>, t: State, e: Event, i: nat)
    requires Sized(ps, t) && e.Poll? && Find(ps, e.fd, 0) == Some(i) && !ps[i].kind.Plain? && Interpret(ps, t, e).Some?
    ensures Out in e.request && !ps[i].access.ReadOnly? ==> PollWritable(ps, t, i).Some?
    ensures Out in e.expected <==>
      Out in e.request &&
      ((!ps[i].access.ReadOnly? && PollWritable(ps, t, i) == Some(true)) || (e.select && Failed(ps, t, i)))
    ensures e.select ==> e.request <= {In, Out, Pri} && Pri !in e.expected
  {
    if ps[i].kind.Socket? { SocketRoom(ps, t, e, i); } else { PipeRoom(ps, t, e, i); }
  }

  lemma {:induction false} SocketRoom(ps: seq<Position>, t: State, e: Event, i: nat)
    requires Sized(ps, t) && i < |ps| && ps[i].kind.Socket? && e.Poll? && PollAgrees(ps, t, i, e)
    ensures Out in e.request && !ps[i].access.ReadOnly? ==> PollWritable(ps, t, i).Some?
    ensures Out in e.expected <==>
      Out in e.request &&
      ((!ps[i].access.ReadOnly? && PollWritable(ps, t, i) == Some(true)) || (e.select && Failed(ps, t, i)))
    ensures e.select ==> e.request <= {In, Out, Pri} && Pri !in e.expected
  {
  }

  lemma {:induction false} PipeRoom(ps: seq<Position>, t: State, e: Event, i: nat)
    requires Sized(ps, t) && i < |ps| && ps[i].kind.Pipe? && e.Poll? && PollAgrees(ps, t, i, e)
    ensures Out in e.request && !ps[i].access.ReadOnly? ==> PollWritable(ps, t, i).Some?
    ensures Out in e.expected <==>
      Out in e.request &&
      ((!ps[i].access.ReadOnly? && PollWritable(ps, t, i) == Some(true)) || (e.select && Failed(ps, t, i)))
    ensures e.select ==> e.request <= {In, Out, Pri} && Pri !in e.expected
  {
  }
}

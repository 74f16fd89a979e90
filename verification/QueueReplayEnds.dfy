/** What a recorded list says about the ends of its queues: when a queue is at its end of file, which of its directions
    are shut, and when its reader meets an error.  All of it is told by what was captured and by which events the list
    holds, and decides which empty reads, polls and failures are accepted. */
module QueueReplayEnds {
  import opened Basics
  import opened QueueReplay
  import opened QueueReplayProofs

  /** What may be known of a queue: there is no more to come, its reading side is shut, its writing side is shut. */
  datatype Known = EndOfFile | ReadShut | WriteShut

  predicate Has(q: Queue, w: Known) {
    match w
    case EndOfFile => q.eof
    case ReadShut => q.shutdown.rd
    case WriteShut => q.shutdown.wr
  }

  predicate Captured(p: Position, w: Known) {
    match w
    case EndOfFile => p.eof
    case ReadShut => p.shutdown.rd
    case WriteShut => p.shutdown.wr
  }

  /** The event is about queue o itself. */
  predicate Own(ps: seq<Position>, e: Event, o: nat) {
    var f := Find(ps, e.fd, 0); f.Some? && !ps[f.value].kind.Plain? && Owner(ps, f.value) == o
  }

  /** The event is about the socket at the other end of queue o. */
  predicate Other(ps: seq<Position>, e: Event, o: nat) {
    var f := Find(ps, e.fd, 0); f.Some? && ps[f.value].kind.Socket? && Peer(ps, f.value) == Some(o)
  }

  predicate OfPipe(ps: seq<Position>, e: Event) {
    var f := Find(ps, e.fd, 0); f.Some? && ps[f.value].kind.Pipe?
  }

  /** A shutdown names a side of its own socket or the opposite one of its peer; the last close of a socket shuts both
      sides at both ends and leaves the peer nothing to come; the last close of a pipe's end is seen at the other. */
  predicate Tells(ps: seq<Position>, e: Event, o: nat, w: Known) {
    match e
    case Shutdown(_, ends) =>
      if w.WriteShut? then (Own(ps, e, o) && ends.wr) || (Other(ps, e, o) && ends.rd)
      else (Own(ps, e, o) && ends.rd) || (Other(ps, e, o) && ends.wr)
    case Close(_, ends) =>
      if OfPipe(ps, e) then Own(ps, e, o) && ((w.EndOfFile? && ends.wr) || (w.WriteShut? && ends.rd))
      else Other(ps, e, o) || (Own(ps, e, o) && !w.EndOfFile?)
    case _ => false
  }

  predicate ToldIn(ps: seq<Position>, es: seq<Event>, o: nat, w: Known) {
    exists j :: 0 <= j < |es| && Tells(ps, es[j], o, w)
  }

  /** The other end was closed for good with bytes left unread there. */
  predicate LeavesUnread(ps: seq<Position>, s: State, e: Event, o: nat)
    requires Sized(ps, s)
  {
    e.Close? && Other(ps, e, o) && s.queues[Owner(ps, Find(ps, e.fd, 0).value)].bytes != []
  }

  predicate LeftUnread(ps: seq<Position>, s: State, es: seq<Event>, o: nat)
    requires Sized(ps, s)
  {
    exists j :: 0 <= j < |es| && DryRun(ps, s, es[..j]).Some? &&
      LeavesUnread(ps, DryRun(ps, s, es[..j]).value, es[j], o)
  }

  // ---------------------------------------------------------------- one event

  predicate SameEnds(a: Queue, b: Queue) {
    a.eof == b.eof && a.shutdown == b.shutdown && a.error == b.error
  }

  lemma {:induction false} DeliverLeavesEnds(s: State, o: nat, peer: Option<nat>, data: seq<byte>, refs: seq<nat>,
                                                  p: nat)
    requires o < |s.queues| && (peer.Some? ==> peer.value < |s.queues|) && p < |s.queues|
    ensures SameEnds(Deliver(s, o, peer, data, refs).queues[p], s.queues[p])
  {
  }

  lemma {:induction false} TakeLeavesEnds(ps: seq<Position>, s: State, i: nat, e: Event, p: nat)
    requires Sized(ps, s) && i < |ps| && e.Send? && !ps[i].kind.Plain? && TakeSource(ps, s, i, e).Some? && p < |ps|
    ensures SameEnds(TakeSource(ps, s, i, e).value.queues[p], s.queues[p])
  {
  }

  lemma {:induction false} SendLeavesEnds(ps: seq<Position>, s: State, i: nat, e: Event, p: nat)
    requires Sized(ps, s) && i < |ps| && e.Send? && !ps[i].kind.Plain? && SendOp(ps, s, i, e).Some? && p < |ps|
    ensures SameEnds(SendOp(ps, s, i, e).value.queues[p], s.queues[p])
  {
    TakeLeavesEnds(ps, s, i, e, p);
    DeliverLeavesEnds(TakeSource(ps, s, i, e).value, Owner(ps, i), Peer(ps, i), e.data, SentRights(ps, e).value, p);
  }

  lemma {:induction false} QuietLeavesEnds(ps: seq<Position>, s: State, e: Event, p: nat)
    requires Sized(ps, s) && Interpret(ps, s, e).Some? && !e.Close? && !e.Shutdown? && p < |ps|
    ensures SameEnds(Interpret(ps, s, e).value.queues[p], s.queues[p])
  {
    if e.Send? { SendLeavesEnds(ps, s, Find(ps, e.fd, 0).value, e, p); }
  }

  lemma {:induction false} ShutdownTells(ps: seq<Position>, s: State, i: nat, e: Event, o: nat, w: Known)
    requires Sized(ps, s) && IsOwner(ps, o) && e.Shutdown? && Find(ps, e.fd, 0) == Some(i) && !ps[i].kind.Plain?
    requires ShutdownQueue(ps, s, i, e).Some?
    ensures var q := ShutdownQueue(ps, s, i, e).value.queues[o];
      (Has(q, w) <==> Has(s.queues[o], w) || Tells(ps, e, o, w)) && q.error == s.queues[o].error
  {
  }

  lemma {:induction false} ClosePipeTells(ps: seq<Position>, s: State, i: nat, e: Event, o: nat, w: Known)
    requires Sized(ps, s) && IsOwner(ps, o) && e.Close? && Find(ps, e.fd, 0) == Some(i) && ps[i].kind.Pipe?
    ensures var q := ClosePipe(s, Owner(ps, i), e.ends).queues[o];
      && (Has(q, w) <==> Has(s.queues[o], w) || Tells(ps, e, o, w))
      && (q.error <==> s.queues[o].error || LeavesUnread(ps, s, e, o))
  {
    assert OfPipe(ps, e) && !Other(ps, e, o);
    assert Own(ps, e, o) <==> Owner(ps, i) == o;
  }

  lemma {:induction false} CloseSocketTells(ps: seq<Position>, s: State, i: nat, e: Event, o: nat, w: Known)
    requires Sized(ps, s) && IsOwner(ps, o) && e.Close? && Find(ps, e.fd, 0) == Some(i) && ps[i].kind.Socket?
    ensures var q := CloseSocket(s, Owner(ps, i), Peer(ps, i)).queues[o];
      && (Has(q, w) <==> Has(s.queues[o], w) || Tells(ps, e, o, w))
      && (q.error <==> s.queues[o].error || LeavesUnread(ps, s, e, o))
  {
    assert !OfPipe(ps, e);
    assert Own(ps, e, o) <==> Owner(ps, i) == o;
    assert Other(ps, e, o) <==> Peer(ps, i) == Some(o);
  }

  lemma {:induction false} CloseTells(ps: seq<Position>, s: State, i: nat, e: Event, o: nat, w: Known)
    requires Sized(ps, s) && IsOwner(ps, o) && e.Close? && Find(ps, e.fd, 0) == Some(i) && CloseQueue(ps, s, i, e).Some?
    ensures var q := CloseQueue(ps, s, i, e).value.queues[o];
      && (Has(q, w) <==> Has(s.queues[o], w) || Tells(ps, e, o, w))
      && (q.error <==> s.queues[o].error || LeavesUnread(ps, s, e, o))
  {
    match ps[i].kind
    case Plain => assert !Own(ps, e, o) && !Other(ps, e, o);
    case Pipe => ClosePipeTells(ps, s, i, e, o, w);
    case Socket => CloseSocketTells(ps, s, i, e, o, w);
  }

  lemma {:induction false} StepTells(ps: seq<Position>, s: State, e: Event, o: nat, w: Known)
    requires Sized(ps, s) && IsOwner(ps, o) && Interpret(ps, s, e).Some?
    ensures var q := Interpret(ps, s, e).value.queues[o];
      && (Has(q, w) <==> Has(s.queues[o], w) || Tells(ps, e, o, w))
      && (q.error <==> s.queues[o].error || LeavesUnread(ps, s, e, o))
  {
    var i := Find(ps, e.fd, 0).value;
    if e.Shutdown? { ShutdownTells(ps, s, i, e, o, w); }
    else if e.Close? { CloseTells(ps, s, i, e, o, w); }
    else { QuietLeavesEnds(ps, s, e, o); }
  }

  // ---------------------------------------------------------------- whole lists

  lemma {:induction false} ToldOnce(ps: seq<Position>, es: seq<Event>, o: nat, w: Known)
    requires es != []
    ensures ToldIn(ps, es, o, w) <==> Tells(ps, es[0], o, w) || ToldIn(ps, es[1..], o, w)
  {
    if j :| 0 <= j < |es| && Tells(ps, es[j], o, w) {
      if j > 0 { assert es[1..][j - 1] == es[j]; }
    }
    if j :| 0 <= j < |es[1..]| && Tells(ps, es[1..][j], o, w) { assert es[j + 1] == es[1..][j]; }
  }

  lemma {:induction false} UnreadOnce(ps: seq<Position>, s: State, es: seq<Event>, o: nat)
    requires Sized(ps, s) && es != [] && Interpret(ps, s, es[0]).Some?
    ensures LeftUnread(ps, s, es, o) <==>
      LeavesUnread(ps, s, es[0], o) || LeftUnread(ps, Interpret(ps, s, es[0]).value, es[1..], o)
  {
    var t := Interpret(ps, s, es[0]).value;
    assert es[..0] == [];
    forall j | 0 < j < |es|
      ensures DryRun(ps, s, es[..j]) == DryRun(ps, t, es[1..][..j - 1]) && es[j] == es[1..][j - 1]
    {
      assert es[..j][0] == es[0] && es[..j][1..] == es[1..][..j - 1];
    }
    if LeavesUnread(ps, s, es[0], o) { assert DryRun(ps, s, es[..0]).Some?; }
    if LeftUnread(ps, t, es[1..], o) {
      var j :| 0 <= j < |es[1..]| && DryRun(ps, t, es[1..][..j]).Some? &&
               LeavesUnread(ps, DryRun(ps, t, es[1..][..j]).value, es[1..][j], o);
      assert DryRun(ps, s, es[..j + 1]).Some? && LeavesUnread(ps, DryRun(ps, s, es[..j + 1]).value, es[j + 1], o);
    }
  }

  lemma {:induction false} ListTells(ps: seq<Position>, s: State, es: seq<Event>, o: nat, w: Known)
    requires Sized(ps, s) && IsOwner(ps, o) && DryRun(ps, s, es).Some?
    ensures var q := DryRun(ps, s, es).value.queues[o];
      && (Has(q, w) <==> Has(s.queues[o], w) || ToldIn(ps, es, o, w))
      && (q.error <==> s.queues[o].error || LeftUnread(ps, s, es, o))
    decreases |es|
  {
    if es != [] {
      var t := Interpret(ps, s, es[0]).value;
      StepTells(ps, s, es[0], o, w);
      ToldOnce(ps, es, o, w);
      UnreadOnce(ps, s, es, o);
      ListTells(ps, t, es[1..], o, w);
    }
  }

  /** After every accepted list, a queue is at its end of file, or has a side shut, exactly if it was captured so or
      some event of the list tells so; and its reader meets an error exactly if the other end was closed with bytes left
      unread there. */
  lemma {:induction false} EndsExactly(ps: seq<Position>, pollOut: nat -> bool, es: seq<Event>, o: nat, w: Known)
    requires WellFormed(ps) && Start(ps, pollOut).Some? && IsOwner(ps, o)
    requires DryRun(ps, Start(ps, pollOut).value, es).Some?
    ensures var s := Start(ps, pollOut).value; var q := DryRun(ps, s, es).value.queues[o];
      && (Has(q, w) <==> Captured(ps[o], w) || ToldIn(ps, es, o, w))
      && (q.error <==> LeftUnread(ps, s, es, o))
  {
    ListTells(ps, Start(ps, pollOut).value, es, o, w);
  }

  // ---------------------------------------------------------------- messages lie ahead of what was read

  /** The messages of a queue come one after the other, none before `from` and none beyond `to`. */
  predicate InRow(marks: seq<Mark>, from: nat, to: nat) {
    && (forall j :: 0 <= j < |marks| ==> from <= marks[j].start <= marks[j].end <= to)
    && forall i, j :: 0 <= i < j < |marks| ==> marks[i].end <= marks[j].start
  }

  ghost predicate Ahead(ps: seq<Position>, s: State) {
    && Sized(ps, s)
    && forall o: nat :: IsOwner(ps, o) ==> QueueAhead(ps, s, o)
  }

  ghost predicate QueueAhead(ps: seq<Position>, s: State, o: nat)
    requires Sized(ps, s) && o < |ps|
  {
    var q := s.queues[o];
    InRow(Live(s.messages, o), q.consumed, q.consumed + |q.bytes|) && (ps[o].kind.Pipe? ==> Live(s.messages, o) == [])
  }

  /** The captured messages of each queue are in the order of their bytes. */
  ghost predicate CapturedInRow(ps: seq<Position>) {
    forall o: nat :: IsOwner(ps, o) ==> InRow(CapturedMarks(ps, ps[o].controls), 0, |ps[o].content|)
  }

  lemma {:induction false} StartAhead(ps: seq<Position>, pollOut: nat -> bool)
    requires WellFormed(ps) && CapturedInRow(ps) && Start(ps, pollOut).Some?
    ensures Ahead(ps, Start(ps, pollOut).value)
  {
    var s := Start(ps, pollOut).value;
    forall o: nat | IsOwner(ps, o) ensures QueueAhead(ps, s, o) {
      StartLive(ps, |ps|, o);
      if ps[o].kind.Pipe? { PipesCarryNothing(ps, |ps|, o); }
      MessagesNeedAll(ps, |ps|, o);
    }
  }

  lemma {:induction false} MessagesNeedAll(ps: seq<Position>, n: nat, o: nat)
    requires o < n <= |ps| && IsOwner(ps, o) && StartMessages(ps, n).Some?
    ensures ps[o].controls != [] ==> ps[o].after == 0
  {
    if o < n - 1 { StartsWith(ps, n - 1); MessagesNeedAll(ps, n - 1, o); }
  }

  lemma {:induction false} RowShrinks(marks: seq<Mark>, from: nat, to: nat, n: nat)
    requires InRow(marks, from, to) && from + n <= to && Stops(marks, from + n)
    ensures InRow(Rest(marks, from + n), from + n, to)
  {
    var rest := Rest(marks, from + n);
    if marks != [] && marks[0].start < from + n {
      forall j | 0 <= j < |rest| ensures from + n <= rest[j].start { assert rest[j] == marks[j + 1]; }
    } else if marks != [] {
      forall j | 0 < j < |marks| ensures from + n <= marks[j].start {
        assert marks[0].end <= marks[j].start;
      }
    }
  }

  lemma {:induction false} RowAscends(marks: seq<Mark>, from: nat, to: nat)
    requires InRow(marks, from, to)
    ensures Ascending(marks)
  {
    forall j | 0 <= j < |marks| ensures marks[j].start >= marks[0].start {
      if j > 0 { assert marks[0].end <= marks[j].start; }
    }
  }

  lemma {:induction false} ReceiveStaysAhead(ps: seq<Position>, s: State, i: nat, e: Event)
    requires Ahead(ps, s) && i < |ps| && !ps[i].kind.Plain? && e.Receive? && ReceiveOp(ps, s, i, e).Some?
    ensures Ahead(ps, ReceiveOp(ps, s, i, e).value)
  {
    var o, n, t := Owner(ps, i), |e.data|, ReceiveOp(ps, s, i, e).value;
    OwnerIsOwner(ps, i);
    assert QueueAhead(ps, s, o);
    var q := s.queues[o];
    RowAscends(Live(s.messages, o), q.consumed, q.consumed + |q.bytes|);
    ReceiveChecked(ps, s, i, e);
    if !e.peek {
      ConsumeShape(s, o, n);
      RowShrinks(Live(s.messages, o), q.consumed, q.consumed + |q.bytes|, n);
      forall p: nat | IsOwner(ps, p) ensures QueueAhead(ps, t, p) { assert QueueAhead(ps, s, p); }
    }
  }

  lemma {:induction false} TakeStaysAhead(ps: seq<Position>, s: State, i: nat, e: Event)
    requires WellFormed(ps) && Ahead(ps, s) && i < |ps| && e.Send? && !ps[i].kind.Plain?
    requires TakeSource(ps, s, i, e).Some?
    ensures Ahead(ps, TakeSource(ps, s, i, e).value)
    ensures TakeSource(ps, s, i, e).value.messages == s.messages
  {
    var t := TakeSource(ps, s, i, e).value;
    forall p: nat | IsOwner(ps, p) ensures QueueAhead(ps, t, p) {
      assert QueueAhead(ps, s, p);
      if e.source.Move? {
        var from := Find(ps, e.source.fd, 0).value;
        OwnerIsOwner(ps, from);
        assert Twins(ps[from], ps[Owner(ps, from)]);
        if Owner(ps, from) == p { assert Live(t.messages, p) == []; }
      }
    }
  }

  lemma {:induction false} RowGrows(marks: seq<Mark>, from: nat, to: nat, more: nat, rights: seq<nat>)
    requires InRow(marks, from, to) && from <= to
    ensures InRow(marks, from, to + more) && InRow(marks + [Mark(to, to + more, rights)], from, to + more)
  {
    var all, last := marks + [Mark(to, to + more, rights)], Mark(to, to + more, rights);
    forall j | 0 <= j < |all| ensures from <= all[j].start <= all[j].end <= to + more {
      if j < |marks| { assert all[j] == marks[j]; } else { assert all[j] == last; }
    }
    forall i, j | 0 <= i < j < |all| ensures all[i].end <= all[j].start {
      assert all[i] == marks[i];
      if j < |marks| { assert all[j] == marks[j]; } else { assert all[j] == last; }
    }
  }

  lemma {:induction false} DeliverLengths(s: State, o: nat, peer: Option<nat>, data: seq<byte>, refs: seq<nat>, p: nat)
    requires o < |s.queues| && (peer.Some? ==> peer.value < |s.queues|) && p < |s.queues|
    ensures var q, r := s.queues[p], Deliver(s, o, peer, data, refs).queues[p];
      r.consumed == q.consumed && |r.bytes| == |q.bytes| + if peer == Some(p) then |data| else 0
  {
  }

  lemma {:induction false} RowIsAhead(ps: seq<Position>, s: State, t: State, p: nat, more: nat, refs: seq<nat>)
    requires Sized(ps, s) && Sized(ps, t) && p < |ps| && QueueAhead(ps, s, p)
    requires t.queues[p].consumed == s.queues[p].consumed && |t.queues[p].bytes| == |s.queues[p].bytes| + more
    requires var live, to := Live(s.messages, p), s.queues[p].consumed + |s.queues[p].bytes|;
      || Live(t.messages, p) == live
      || (Live(t.messages, p) == live + [Mark(to, to + more, refs)] && !ps[p].kind.Pipe?)
    ensures QueueAhead(ps, t, p)
  {
    var q := s.queues[p];
    RowGrows(Live(s.messages, p), q.consumed, q.consumed + |q.bytes|, more, refs);
  }

  lemma {:induction false} DeliveredLive(s: State, o: nat, peer: Option<nat>, data: seq<byte>, refs: seq<nat>, p: nat)
    requires o < |s.queues| && (peer.Some? ==> peer.value < |s.queues|) && p < |s.queues|
    requires refs != [] && peer.Some? ==> peer.value != o
    ensures var live, to := Live(s.messages, p), s.queues[p].consumed + |s.queues[p].bytes|;
      || Live(Deliver(s, o, peer, data, refs).messages, p) == live
      || (peer == Some(p) && refs != [] &&
          Live(Deliver(s, o, peer, data, refs).messages, p) == live + [Mark(to, to + |data|, refs)])
  {
    if refs != [] { DeliverMarks(s, o, peer, data, refs, p); }
  }

  lemma {:induction false} DeliverQueueAhead(ps: seq<Position>, s: State, o: nat, peer: Option<nat>, data: seq<byte>,
                                             refs: seq<nat>, p: nat)
    requires Sized(ps, s) && IsOwner(ps, p) && QueueAhead(ps, s, p) && o < |ps| && (peer.Some? ==> peer.value < |ps|)
    requires refs != [] && peer.Some? ==> peer.value != o && !ps[peer.value].kind.Pipe?
    ensures QueueAhead(ps, Deliver(s, o, peer, data, refs), p)
  {
    DeliverLengths(s, o, peer, data, refs, p);
    DeliveredLive(s, o, peer, data, refs, p);
    RowIsAhead(ps, s, Deliver(s, o, peer, data, refs), p, if peer == Some(p) then |data| else 0, refs);
  }

  lemma {:induction false} DeliverStaysAhead(ps: seq<Position>, s: State, i: nat, data: seq<byte>, refs: seq<nat>)
    requires WellFormed(ps) && Ahead(ps, s) && i < |ps| && !ps[i].kind.Plain?
    requires refs != [] ==> ps[i].kind.Socket?
    ensures Ahead(ps, Deliver(s, Owner(ps, i), Peer(ps, i), data, refs))
  {
    var o, peer := Owner(ps, i), Peer(ps, i);
    if peer.Some? { PeerIsOwner(ps, i); }
    forall p: nat | IsOwner(ps, p) ensures QueueAhead(ps, Deliver(s, o, peer, data, refs), p) {
      assert QueueAhead(ps, s, p);
      DeliverQueueAhead(ps, s, o, peer, data, refs, p);
    }
  }

  lemma {:induction false} SendStaysAhead(ps: seq<Position>, s: State, i: nat, e: Event)
    requires WellFormed(ps) && Ahead(ps, s) && i < |ps| && e.Send? && !ps[i].kind.Plain? && SendOp(ps, s, i, e).Some?
    ensures Ahead(ps, SendOp(ps, s, i, e).value)
  {
    TakeStaysAhead(ps, s, i, e);
    DeliverStaysAhead(ps, TakeSource(ps, s, i, e).value, i, e.data, SentRights(ps, e).value);
  }

  lemma {:induction false} CloseStaysAhead(ps: seq<Position>, s: State, i: nat, e: Event)
    requires WellFormed(ps) && Ahead(ps, s) && i < |ps| && e.Close? && CloseQueue(ps, s, i, e).Some?
    ensures Ahead(ps, CloseQueue(ps, s, i, e).value)
  {
    var t := CloseQueue(ps, s, i, e).value;
    forall p: nat | IsOwner(ps, p) ensures QueueAhead(ps, t, p) {
      assert QueueAhead(ps, s, p);
      if ps[i].kind.Pipe? { PipeCloseAhead(ps, s, Owner(ps, i), e.ends, p); }
      else if ps[i].kind.Socket? { SocketCloseAhead(ps, s, Owner(ps, i), Peer(ps, i), p); }
    }
  }

  lemma {:induction false} PipeCloseAhead(ps: seq<Position>, s: State, o: nat, ends: Ends, p: nat)
    requires Sized(ps, s) && o < |ps| && p < |ps| && QueueAhead(ps, s, p)
    ensures QueueAhead(ps, ClosePipe(s, o, ends), p)
  {
  }

  lemma {:induction false} SocketCloseAhead(ps: seq<Position>, s: State, o: nat, peer: Option<nat>, p: nat)
    requires Sized(ps, s) && o < |ps| && p < |ps| && QueueAhead(ps, s, p) && (peer.Some? ==> peer.value < |ps|)
    ensures QueueAhead(ps, CloseSocket(s, o, peer), p)
  {
    var q, r := s.queues[p], CloseSocket(s, o, peer).queues[p];
    LiveDrop(s.messages, o, p);
    assert r.consumed == q.consumed && (p != o ==> r.bytes == q.bytes);
  }

  lemma {:induction false} StepStaysAhead(ps: seq<Position>, s: State, e: Event)
    requires WellFormed(ps) && Ahead(ps, s) && Interpret(ps, s, e).Some?
    ensures Ahead(ps, Interpret(ps, s, e).value)
  {
    var i := Find(ps, e.fd, 0).value;
    if e.Receive? { ReceiveStaysAhead(ps, s, i, e); }
    else if e.Send? { SendStaysAhead(ps, s, i, e); }
    else if e.Close? { CloseStaysAhead(ps, s, i, e); }
    else {
      var t := Interpret(ps, s, e).value;
      forall p: nat | IsOwner(ps, p) ensures QueueAhead(ps, t, p) { assert QueueAhead(ps, s, p); }
    }
  }

  lemma {:induction false} ListStaysAhead(ps: seq<Position>, s: State, es: seq<Event>)
    requires WellFormed(ps) && Ahead(ps, s) && DryRun(ps, s, es).Some?
    ensures Ahead(ps, DryRun(ps, s, es).value)
    decreases |es|
  {
    if es != [] {
      StepStaysAhead(ps, s, es[0]);
      ListStaysAhead(ps, Interpret(ps, s, es[0]).value, es[1..]);
    }
  }

  // ---------------------------------------------------------------- what the ends decide

  /** Nothing more will come to queue o, as captured or by the list. */
  predicate Ended(ps: seq<Position>, es: seq<Event>, o: nat, w: Known)
    requires o < |ps|
  {
    Captured(ps[o], w) || ToldIn(ps, es, o, w)
  }

  /** A snapshot and a list the dry run accepts from it. */
  ghost predicate Accepted(ps: seq<Position>, pollOut: nat -> bool, es: seq<Event>) {
    && WellFormed(ps) && CapturedInRow(ps) && Start(ps, pollOut).Some?
    && DryRun(ps, Start(ps, pollOut).value, es).Some?
  }

  lemma {:induction false} NothingStraddles(ps: seq<Position>, s: State, o: nat)
    requires Ahead(ps, s) && IsOwner(ps, o)
    ensures FirstControl(s.messages, o, s.queues[o].consumed, 0).None?
  {
    assert QueueAhead(ps, s, o);
    var q := s.queues[o];
    RowAscends(Live(s.messages, o), q.consumed, q.consumed + |q.bytes|);
    assert s.messages[0..] == s.messages;
    FirstIsHead(s.messages, o, q.consumed, 0);
  }

  /** After every accepted list, a read of no bytes is accepted exactly on a handle that can read, from a queue at its
      end of file, with nothing left unread by one who closed the other end; with rights it is asked of a socket, and
      brings none. */
  lemma {:induction false} EmptyReadExactly(ps: seq<Position>, pollOut: nat -> bool, es: seq<Event>, e: Event, i: nat)
    requires Accepted(ps, pollOut, es)
    requires e.Receive? && e.data == [] && Find(ps, e.fd, 0) == Some(i) && !ps[i].kind.Plain?
    ensures var s := Start(ps, pollOut).value; var o := Owner(ps, i);
      Interpret(ps, DryRun(ps, s, es).value, e).Some? <==>
        && !ps[i].access.WriteOnly? && (e.rights.Some? ==> ps[i].kind.Socket? && e.rights.value == [])
        && Ended(ps, es, o, EndOfFile) && !LeftUnread(ps, s, es, o)
  {
    var s, o := Start(ps, pollOut).value, Owner(ps, i);
    var t := DryRun(ps, s, es).value;
    OwnerIsOwner(ps, i);
    EndsExactly(ps, pollOut, es, o, EndOfFile);
    StartAhead(ps, pollOut);
    ListStaysAhead(ps, s, es);
    NothingStraddles(ps, t, o);
    EmptyReadNow(ps, t, e, i);
  }

  lemma {:induction false} EmptyReadNow(ps: seq<Position>, t: State, e: Event, i: nat)
    requires Sized(ps, t) && e.Receive? && e.data == [] && Find(ps, e.fd, 0) == Some(i) && !ps[i].kind.Plain?
    requires FirstControl(t.messages, Owner(ps, i), t.queues[Owner(ps, i)].consumed, 0).None?
    ensures Interpret(ps, t, e).Some? <==>
      && !ps[i].access.WriteOnly? && (e.rights.Some? ==> ps[i].kind.Socket? && e.rights.value == [])
      && t.queues[Owner(ps, i)].eof && !t.queues[Owner(ps, i)].error
  {
    assert ReceiveRefused(ps, t, i, e) <==>
      (e.rights.Some? && (!ps[i].kind.Socket? || e.rights.value != [])) || ps[i].access.WriteOnly? ||
      !t.queues[Owner(ps, i)].eof || t.queues[Owner(ps, i)].error;
  }

  // ---------------------------------------------------------------- polls and failures

  /** The events a poll finds on a socket, apart from room to write. */
  function Seen(ps: seq<Position>, q: Queue, i: nat): set<Ready>
    requires i < |ps|
  {
    (if q.bytes != [] || q.shutdown.rd then {In} else {}) + (if q.shutdown.rd then {RdHup} else {}) +
    (if ps[i].orphan || q.shutdown == Ends(true, true) then {Hup} else {}) + if q.error then {Err} else {}
  }

  lemma {:induction false} PollSees(ps: seq<Position>, s: State, i: nat, e: Event)
    requires Sized(ps, s) && i < |ps| && ps[i].kind.Socket? && e.Poll? && PollAgrees(ps, s, i, e)
    ensures var seen := Seen(ps, s.queues[Owner(ps, i)], i);
      && (!e.select ==> e.expected - {Out} == seen * (e.request + {Err, Hup}))
      && (e.select ==> (In in e.expected <==> In in e.request && seen * {In, Hup, Err} != {}))
  {
    var seen := Seen(ps, s.queues[Owner(ps, i)], i);
    if e.select { SelectSees(ps, s, i, e); }
    else if !ps[i].access.ReadOnly? && Out in e.request && PollWritable(ps, s, i) == Some(true) {
      assert e.expected == (seen + {Out}) * (e.request + {Err, Hup});
    } else {
      assert e.expected == seen * (e.request + {Err, Hup});
    }
  }

  lemma {:induction false} SelectSees(ps: seq<Position>, s: State, i: nat, e: Event)
    requires Sized(ps, s) && i < |ps| && ps[i].kind.Socket? && e.Poll? && e.select && PollAgrees(ps, s, i, e)
    ensures In in e.expected <==> In in e.request && Seen(ps, s.queues[Owner(ps, i)], i) * {In, Hup, Err} != {}
  {
    var seen := Seen(ps, s.queues[Owner(ps, i)], i);
    assert (seen + {Out}) * {In, Hup, Err} == seen * {In, Hup, Err};
  }

  /** What the reading side of a socket tells a poll: bytes, a side shut by either end, and the other end gone. */
  lemma {:induction false} SocketPollExactly(ps: seq<Position>, pollOut: nat -> bool, es: seq<Event>, e: Event, i: nat)
    requires Accepted(ps, pollOut, es)
    requires e.Poll? && !e.select && Find(ps, e.fd, 0) == Some(i) && ps[i].kind.Socket?
    requires Interpret(ps, DryRun(ps, Start(ps, pollOut).value, es).value, e).Some?
    ensures var s := Start(ps, pollOut).value; var o := Owner(ps, i);
      && (In in e.expected <==>
           In in e.request && (DryRun(ps, s, es).value.queues[o].bytes != [] || Ended(ps, es, o, ReadShut)))
      && (RdHup in e.expected <==> RdHup in e.request && Ended(ps, es, o, ReadShut))
      && (Hup in e.expected <==> ps[i].orphan || (Ended(ps, es, o, ReadShut) && Ended(ps, es, o, WriteShut)))
      && (Err in e.expected <==> LeftUnread(ps, s, es, o))
      && Pri !in e.expected
  {
    var o, t := Owner(ps, i), DryRun(ps, Start(ps, pollOut).value, es).value;
    OwnerIsOwner(ps, i);
    EndsExactly(ps, pollOut, es, o, ReadShut);
    EndsExactly(ps, pollOut, es, o, WriteShut);
    SocketPollNow(ps, t, e, i);
  }

  lemma {:induction false} SocketPollNow(ps: seq<Position>, t: State, e: Event, i: nat)
    requires Sized(ps, t) && i < |ps| && ps[i].kind.Socket? && e.Poll? && !e.select && PollAgrees(ps, t, i, e)
    ensures var q := t.queues[Owner(ps, i)];
      && (In in e.expected <==> In in e.request && (q.bytes != [] || q.shutdown.rd))
      && (RdHup in e.expected <==> RdHup in e.request && q.shutdown.rd)
      && (Hup in e.expected <==> ps[i].orphan || (q.shutdown.rd && q.shutdown.wr))
      && (Err in e.expected <==> q.error) && Pri !in e.expected
  {
    PollSees(ps, t, i, e);
    var seen := Seen(ps, t.queues[Owner(ps, i)], i);
    assert forall x :: x != Out ==> (x in e.expected <==> x in seen && x in e.request + {Err, Hup});
  }

  lemma {:induction false} PipePollNow(ps: seq<Position>, t: State, e: Event, i: nat)
    requires Sized(ps, t) && i < |ps| && ps[i].kind.Pipe? && e.Poll? && !e.select && PollAgrees(ps, t, i, e)
    ensures var q := t.queues[Owner(ps, i)];
      && (In in e.expected <==> In in e.request && q.bytes != [])
      && (Hup in e.expected <==> ps[i].access.ReadOnly? && q.eof)
      && (Err in e.expected <==> ps[i].access.WriteOnly? && q.shutdown.wr)
      && Pri !in e.expected && RdHup !in e.expected
  {
  }

  /** The same for a pipe: its reader is told that the last writer is gone, its writer that the last reader is. */
  lemma {:induction false} PipePollExactly(ps: seq<Position>, pollOut: nat -> bool, es: seq<Event>, e: Event, i: nat)
    requires Accepted(ps, pollOut, es)
    requires e.Poll? && !e.select && Find(ps, e.fd, 0) == Some(i) && ps[i].kind.Pipe?
    requires Interpret(ps, DryRun(ps, Start(ps, pollOut).value, es).value, e).Some?
    ensures var s := Start(ps, pollOut).value; var o := Owner(ps, i);
      && (In in e.expected <==> In in e.request && DryRun(ps, s, es).value.queues[o].bytes != [])
      && (Hup in e.expected <==> ps[i].access.ReadOnly? && Ended(ps, es, o, EndOfFile))
      && (Err in e.expected <==> ps[i].access.WriteOnly? && Ended(ps, es, o, WriteShut))
      && Pri !in e.expected && RdHup !in e.expected
  {
    var o := Owner(ps, i);
    OwnerIsOwner(ps, i);
    EndsExactly(ps, pollOut, es, o, EndOfFile);
    EndsExactly(ps, pollOut, es, o, WriteShut);
    PipePollNow(ps, DryRun(ps, Start(ps, pollOut).value, es).value, e, i);
  }

  /** A write is recorded as broken exactly on a handle that can write, to a queue whose writing side is shut or whose
      reader has shut its own. */
  lemma {:induction false} BrokenExactly(ps: seq<Position>, pollOut: nat -> bool, es: seq<Event>, e: Event, i: nat)
    requires Accepted(ps, pollOut, es)
    requires e.Fail? && e.fault.BrokenPipe? && Find(ps, e.fd, 0) == Some(i) && !ps[i].kind.Plain?
    ensures var s := Start(ps, pollOut).value; var o, peer := Owner(ps, i), Peer(ps, i);
      Interpret(ps, DryRun(ps, s, es).value, e).Some? <==>
        && e.writing && !ps[i].access.ReadOnly?
        && (Ended(ps, es, o, WriteShut) ||
            (ps[i].kind.Socket? &&
              if peer.Some? then Ended(ps, es, peer.value, ReadShut) else ps[i].peerShutdown.rd))
  {
    OwnerIsOwner(ps, i);
    EndsExactly(ps, pollOut, es, Owner(ps, i), WriteShut);
    if Peer(ps, i).Some? {
      PeerIsOwner(ps, i);
      EndsExactly(ps, pollOut, es, Peer(ps, i).value, ReadShut);
    }
  }

  /** The setting the list last gave to the description behind a handle, or the captured one. */
  function SettingAfter(ps: seq<Position>, es: seq<Event>, i: nat, was: Flags): Flags
    requires i < |ps|
    decreases |es|
  {
    if es == [] then was
    else
      var f := Find(ps, es[0].fd, 0);
      SettingAfter(ps, es[1..], i,
        if es[0].SetFlags? && f.Some? && ps[f.value].description == ps[i].description then es[0].to else was)
  }

  lemma {:induction false} StepSets(ps: seq<Position>, s: State, e: Event, i: nat)
    requires Sized(ps, s) && Interpret(ps, s, e).Some? && i < |ps|
    ensures var f := Find(ps, e.fd, 0);
      Interpret(ps, s, e).value.flags[i] ==
        if e.SetFlags? && ps[f.value].description == ps[i].description then e.to else s.flags[i]
  {
    if e.Send? { SendLeavesFlags(ps, s, Find(ps, e.fd, 0).value, e); }
  }

  lemma {:induction false} SendLeavesFlags(ps: seq<Position>, s: State, i: nat, e: Event)
    requires Sized(ps, s) && i < |ps| && e.Send? && !ps[i].kind.Plain? && SendOp(ps, s, i, e).Some?
    ensures SendOp(ps, s, i, e).value.flags == s.flags
  {
    assert TakeSource(ps, s, i, e).value.flags == s.flags;
  }

  lemma {:induction false} ListSets(ps: seq<Position>, s: State, es: seq<Event>, i: nat)
    requires Sized(ps, s) && DryRun(ps, s, es).Some? && i < |ps|
    ensures DryRun(ps, s, es).value.flags[i] == SettingAfter(ps, es, i, s.flags[i])
    decreases |es|
  {
    if es != [] {
      StepSets(ps, s, es[0], i);
      ListSets(ps, Interpret(ps, s, es[0]).value, es[1..], i);
    }
  }

  /** A read is recorded as one that would wait exactly on a handle that can read and does not wait, of something, from
      a queue that is empty, may still get more, and has no error to report. */
  lemma {:induction false} WouldWaitExactly(ps: seq<Position>, pollOut: nat -> bool, es: seq<Event>, e: Event, i: nat)
    requires Accepted(ps, pollOut, es)
    requires e.Fail? && e.fault.WouldBlock? && !e.writing && Find(ps, e.fd, 0) == Some(i) && !ps[i].kind.Plain?
    ensures var s := Start(ps, pollOut).value; var o := Owner(ps, i);
      Interpret(ps, DryRun(ps, s, es).value, e).Some? <==>
        && !ps[i].access.WriteOnly? && e.requested > 0
        && (e.dontwait || SettingAfter(ps, es, i, Flags(ps[i].append, ps[i].nonblock)).nonblock)
        && DryRun(ps, s, es).value.queues[o].bytes == []
        && !Ended(ps, es, o, EndOfFile) && !LeftUnread(ps, s, es, o)
  {
    OwnerIsOwner(ps, i);
    EndsExactly(ps, pollOut, es, Owner(ps, i), EndOfFile);
    ListSets(ps, Start(ps, pollOut).value, es, i);
  }
}

/** Why the replay agrees with the dry run: the kernel's queues stay in step with the private ones. */
module QueueReplayProofs {
  import opened Basics
  import opened QueueReplay
  import opened QueueReplayPipes

  /** The byte range of a message that carries rights, and the rights. */
  datatype Mark = Mark(start: nat, end: nat, rights: seq<nat>)

  function Layout(bs: seq<Buffer>, base: nat): seq<Mark> {
    if bs == [] then []
    else if bs[0].rights == [] then Layout(bs[1..], base + |bs[0].data|)
    else [Mark(base, base + |bs[0].data|, bs[0].rights)] + Layout(bs[1..], base + |bs[0].data|)
  }

  function Live(ms: seq<Control>, o: nat): seq<Mark> {
    if ms == [] then []
    else if ms[0].place == At(o) then [Mark(ms[0].start, ms[0].end, ms[0].rights)] + Live(ms[1..], o)
    else Live(ms[1..], o)
  }

  ghost predicate Filled(bs: seq<Buffer>) {
    forall b :: b in bs ==> b.data != []
  }

  /** Reading n bytes from offset `base` does not run past the first message that carries rights. */
  ghost predicate Stops(marks: seq<Mark>, limit: nat) {
    marks != [] && marks[0].start < limit ==> limit <= marks[0].end
  }

  function Rest(marks: seq<Mark>, limit: nat): seq<Mark> {
    if marks != [] && marks[0].start < limit then marks[1..] else marks
  }

  function Carried(marks: seq<Mark>, limit: nat): seq<nat> {
    if marks != [] && marks[0].start < limit then marks[0].rights else []
  }

  ghost predicate Ascending(marks: seq<Mark>) {
    forall j :: 0 <= j < |marks| ==> marks[j].start >= marks[0].start
  }

  lemma {:induction false} LayoutFrom(bs: seq<Buffer>, base: nat)
    ensures forall m :: m in Layout(bs, base) ==> m.start >= base
    ensures Ascending(Layout(bs, base))
  {
    if bs != [] { LayoutFrom(bs[1..], base + |bs[0].data|); }
  }

  /** Consuming the whole first buffer. */
  lemma {:induction false} DropWhole(bs: seq<Buffer>, n: nat, base: nat)
    requires Filled(bs) && bs != [] && 0 < n <= |AllBytes(bs)| && |bs[0].data| <= n && Stops(Layout(bs, base), base + n)
    ensures var tail := Layout(bs[1..], base + |bs[0].data|);
            Stops(tail, base + n) && Rest(Layout(bs, base), base + n) == Rest(tail, base + n)
  {
    LayoutFrom(bs[1..], base + |bs[0].data|);
  }

  lemma {:induction false} FrontOf(a: seq<byte>, b: seq<byte>, n: nat)
    requires n <= |a|
    ensures (a + b)[n..] == a[n..] + b
  {
  }

  /** Consuming a part of the first buffer takes its rights along. */
  lemma {:induction false} DropPart(bs: seq<Buffer>, n: nat, base: nat)
    requires Filled(bs) && bs != [] && 0 < n < |bs[0].data|
    ensures AllBytes(DropBytes(bs, n)) == AllBytes(bs)[n..]
    ensures Layout(DropBytes(bs, n), base + n) == Rest(Layout(bs, base), base + n)
    ensures Filled(DropBytes(bs, n))
  {
    var bs' := [Buffer(bs[0].data[n..], [])] + bs[1..];
    assert DropBytes(bs, n) == bs' && bs'[1..] == bs[1..];
    FrontOf(bs[0].data, AllBytes(bs[1..]), n);
    DropPartMarks(bs, n, base);
  }

  lemma {:induction false} DropPartMarks(bs: seq<Buffer>, n: nat, base: nat)
    requires Filled(bs) && bs != [] && 0 < n < |bs[0].data|
    ensures Layout([Buffer(bs[0].data[n..], [])] + bs[1..], base + n) == Rest(Layout(bs, base), base + n)
  {
    var bs' := [Buffer(bs[0].data[n..], [])] + bs[1..];
    LayoutFrom(bs[1..], base + |bs[0].data|);
    assert bs'[1..] == bs[1..];
  }

  lemma {:induction false} BackOf(a: seq<byte>, b: seq<byte>, n: nat)
    requires |a| <= n <= |a| + |b|
    ensures (a + b)[n..] == b[n - |a|..]
  {
  }

  lemma {:induction false} DropFront(bs: seq<Buffer>, n: nat)
    requires Filled(bs) && n <= |AllBytes(bs)|
    ensures AllBytes(DropBytes(bs, n)) == AllBytes(bs)[n..] && Filled(DropBytes(bs, n))
    decreases |bs|
  {
    if n > 0 && |bs[0].data| <= n {
      DropFront(bs[1..], n - |bs[0].data|);
      BackOf(bs[0].data, AllBytes(bs[1..]), n);
    } else if n > 0 {
      DropPart(bs, n, 0);
    }
  }

  lemma {:induction false} DropLayout(bs: seq<Buffer>, n: nat, base: nat)
    requires Filled(bs) && n <= |AllBytes(bs)| && Stops(Layout(bs, base), base + n)
    ensures AllBytes(DropBytes(bs, n)) == AllBytes(bs)[n..]
    ensures Layout(DropBytes(bs, n), base + n) == Rest(Layout(bs, base), base + n)
    ensures Filled(DropBytes(bs, n))
    decreases |bs|
  {
    DropFront(bs, n);
    LayoutFrom(bs, base);
    if n == 0 || bs == [] {
    } else if |bs[0].data| <= n {
      DropWhole(bs, n, base);
      DropLayout(bs[1..], n - |bs[0].data|, base + |bs[0].data|);
    } else {
      DropPart(bs, n, base);
    }
  }

  lemma {:induction false} RecvMsgAgrees(bs: seq<Buffer>, n: nat, base: nat)
    requires Filled(bs) && n <= |AllBytes(bs)| && Stops(Layout(bs, base), base + n)
    ensures RecvMsg(bs, n) == (AllBytes(bs)[..n], Carried(Layout(bs, base), base + n), DropBytes(bs, n))
    decreases |bs|
  {
    LayoutFrom(bs, base);
    if n == 0 || bs == [] {
    } else if |bs[0].data| > n {
      LayoutFrom(bs[1..], base + |bs[0].data|);
      assert AllBytes(bs)[..n] == bs[0].data[..n];
    } else if bs[0].rights != [] {
      assert n == |bs[0].data|;
      assert AllBytes(bs)[..n] == bs[0].data;
    } else {
      RecvMsgAgrees(bs[1..], n - |bs[0].data|, base + |bs[0].data|);
      assert AllBytes(bs)[..n] == bs[0].data + AllBytes(bs[1..])[..n - |bs[0].data|];
    }
  }

  /** The mark of a buffer that starts at offset `at`, if it carries rights. */
  function MarkOf(at: nat, b: Buffer): seq<Mark> {
    if b.rights == [] then [] else [Mark(at, at + |b.data|, b.rights)]
  }

  lemma {:induction false} AppendBytes(bs: seq<Buffer>, b: Buffer)
    ensures AllBytes(bs + [b]) == AllBytes(bs) + b.data
    decreases |bs|
  {
    if bs == [] {
      assert bs + [b] == [b];
    } else {
      assert (bs + [b])[1..] == bs[1..] + [b] && (bs + [b])[0] == bs[0];
      AppendBytes(bs[1..], b);
      assert bs[0].data + (AllBytes(bs[1..]) + b.data) == AllBytes(bs) + b.data;
    }
  }

  lemma {:induction false} AppendMarks(bs: seq<Buffer>, b: Buffer, base: nat)
    ensures Layout(bs + [b], base) == Layout(bs, base) + MarkOf(base + |AllBytes(bs)|, b)
    decreases |bs|
  {
    if bs == [] {
      assert bs + [b] == [b];
      assert Layout([b], base) == MarkOf(base, b);
    } else {
      assert (bs + [b])[1..] == bs[1..] + [b] && (bs + [b])[0] == bs[0];
      AppendMarks(bs[1..], b, base + |bs[0].data|);
    }
  }

  lemma {:induction false} AppendLayout(bs: seq<Buffer>, b: Buffer, base: nat)
    ensures AllBytes(bs + [b]) == AllBytes(bs) + b.data
    ensures Layout(bs + [b], base) == Layout(bs, base) + MarkOf(base + |AllBytes(bs)|, b)
  {
    AppendBytes(bs, b);
    AppendMarks(bs, b, base);
  }

  lemma {:induction false} LiveAppend(ms: seq<Control>, c: Control, o: nat)
    ensures Live(ms + [c], o) == Live(ms, o) + (if c.place == At(o) then [Mark(c.start, c.end, c.rights)] else [])
  {
    if ms == [] {
      assert ms + [c] == [c];
    } else {
      assert (ms + [c])[1..] == ms[1..] + [c];
      LiveAppend(ms[1..], c, o);
    }
  }

  lemma {:induction false} LiveDrop(ms: seq<Control>, closed: nat, o: nat)
    ensures Live(DropMessages(ms, closed), o) == if o == closed then [] else Live(ms, o)
  {
    if ms != [] {
      assert DropMessages(ms, closed)[1..] == DropMessages(ms[1..], closed);
      LiveDrop(ms[1..], closed, o);
    }
  }

  /** The interpreter's search meets the first live message of the queue, or none that starts in range. */
  lemma {:induction false} FirstIsHead(ms: seq<Control>, o: nat, limit: nat, from: nat)
    requires from <= |ms| && Ascending(Live(ms[from..], o))
    ensures var c := FirstControl(ms, o, limit, from);
            var marks := Live(ms[from..], o);
            && (c.Some? <==> marks != [] && marks[0].start < limit)
            && (c.Some? ==>
                 && marks[0] == Mark(ms[c.value].start, ms[c.value].end, ms[c.value].rights)
                 && var gone := ms[c.value := ms[c.value].(place := Gone)];
                    Live(gone[from..], o) == marks[1..] && forall p :: p != o ==>
                      Live(gone[from..], p) == Live(ms[from..], p))
    decreases |ms| - from
  {
    if from < |ms| {
      assert ms[from..][1..] == ms[from + 1..];
      if ms[from].place == At(o) && ms[from].start < limit {
        var gone := ms[from := ms[from].(place := Gone)];
        assert gone[from..][1..] == ms[from + 1..];
      } else {
        if ms[from].place == At(o) {
          assert Live(ms[from..], o)[1..] == Live(ms[from + 1..], o);
          LateHead(ms, o, limit, from + 1);
        } else {
          FirstIsHead(ms, o, limit, from + 1);
          var c := FirstControl(ms, o, limit, from + 1);
          if c.Some? {
            var gone := ms[c.value := ms[c.value].(place := Gone)];
            assert gone[from..][1..] == gone[from + 1..];
          }
        }
      }
    }
  }

  lemma {:induction false} LateHead(ms: seq<Control>, o: nat, limit: nat, from: nat)
    requires from <= |ms| && forall m :: m in Live(ms[from..], o) ==> m.start >= limit
    ensures FirstControl(ms, o, limit, from).None?
    decreases |ms| - from
  {
    if from < |ms| {
      assert ms[from..][1..] == ms[from + 1..];
      if ms[from].place == At(o) { assert Live(ms[from..], o)[0] in Live(ms[from..], o); }
      LateHead(ms, o, limit, from + 1);
    }
  }

  // ---------------------------------------------------------------- the two sides in step

  /** What the kernel guarantees of the captured handles: aliases of one object agree on what it is, and
      sockets come in pairs. */
  ghost predicate WellFormed(ps: seq<Position>) {
    && (forall i :: 0 <= i < |ps| ==>
       ps[i].after <= |ps[i].content| && (ps[i].peer.Some? ==> ps[i].peer.value != ps[i].inode))
    && (forall i :: 0 <= i < |ps| && ps[i].kind.Pipe? ==> ps[i].capacity >= PAGE)
    && (forall i, j ::
         0 <= i < |ps| && 0 <= j < |ps| && !ps[i].kind.Plain? && !ps[j].kind.Plain? && ps[i].inode == ps[j].inode ==>
           Twins(ps[i], ps[j]))
  }

  ghost predicate Twins(a: Position, b: Position) {
    && a.kind == b.kind && a.capacity == b.capacity && a.content == b.content && a.after == b.after
    && a.peer == b.peer && a.peerShutdown == b.peerShutdown && a.charged == b.charged
  }

  ghost predicate IsOwner(ps: seq<Position>, o: nat) {
    o < |ps| && !ps[o].kind.Plain? && Owner(ps, o) == o
  }

  ghost predicate Within(a: Ends, b: Ends) {
    (a.rd ==> b.rd) && (a.wr ==> b.wr)
  }

  /** What the list has done so far: the sockets it closed, and the pipes that last got their bytes
      from another pipe. */
  datatype Past = Past(closed: set<nat>, rough: set<nat>)

  const NOTHING := Past({}, {})

  /** The slots hold the bytes of the queue, with room for the next write unless bytes came from another pipe. */
  ghost predicate PipeInStep(q: Queue, slots: seq<PipeSlot>, max: nat, rough: bool) {
    && SlotsOk(slots) && PipeBytes(slots) == q.bytes && |slots| <= max
    && (rough || Room(q, slots, max))
  }

  /** The kernel's queue o is the private queue o; a socket whose last close was replayed has only lost its
      private contents. */
  ghost predicate InStep(ps: seq<Position>, q: Queue, marks: seq<Mark>, kq: Real, o: nat, past: Past)
    requires o < |ps|
  {
    match ps[o].kind
    case Plain => true
    case Pipe => kq.RealPipe? && marks == [] && PipeInStep(q, kq.slots, MaxSlots(ps[o].capacity), o in past.rough)
    case Socket =>
      && kq.RealSocket? && Within(kq.shut, q.shutdown) && kq.spent <= ps[o].charged + q.writes * CHARGE
      && Filled(kq.buffers) && Ascending(marks)
      && (if o in past.closed then q.shutdown == Ends(true, true) && q.bytes == [] && marks == []
          else AllBytes(kq.buffers) == q.bytes && Layout(kq.buffers, q.consumed) == marks)
  }

  ghost predicate Rel(ps: seq<Position>, s: State, k: seq<Real>, past: Past) {
    && Sized(ps, s) && |k| == |ps|
    && forall o: nat :: IsOwner(ps, o) ==> InStep(ps, s.queues[o], Live(s.messages, o), k[o], o, past)
  }

  /** The sockets the events closed. */
  function ClosedBy(ps: seq<Position>, e: Event): set<nat> {
    var f := Find(ps, e.fd, 0);
    if e.Close? && f.Some? && ps[f.value].kind.Socket? then {Owner(ps, f.value)} else {}
  }

  function AllClosed(ps: seq<Position>, es: seq<Event>): set<nat> {
    if es == [] then {} else ClosedBy(ps, es[0]) + AllClosed(ps, es[1..])
  }

  function RoughAfter(ps: seq<Position>, rough: set<nat>, e: Event): set<nat> {
    var f := Find(ps, e.fd, 0);
    if e.Send? && f.Some? && ps[f.value].kind.Pipe? && e.data != [] then
      if e.source.Move? || e.source.Copy? then rough + {Owner(ps, f.value)} else rough - {Owner(ps, f.value)}
    else rough
  }

  function PastAfter(ps: seq<Position>, past: Past, e: Event): Past {
    Past(past.closed + ClosedBy(ps, e), RoughAfter(ps, past.rough, e))
  }

  function PastAll(ps: seq<Position>, past: Past, es: seq<Event>): Past
    decreases |es|
  {
    if es == [] then past else PastAll(ps, PastAfter(ps, past, es[0]), es[1..])
  }

  lemma {:induction false} PastCloses(ps: seq<Position>, past: Past, es: seq<Event>)
    ensures PastAll(ps, past, es).closed == past.closed + AllClosed(ps, es)
    decreases |es|
  {
    if es != [] { PastCloses(ps, PastAfter(ps, past, es[0]), es[1..]); }
  }

  /** The one operation whose checks do not see to a free slot: a write to a pipe whose last bytes came from another
      pipe and may take up all slots.  For splice and tee themselves the interpreter counts one slot more per byte. */
  predicate Cramped(ps: seq<Position>, s: State, rough: set<nat>, e: Event)
    requires Sized(ps, s)
  {
    var f := Find(ps, e.fd, 0);
    && e.Send? && !e.source.Move? && !e.source.Copy? && e.data != []
    && f.Some? && ps[f.value].kind.Pipe? && Owner(ps, f.value) in rough
    && (|s.queues[Owner(ps, f.value)].bytes| + 1) * PAGE > ps[f.value].capacity
  }

  predicate CrampedIn(ps: seq<Position>, s: State, rough: set<nat>, es: seq<Event>)
    requires Sized(ps, s) && DryRun(ps, s, es).Some?
    decreases |es|
  {
    es != [] &&
    (Cramped(ps, s, rough, es[0]) ||
      CrampedIn(ps, Interpret(ps, s, es[0]).value, RoughAfter(ps, rough, es[0]), es[1..]))
  }

  lemma {:induction false} OwnerIsOwner(ps: seq<Position>, i: nat)
    requires i < |ps| && !ps[i].kind.Plain?
    ensures IsOwner(ps, Owner(ps, i))
  {
  }

  lemma {:induction false} PeerIsOwner(ps: seq<Position>, i: nat)
    requires WellFormed(ps) && i < |ps| && Peer(ps, i).Some?
    ensures IsOwner(ps, Peer(ps, i).value) && ps[Peer(ps, i).value].kind == ps[i].kind
    ensures ps[i].kind.Socket? ==> Peer(ps, i).value != Owner(ps, i)
  {
  }

  /** Removing bytes from one queue takes the message they start in, and no other queue's. */
  lemma {:induction false} ConsumeShape(s: State, o: nat, n: nat)
    requires o < |s.queues| && n <= |s.queues[o].bytes| && Ascending(Live(s.messages, o))
    ensures var s' := Consume(s, o, n);
            && Live(s'.messages, o) == Rest(Live(s.messages, o), s.queues[o].consumed + n)
            && forall p: nat :: p != o ==> Live(s'.messages, p) == Live(s.messages, p)
  {
    var s' := Consume(s, o, n);
    assert s.messages[0..] == s.messages && s'.messages[0..] == s'.messages;
    FirstIsHead(s.messages, o, s.queues[o].consumed + n, 0);
  }

  /** An accepted read stays within the first message and reports its rights. */
  lemma {:induction false} ReceiveChecked(ps: seq<Position>, s: State, i: nat, e: Event)
    requires Sized(ps, s) && i < |ps| && !ps[i].kind.Plain? && e.Receive? && !ReceiveRefused(ps, s, i, e)
    requires Ascending(Live(s.messages, Owner(ps, i)))
    ensures var o := Owner(ps, i);
            var marks, limit := Live(s.messages, o), s.queues[o].consumed + |e.data|;
            && IsPrefix(e.data, s.queues[o].bytes) && Stops(marks, limit)
            && (e.rights.Some? ==> ps[i].kind.Socket? && ResolveAll(ps, e.rights.value) == Some(Carried(marks, limit)))
  {
    var o := Owner(ps, i);
    assert s.messages[0..] == s.messages;
    FirstIsHead(s.messages, o, s.queues[o].consumed + |e.data|, 0);
  }

  /** What the kernel hands out for a read that stops within the first message. */
  lemma {:induction false} SocketReads(ps: seq<Position>, k: seq<Real>, i: nat, e: Event, bytes: seq<byte>,
                                       marks: seq<Mark>, base: nat)
    requires |k| == |ps| && i < |ps| && e.Receive? && !e.peek && e.data != []
    requires var kq := k[Owner(ps, i)];
      kq.RealSocket? && Filled(kq.buffers) && AllBytes(kq.buffers) == bytes && Layout(kq.buffers, base) == marks
    requires IsPrefix(e.data, bytes) && Stops(marks, base + |e.data|)
    requires e.rights.Some? ==> ResolveAll(ps, e.rights.value) == Some(Carried(marks, base + |e.data|))
    ensures var o := Owner(ps, i);
            RealReceive(ps, k, i, e) == Some(k[o := k[o].(buffers := DropBytes(k[o].buffers, |e.data|))])
  {
    RecvMsgAgrees(k[Owner(ps, i)].buffers, |e.data|, base);
  }

  /** The kernel's side of a read that stops within the first message. */
  lemma {:induction false} SocketReceive(ps: seq<Position>, k: seq<Real>, i: nat, e: Event, q: Queue,
                                         marks: seq<Mark>, past: Past)
    requires |k| == |ps| && i < |ps| && e.Receive? && !e.peek
    requires var o := Owner(ps, i); ps[o].kind.Socket? && InStep(ps, q, marks, k[o], o, past)
    requires IsPrefix(e.data, q.bytes) && Stops(marks, q.consumed + |e.data|)
    requires e.rights.Some? ==> ResolveAll(ps, e.rights.value) == Some(Carried(marks, q.consumed + |e.data|))
    ensures var o := Owner(ps, i);
            var r := RealReceive(ps, k, i, e);
            && r.Some? && (forall p :: 0 <= p < |ps| && p != o ==> r.value[p] == k[p])
            && InStep(ps, Advance(q, |e.data|), Rest(marks, q.consumed + |e.data|), r.value[o], o, past)
  {
    var o, n := Owner(ps, i), |e.data|;
    if n == 0 {
      SkippedHead(k[o].buffers, marks, q.consumed, o in past.closed);
    } else {
      SocketReads(ps, k, i, e, q.bytes, marks, q.consumed);
      DroppedInStep(ps, k[o], q, marks, o, n, past);
    }
  }

  lemma {:induction false} DroppedInStep(ps: seq<Position>, kq: Real, q: Queue, marks: seq<Mark>, o: nat, n: nat,
                                         past: Past)
    requires o < |ps| && ps[o].kind.Socket? && InStep(ps, q, marks, kq, o, past)
    requires 0 < n <= |q.bytes| && Stops(marks, q.consumed + n)
    ensures InStep(ps, Advance(q, n), Rest(marks, q.consumed + n), kq.(buffers := DropBytes(kq.buffers, n)), o, past)
  {
    DropLayout(kq.buffers, n, q.consumed);
    LayoutFrom(DropBytes(kq.buffers, n), q.consumed + n);
  }

  lemma {:induction false} PipeReadInStep(q: Queue, slots: seq<PipeSlot>, max: nat, rough: bool, n: nat)
    requires PipeInStep(q, slots, max, rough) && n <= |q.bytes|
    ensures PipeInStep(Advance(q, n), DropSlots(slots, n), max, rough)
  {
    DropShape(slots, n);
    if !rough { ReadKeepsRoom(q, slots, max, n); }
  }

  lemma {:induction false} PipeWriteInStep(q: Queue, slots: seq<PipeSlot>, max: nat, rough: bool, data: seq<byte>)
    requires PipeInStep(q, slots, max, rough) && data != [] && q.produced + |data| <= PAGE
    requires q.writable || q.consumed >= PAGE
    requires rough ==> |q.bytes| < max
    ensures PipeInStep(Written(q, data), WriteSlots(slots, data), max, false)
  {
    WriteShape(slots, data);
    if rough { SparseWriteFits(slots, max, data, q.produced); } else { WriteFits(q, slots, max, data); }
  }

  lemma {:induction false} PipeCarryInStep(q: Queue, slots: seq<PipeSlot>, moved: seq<PipeSlot>, max: nat,
                                           rough: bool, data: seq<byte>)
    requires PipeInStep(q, slots, max, rough) && |q.bytes| + |data| <= max
    requires SlotsOk(moved) && PipeBytes(moved) == data && |moved| <= |data|
    ensures PipeInStep(Written(q, data), slots + moved, max, true)
  {
    AppendPipe(slots, moved);
    SlotsAtMostBytes(slots);
  }

  function Written(q: Queue, data: seq<byte>): Queue {
    q.(produced := q.produced + |data|, writes := q.writes + 1, bytes := q.bytes + data)
  }

  lemma {:induction false} ReceiveInStep(ps: seq<Position>, s: State, k: seq<Real>, past: Past, i: nat, e: Event)
    requires WellFormed(ps) && Rel(ps, s, k, past) && i < |ps| && !ps[i].kind.Plain? && e.Receive?
    requires ReceiveOp(ps, s, i, e).Some?
    ensures RealReceive(ps, k, i, e).Some?
    ensures Rel(ps, ReceiveOp(ps, s, i, e).value, RealReceive(ps, k, i, e).value, past)
  {
    var o, n := Owner(ps, i), |e.data|;
    var q, marks := s.queues[o], Live(s.messages, o);
    OwnerIsOwner(ps, i);
    assert InStep(ps, q, marks, k[o], o, past);
    ReceiveChecked(ps, s, i, e);
    if !e.peek {
      ConsumeShape(s, o, n);
      if ps[o].kind.Socket? {
        SocketReceive(ps, k, i, e, q, marks, past);
      } else {
        PipeReadInStep(q, k[o].slots, MaxSlots(ps[o].capacity), o in past.rough, n);
      }
      RelFrame(ps, s, Consume(s, o, n), k, RealReceive(ps, k, i, e).value, past, past, {o});
    }
  }

  /** Queues outside `touched` that both sides left alone stay in step. */
  lemma {:induction false} RelFrame(ps: seq<Position>, s: State, s': State, k: seq<Real>, k': seq<Real>, past: Past,
                                    past': Past, touched: set<nat>)
    requires Rel(ps, s, k, past) && Sized(ps, s') && |k'| == |ps|
    requires forall p: nat :: p < |ps| && p !in touched ==>
               s'.queues[p] == s.queues[p] && Live(s'.messages, p) == Live(s.messages, p) && k'[p] == k[p]
    requires forall p: nat :: p < |ps| && p !in touched ==>
               (p in past'.closed <==> p in past.closed) && (p in past'.rough <==> p in past.rough)
    requires forall p: nat :: p in touched && IsOwner(ps, p) ==>
      InStep(ps, s'.queues[p], Live(s'.messages, p), k'[p], p, past')
    ensures Rel(ps, s', k', past')
  {
    forall p: nat | IsOwner(ps, p) ensures InStep(ps, s'.queues[p], Live(s'.messages, p), k'[p], p, past') {
      if p !in touched { assert InStep(ps, s.queues[p], Live(s.messages, p), k[p], p, past); }
    }
  }

  /** A read of no bytes meets no message. */
  lemma {:induction false} SkippedHead(bs: seq<Buffer>, marks: seq<Mark>, consumed: nat, closed: bool)
    requires closed ==> marks == []
    requires !closed ==> marks == Layout(bs, consumed)
    ensures !(marks != [] && marks[0].start < consumed)
  {
    LayoutFrom(bs, consumed);
  }

  /** Taking the bytes from another pipe only shortens that pipe. */
  lemma {:induction false} TakeInStep(ps: seq<Position>, s: State, i: nat, e: Event)
    requires WellFormed(ps) && Sized(ps, s) && i < |ps| && !ps[i].kind.Plain? && e.Send?
    requires TakeSource(ps, s, i, e).Some? && (e.source.Move? || e.source.Copy?)
    ensures Find(ps, e.source.fd, 0).Some?
    ensures var input := Owner(ps, Find(ps, e.source.fd, 0).value);
            var t := TakeSource(ps, s, i, e).value;
            && IsOwner(ps, input) && ps[input].kind.Pipe? && input != Owner(ps, i) && ps[i].kind.Pipe?
            && IsPrefix(e.data, s.queues[input].bytes)
            && t.messages == s.messages
            && t.queues == (if e.source.Move? then s.queues[input := Advance(s.queues[input], |e.data|)] else s.queues)
  {
    OwnerIsOwner(ps, Find(ps, e.source.fd, 0).value);
  }

  /** What an accepted send does to the private queues of pipes. */
  lemma {:induction false} PipeSendShape(ps: seq<Position>, s: State, i: nat, e: Event)
    requires WellFormed(ps) && Sized(ps, s) && i < |ps| && ps[i].kind.Pipe? && e.Send? && SendOp(ps, s, i, e).Some?
    ensures var o, s', t := Owner(ps, i), SendOp(ps, s, i, e).value, TakeSource(ps, s, i, e).value;
      && IsOwner(ps, o) && ps[o].kind.Pipe? && ps[o].capacity == ps[i].capacity
      && TakeSource(ps, s, i, e).Some? && !SendRefused(ps, t, i, e)
      && s'.messages == s.messages && s'.queues == t.queues[o := Written(t.queues[o], e.data)]
  {
    OwnerIsOwner(ps, i);
    assert Twins(ps[i], ps[Owner(ps, i)]);
    if e.source.Move? || e.source.Copy? { TakeInStep(ps, s, i, e); }
  }

  lemma {:induction false} PipeWrites(ps: seq<Position>, s: State, k: seq<Real>, past: Past, i: nat, e: Event,
                                      cost: nat)
    requires WellFormed(ps) && Rel(ps, s, k, past) && i < |ps| && ps[i].kind.Pipe? && e.Send?
    requires Find(ps, e.fd, 0) == Some(i)
    requires SendOp(ps, s, i, e).Some? && !e.source.Move? && !e.source.Copy? && !Cramped(ps, s, past.rough, e)
    ensures RealSend(ps, k, i, e, cost).Some?
    ensures Rel(ps, SendOp(ps, s, i, e).value, RealSend(ps, k, i, e, cost).value, PastAfter(ps, past, e))
  {
    var o, s' := Owner(ps, i), SendOp(ps, s, i, e).value;
    PipeSendShape(ps, s, i, e);
    var q, max := s.queues[o], MaxSlots(ps[o].capacity);
    assert InStep(ps, q, Live(s.messages, o), k[o], o, past);
    if e.data == [] {
      EmptyWrite(k[o].slots);
      assert q.bytes + e.data == q.bytes;
    } else {
      PipeWriteInStep(q, k[o].slots, max, o in past.rough, e.data);
    }
    RelFrame(ps, s, s', k, RealSend(ps, k, i, e, cost).value, past, PastAfter(ps, past, e), {o});
  }

  function MovedSlots(slots: seq<PipeSlot>, n: nat, move: bool): seq<PipeSlot> {
    if move then TakeSlots(slots, n) else CopySlots(slots, n)
  }

  lemma {:induction false} MovedShape(slots: seq<PipeSlot>, n: nat, move: bool)
    requires SlotsOk(slots) && n <= |PipeBytes(slots)|
    ensures var moved := MovedSlots(slots, n, move);
      SlotsOk(moved) && PipeBytes(moved) == PipeBytes(slots)[..n] && |moved| <= n
  {
    if move { TakeShape(slots, n); } else { CopyShape(slots, n); }
  }

  lemma {:induction false} CarrySucceeds(ps: seq<Position>, k: seq<Real>, i: nat, e: Event, cost: nat, input: nat)
    requires |k| == |ps| && i < |ps| && e.Send? && (e.source.Move? || e.source.Copy?)
    requires Find(ps, e.source.fd, 0).Some? && Owner(ps, Find(ps, e.source.fd, 0).value) == input
    requires input < |ps| && input != Owner(ps, i) && k[input].RealPipe? && k[Owner(ps, i)].RealPipe?
    requires SlotsOk(k[input].slots) && |e.data| <= |PipeBytes(k[input].slots)|
    requires |k[Owner(ps, i)].slots| + |e.data| <= MaxSlots(ps[Owner(ps, i)].capacity)
    ensures var o, n, r := Owner(ps, i), |e.data|, RealSend(ps, k, i, e, cost);
      && r.Some? && r.value[o] == RealPipe(k[o].slots + MovedSlots(k[input].slots, n, e.source.Move?))
      && r.value[input] == (if e.source.Move? then RealPipe(DropSlots(k[input].slots, n)) else k[input])
      && forall p :: 0 <= p < |ps| && p != o && p != input ==> r.value[p] == k[p]
  {
    MovedShape(k[input].slots, |e.data|, e.source.Move?);
  }

  lemma {:induction false} CarryShape(ps: seq<Position>, s: State, i: nat, e: Event)
    requires WellFormed(ps) && Sized(ps, s) && i < |ps| && ps[i].kind.Pipe? && e.Send? && SendOp(ps, s, i, e).Some?
    requires e.source.Move? || e.source.Copy?
    ensures Find(ps, e.source.fd, 0).Some?
    ensures var o, input, s' := Owner(ps, i), Owner(ps, Find(ps, e.source.fd, 0).value), SendOp(ps, s, i, e).value;
      && IsOwner(ps, o) && ps[o].kind.Pipe? && IsOwner(ps, input) && ps[input].kind.Pipe? && input != o
      && IsPrefix(e.data, s.queues[input].bytes) && |s.queues[o].bytes| + |e.data| <= MaxSlots(ps[o].capacity)
      && s'.messages == s.messages && s'.queues[o] == Written(s.queues[o], e.data)
      && s'.queues[input] == (if e.source.Move? then Advance(s.queues[input], |e.data|) else s.queues[input])
      && forall p :: 0 <= p < |ps| && p != o && p != input ==> s'.queues[p] == s.queues[p]
  {
    PipeSendShape(ps, s, i, e);
    TakeInStep(ps, s, i, e);
  }

  lemma {:induction false} PipeCarries(ps: seq<Position>, s: State, k: seq<Real>, past: Past, i: nat, e: Event,
                                       cost: nat)
    requires WellFormed(ps) && Rel(ps, s, k, past) && i < |ps| && ps[i].kind.Pipe? && e.Send?
    requires Find(ps, e.fd, 0) == Some(i)
    requires SendOp(ps, s, i, e).Some? && (e.source.Move? || e.source.Copy?)
    ensures RealSend(ps, k, i, e, cost).Some?
    ensures Rel(ps, SendOp(ps, s, i, e).value, RealSend(ps, k, i, e, cost).value, PastAfter(ps, past, e))
  {
    var o, n := Owner(ps, i), |e.data|;
    CarryShape(ps, s, i, e);
    var input := Owner(ps, Find(ps, e.source.fd, 0).value);
    var q, max := s.queues[o], MaxSlots(ps[o].capacity);
    assert InStep(ps, q, Live(s.messages, o), k[o], o, past);
    assert InStep(ps, s.queues[input], Live(s.messages, input), k[input], input, past);
    SlotsAtMostBytes(k[o].slots);
    CarrySucceeds(ps, k, i, e, cost, input);
    MovedShape(k[input].slots, n, e.source.Move?);
    PipeCarryInStep(q, k[o].slots, MovedSlots(k[input].slots, n, e.source.Move?), max, o in past.rough, e.data);
    PipeReadInStep(s.queues[input], k[input].slots, MaxSlots(ps[input].capacity), input in past.rough, n);
    RelFrame(ps, s, SendOp(ps, s, i, e).value, k, RealSend(ps, k, i, e, cost).value, past, PastAfter(ps, past, e),
      {o, input});
  }

  lemma {:induction false} PipeSendInStep(ps: seq<Position>, s: State, k: seq<Real>, past: Past, i: nat, e: Event,
                                          cost: nat)
    requires WellFormed(ps) && Rel(ps, s, k, past) && i < |ps| && ps[i].kind.Pipe? && e.Send?
    requires Find(ps, e.fd, 0) == Some(i)
    requires SendOp(ps, s, i, e).Some? && !Cramped(ps, s, past.rough, e)
    ensures RealSend(ps, k, i, e, cost).Some?
    ensures Rel(ps, SendOp(ps, s, i, e).value, RealSend(ps, k, i, e, cost).value, PastAfter(ps, past, e))
  {
    if e.source.Move? || e.source.Copy? { PipeCarries(ps, s, k, past, i, e, cost); } else {
      PipeWrites(ps, s, k, past, i, e, cost);
    }
  }

  /** Exactly such a write can fail: over all arrangements of the bytes in slots that are in step with the private
      queues, an accepted send on a pipe always succeeds if and only if it is not cramped. */
  lemma {:induction false} FailsExactlyWhenCramped(ps: seq<Position>, s: State, k0: seq<Real>, past: Past, i: nat,
                                                   e: Event, cost: nat)
    requires WellFormed(ps) && Rel(ps, s, k0, past) && i < |ps| && ps[i].kind.Pipe? && e.Send?
    requires Find(ps, e.fd, 0) == Some(i)
    requires SendOp(ps, s, i, e).Some?
    ensures (forall k :: Rel(ps, s, k, past) ==> RealSend(ps, k, i, e, cost).Some?) <==> !Cramped(ps, s, past.rough, e)
  {
    if Cramped(ps, s, past.rough, e) {
      var o := Owner(ps, i);
      PipeSendShape(ps, s, i, e);
      var bytes, max := s.queues[o].bytes, MaxSlots(ps[o].capacity);
      assert InStep(ps, s.queues[o], Live(s.messages, o), k0[o], o, past);
      BytesAtMostPages(k0[o].slots);
      var k := k0[o := RealPipe(Tight(bytes, max))];
      TightHolds(bytes, max);
      RelFrame(ps, s, s, k0, k, past, past, {o});
      TightGrows(bytes, max, e.data);
      assert RealSend(ps, k, i, e, cost).None?;
    } else {
      forall k | Rel(ps, s, k, past) ensures RealSend(ps, k, i, e, cost).Some? {
        PipeSendInStep(ps, s, k, past, i, e, cost);
      }
    }
  }

  /** The queue and the marks of a socket after one more message arrived. */
  lemma {:induction false} ArrivalInStep(ps: seq<Position>, q: Queue, marks: seq<Mark>, kq: Real, o: nat, past: Past,
                                         b: Buffer)
    requires o < |ps| && ps[o].kind.Socket? && InStep(ps, q, marks, kq, o, past) && o !in past.closed && b.data != []
    ensures InStep(ps, q.(bytes := q.bytes + b.data), marks + MarkOf(q.consumed + |q.bytes|, b),
                   kq.(buffers := kq.buffers + [b]), o, past)
  {
    AppendLayout(kq.buffers, b, q.consumed);
    LayoutFrom(kq.buffers + [b], q.consumed);
    LayoutFrom(kq.buffers, q.consumed);
  }

  /** The kernel's side of a send on a socket that neither side shut and whose budget lasts. */
  lemma {:induction false} RealSendShape(ps: seq<Position>, k: seq<Real>, i: nat, e: Event, cost: nat)
    requires |k| == |ps| && i < |ps| && ps[i].kind.Socket? && e.Send? && !e.source.Move? && !e.source.Copy?
    requires SentRights(ps, e).Some?
    requires var o, peer := Owner(ps, i), Peer(ps, i);
             && k[o].RealSocket? && !k[o].shut.wr && k[o].spent + cost <= ps[o].capacity
             && (if peer.None? then !ps[i].peerShutdown.rd
                 else peer.value != o && k[peer.value].RealSocket? && !k[peer.value].shut.rd)
    ensures RealSend(ps, k, i, e, cost).Some?
    ensures var k' := RealSend(ps, k, i, e, cost).value;
            var o, peer := Owner(ps, i), Peer(ps, i);
            var refs := SentRights(ps, e).value;
            && k'[o] == k[o].(spent := k[o].spent + cost)
            && (peer.Some? ==> k'[peer.value] == if e.data == [] then k[peer.value]
                               else k[peer.value].(buffers := k[peer.value].buffers + [Buffer(e.data, refs)]))
            && forall p :: 0 <= p < |ps| && p != o && (peer.Some? ==> p != peer.value) ==> k'[p] == k[p]
  {
  }

  lemma {:induction false} SocketSendInStep(ps: seq<Position>, s: State, k: seq<Real>, past: Past, i: nat, e: Event,
                                            cost: nat)
    requires WellFormed(ps) && Rel(ps, s, k, past) && i < |ps| && ps[i].kind.Socket? && e.Send? && cost <= CHARGE
    requires SendOp(ps, s, i, e).Some?
    ensures RealSend(ps, k, i, e, cost).Some?
    ensures Rel(ps, SendOp(ps, s, i, e).value, RealSend(ps, k, i, e, cost).value, past)
  {
    var o, peer, refs := Owner(ps, i), Peer(ps, i), SentRights(ps, e).value;
    OwnerIsOwner(ps, i);
    assert InStep(ps, s.queues[o], Live(s.messages, o), k[o], o, past);
    assert Twins(ps[i], ps[o]);
    assert TakeSource(ps, s, i, e) == Some(s) && !SendRefused(ps, s, i, e);
    if peer.Some? {
      PeerIsOwner(ps, i);
      assert InStep(ps, s.queues[peer.value], Live(s.messages, peer.value), k[peer.value], peer.value, past);
    }
    RealSendShape(ps, k, i, e, cost);
    DeliverInStep(ps, s, k, RealSend(ps, k, i, e, cost).value, past, o, peer, e.data, refs, cost);
  }

  /** A delivery adds at most one mark, at the end of the receiver's. */
  lemma {:induction false} DeliverMarks(s: State, o: nat, peer: Option<nat>, data: seq<byte>, refs: seq<nat>, p: nat)
    requires o < |s.queues| && (peer.Some? ==> peer.value < |s.queues| && peer.value != o)
    ensures Live(Deliver(s, o, peer, data, refs).messages, p) ==
            if peer == Some(p) then Live(s.messages, p) +
              MarkOf(s.queues[p].consumed + |s.queues[p].bytes|, Buffer(data, refs))
            else Live(s.messages, p)
  {
    if refs != [] {
      LiveAppend(s.messages, SentControl(s, peer, |data|, refs), p);
    }
  }

  /** Delivering on both sides: the sender spends budget, the receiver gains one message. */
  lemma {:induction false} DeliverInStep(ps: seq<Position>, s: State, k: seq<Real>, k': seq<Real>, past: Past, o: nat,
                                         peer: Option<nat>, data: seq<byte>, refs: seq<nat>, cost: nat)
    requires Rel(ps, s, k, past) && |k'| == |ps| && IsOwner(ps, o) && ps[o].kind.Socket? && cost <= CHARGE
    requires refs != [] ==> data != []
    requires peer.Some? ==>
      IsOwner(ps, peer.value) && ps[peer.value].kind.Socket? && peer.value != o && peer.value !in past.closed
    requires k[o].RealSocket? && k'[o] == k[o].(spent := k[o].spent + cost)
    requires peer.Some? ==> k[peer.value].RealSocket? && k'[peer.value] == if data == [] then k[peer.value]
               else k[peer.value].(buffers := k[peer.value].buffers + [Buffer(data, refs)])
    requires forall p :: 0 <= p < |ps| && p != o && (peer.Some? ==> p != peer.value) ==> k'[p] == k[p]
    ensures Rel(ps, Deliver(s, o, peer, data, refs), k', past)
  {
    var s' := Deliver(s, o, peer, data, refs);
    var touched := if peer.Some? then {o, peer.value} else {o};
    forall p: nat | p < |ps| && p !in touched
      ensures s'.queues[p] == s.queues[p] && Live(s'.messages, p) == Live(s.messages, p) && k'[p] == k[p]
    {
      DeliverMarks(s, o, peer, data, refs, p);
    }
    assert InStep(ps, s'.queues[o], Live(s'.messages, o), k'[o], o, past) by {
      DeliverMarks(s, o, peer, data, refs, o);
      assert InStep(ps, s.queues[o], Live(s.messages, o), k[o], o, past);
    }
    if peer.Some? {
      ReceiverInStep(ps, s, k, k', past, o, peer.value, data, refs);
    }
    RelFrame(ps, s, s', k, k', past, past, touched);
  }

  /** The same if the message may be empty, and is then none. */
  lemma {:induction false} DataInStep(ps: seq<Position>, q: Queue, marks: seq<Mark>, kq: Real, o: nat, past: Past,
                                      b: Buffer)
    requires o < |ps| && ps[o].kind.Socket? && InStep(ps, q, marks, kq, o, past) && o !in past.closed
    requires b.rights != [] ==> b.data != []
    ensures InStep(ps, q.(bytes := q.bytes + b.data), marks + MarkOf(q.consumed + |q.bytes|, b),
                   if b.data == [] then kq else kq.(buffers := kq.buffers + [b]), o, past)
  {
    if b.data == [] {
      assert q.bytes + b.data == q.bytes && marks + [] == marks;
    } else {
      ArrivalInStep(ps, q, marks, kq, o, past, b);
    }
  }

  lemma {:induction false} ReceiverInStep(ps: seq<Position>, s: State, k: seq<Real>, k': seq<Real>, past: Past,
                                          o: nat, p: nat, data: seq<byte>, refs: seq<nat>)
    requires Rel(ps, s, k, past) && |k'| == |ps| && o < |ps|
    requires refs != [] ==> data != []
    requires IsOwner(ps, p) && ps[p].kind.Socket? && p != o && p !in past.closed
    requires k[p].RealSocket?
    requires k'[p] == if data == [] then k[p] else k[p].(buffers := k[p].buffers + [Buffer(data, refs)])
    ensures var s' := Deliver(s, o, Some(p), data, refs);
            InStep(ps, s'.queues[p], Live(s'.messages, p), k'[p], p, past)
  {
    var s' := Deliver(s, o, Some(p), data, refs);
    var q, marks, b := s.queues[p], Live(s.messages, p), Buffer(data, refs);
    DeliverMarks(s, o, Some(p), data, refs, p);
    assert Live(s'.messages, p) == marks + MarkOf(q.consumed + |q.bytes|, b);
    assert InStep(ps, q, marks, k[p], p, past);
    assert s'.queues[p] == q.(bytes := q.bytes + data);
    DataInStep(ps, q, marks, k[p], p, past, b);
  }

  lemma {:induction false} CloseInStep(ps: seq<Position>, s: State, k: seq<Real>, past: Past, i: nat, e: Event)
    requires WellFormed(ps) && Rel(ps, s, k, past) && i < |ps| && e.Close? && Find(ps, e.fd, 0) == Some(i)
    requires CloseQueue(ps, s, i, e).Some?
    ensures Rel(ps, CloseQueue(ps, s, i, e).value, k, PastAfter(ps, past, e))
  {
    var past' := PastAfter(ps, past, e);
    var o := Owner(ps, i);
    if ps[i].kind.Plain? {
      RelFrame(ps, s, s, k, k, past, past', {});
    } else {
      OwnerIsOwner(ps, i);
      assert InStep(ps, s.queues[o], Live(s.messages, o), k[o], o, past);
      if ps[i].kind.Pipe? {
        RelFrame(ps, s, ClosePipe(s, o, e.ends), k, k, past, past', {o});
      } else {
        if Peer(ps, i).Some? { PeerIsOwner(ps, i); }
        CloseSocketInStep(ps, s, k, past, o, Peer(ps, i));
      }
    }
  }

  lemma {:induction false} CloseSocketInStep(ps: seq<Position>, s: State, k: seq<Real>, past: Past, o: nat,
                                             peer: Option<nat>)
    requires Rel(ps, s, k, past) && IsOwner(ps, o) && ps[o].kind.Socket?
    requires peer.Some? ==> IsOwner(ps, peer.value) && ps[peer.value].kind.Socket? && peer.value != o
    ensures Rel(ps, CloseSocket(s, o, peer), k, past.(closed := past.closed + {o}))
  {
    var s' := CloseSocket(s, o, peer);
    forall p: nat ensures Live(s'.messages, p) == if p == o then [] else Live(s.messages, p) {
      LiveDrop(s.messages, o, p);
    }
    assert InStep(ps, s.queues[o], Live(s.messages, o), k[o], o, past);
    if peer.Some? {
      assert InStep(ps, s.queues[peer.value], Live(s.messages, peer.value), k[peer.value], peer.value, past);
    }
    RelFrame(ps, s, s', k, k, past, past.(closed := past.closed + {o}), if peer.Some? then {o, peer.value} else {o});
  }

  lemma {:induction false} ShutdownInStep(ps: seq<Position>, s: State, k: seq<Real>, past: Past, i: nat, e: Event)
    requires WellFormed(ps) && Rel(ps, s, k, past) && i < |ps| && e.Shutdown? && !ps[i].kind.Plain?
    requires ShutdownQueue(ps, s, i, e).Some?
    ensures RealShutdown(ps, k, i, e).Some?
    ensures Rel(ps, ShutdownQueue(ps, s, i, e).value, RealShutdown(ps, k, i, e).value, past)
  {
    var s' := ShutdownQueue(ps, s, i, e).value;
    var o := Owner(ps, i);
    OwnerIsOwner(ps, i);
    if Peer(ps, i).Some? { PeerIsOwner(ps, i); }
    assert Twins(ps[i], ps[o]);
    assert InStep(ps, s.queues[o], Live(s.messages, o), k[o], o, past);
    var k' := RealShutdown(ps, k, i, e);
    forall p: nat | IsOwner(ps, p) ensures InStep(ps, s'.queues[p], Live(s'.messages, p), k'.value[p], p, past) {
      assert InStep(ps, s.queues[p], Live(s.messages, p), k[p], p, past);
    }
  }

  /** One operation the interpreter accepts: the kernel carries it out as recorded and the queues stay in step. */
  lemma {:induction false} StepInStep(ps: seq<Position>, s: State, k: seq<Real>, past: Past, e: Event, cost: nat)
    requires WellFormed(ps) && Rel(ps, s, k, past) && cost <= CHARGE && Interpret(ps, s, e).Some?
    requires !Cramped(ps, s, past.rough, e)
    ensures Effect(ps, k, e, cost).Some?
    ensures Rel(ps, Interpret(ps, s, e).value, Effect(ps, k, e, cost).value, PastAfter(ps, past, e))
  {
    var i := Find(ps, e.fd, 0).value;
    assert !e.Close? ==> past.closed + ClosedBy(ps, e) == past.closed;
    match e
    case Receive(_, _, _, _) => ReceiveInStep(ps, s, k, past, i, e);
    case Send(_, _, _, _) =>
      if ps[i].kind.Pipe? {
        PipeSendInStep(ps, s, k, past, i, e, cost);
      } else {
        SocketSendInStep(ps, s, k, past, i, e, cost);
      }
    case Shutdown(_, _) => ShutdownInStep(ps, s, k, past, i, e);
    case Close(_, _) => CloseInStep(ps, s, k, past, i, e);
    case Poll(_, _, _, _) =>
    case SetFlags(_, _) =>
      var s' := Interpret(ps, s, e).value;
      forall p: nat | IsOwner(ps, p) ensures InStep(ps, s'.queues[p], Live(s'.messages, p), k[p], p, past) {
        assert InStep(ps, s.queues[p], Live(s.messages, p), k[p], p, past);
      }
    case Fail(_, _, _, _, _) =>
  }

  /** A list the private queues accept is carried out by the kernel operation by operation, and leaves the
      kernel's queues as interpreted, except the contents of sockets the list closed. */
  lemma {:induction false} ReplayFollows(ps: seq<Position>, s: State, k: seq<Real>, past: Past, es: seq<Event>,
                                         costs: seq<nat>)
    requires WellFormed(ps) && Rel(ps, s, k, past) && |costs| == |es|
    requires forall c :: 0 <= c < |costs| ==> costs[c] <= CHARGE
    requires DryRun(ps, s, es).Some? && !CrampedIn(ps, s, past.rough, es)
    ensures Replay(ps, s, k, es, costs).Some?
    ensures var (s', k') := Replay(ps, s, k, es, costs).value;
            s' == DryRun(ps, s, es).value && Rel(ps, s', k', PastAll(ps, past, es))
    decreases |es|
  {
    if es != [] {
      StepInStep(ps, s, k, past, es[0], costs[0]);
      ReplayFollows(ps, Interpret(ps, s, es[0]).value, Effect(ps, k, es[0], costs[0]).value, PastAfter(ps, past, es[0]),
                    es[1..], costs[1..]);
    }
  }

  // ---------------------------------------------------------------- starting from the snapshot

  function CapturedMarks(ps: seq<Position>, cs: seq<Captured>): seq<Mark> {
    if cs == [] then []
    else
      var refs := ResolveAll(ps, cs[0].rights);
      [Mark(cs[0].start, cs[0].end, if refs.Some? then refs.value else [])] + CapturedMarks(ps, cs[1..])
  }

  /** The kernel's queues as captured, less the bytes already taken from the front.  Poll tells the truth about pipes:
      one it finds writable has a free slot. */
  ghost predicate AtSnapshot(ps: seq<Position>, k: seq<Real>, pollOut: nat -> bool) {
    && |k| == |ps|
    && forall o: nat :: IsOwner(ps, o) ==>
         ps[o].after <= |ps[o].content| &&
         match ps[o].kind
         case Plain => true
         case Pipe =>
           && k[o].RealPipe? && SlotsOk(k[o].slots) && PipeBytes(k[o].slots) == ps[o].content[ps[o].after..]
           && |k[o].slots| <= MaxSlots(ps[o].capacity)
           && (pollOut(ps[o].inode) ==> |k[o].slots| < MaxSlots(ps[o].capacity))
         case Socket =>
           && k[o].RealSocket? && Filled(k[o].buffers) && AllBytes(k[o].buffers) == ps[o].content[ps[o].after..]
           && Layout(k[o].buffers, 0) == CapturedMarks(ps, ps[o].controls)
           && k[o].shut == ps[o].shutdown && k[o].spent <= ps[o].charged
  }

  lemma {:induction false} LiveConcat(a: seq<Control>, b: seq<Control>, o: nat)
    ensures Live(a + b, o) == Live(a, o) + Live(b, o)
    decreases |a|
  {
    if a == [] {
      assert a + b == b;
    } else {
      assert (a + b)[1..] == a[1..] + b;
      LiveConcat(a[1..], b, o);
    }
  }

  lemma {:induction false} CapturedLive(ps: seq<Position>, i: nat, cs: seq<Captured>, o: nat)
    requires CapturedControls(ps, i, cs).Some?
    ensures Live(CapturedControls(ps, i, cs).value, o) == if o == i then CapturedMarks(ps, cs) else []
    decreases |cs|
  {
    if cs != [] {
      CapturedLive(ps, i, cs[1..], o);
      var all := CapturedControls(ps, i, cs).value;
      assert all[1..] == CapturedControls(ps, i, cs[1..]).value;
    }
  }

  /** What one more handle adds to the messages of a snapshot. */
  predicate Adds(ps: seq<Position>, i: nat, before: seq<Control>, now: seq<Control>)
    requires i < |ps|
  {
    if ps[i].kind.Plain? || Owner(ps, i) != i then now == before
    else
      var cs := CapturedControls(ps, i, ps[i].controls);
      cs.Some? && now == before + cs.value && (ps[i].kind.Pipe? ==> ps[i].controls == [])
  }

  lemma {:induction false} StartsWith(ps: seq<Position>, i: nat)
    requires i < |ps| && StartMessages(ps, i + 1).Some?
    ensures StartMessages(ps, i).Some? && Adds(ps, i, StartMessages(ps, i).value, StartMessages(ps, i + 1).value)
  {
    if ps[i].controls == [] {
      assert StartMessages(ps, i).value + [] == StartMessages(ps, i).value;
    }
  }

  lemma {:induction false} LiveAdds(ps: seq<Position>, i: nat, before: seq<Control>, now: seq<Control>, o: nat)
    requires i < |ps| && Adds(ps, i, before, now) && IsOwner(ps, o)
    requires Live(before, o) == if o < i then CapturedMarks(ps, ps[o].controls) else []
    ensures Live(now, o) == if o < i + 1 then CapturedMarks(ps, ps[o].controls) else []
  {
    if !ps[i].kind.Plain? && Owner(ps, i) == i {
      CapturedLive(ps, i, ps[i].controls, o);
      LiveConcat(before, CapturedControls(ps, i, ps[i].controls).value, o);
    }
  }

  lemma {:induction false} StartLive(ps: seq<Position>, n: nat, o: nat)
    requires n <= |ps| && IsOwner(ps, o) && StartMessages(ps, n).Some?
    ensures Live(StartMessages(ps, n).value, o) == if o < n then CapturedMarks(ps, ps[o].controls) else []
  {
    if n > 0 {
      StartsWith(ps, n - 1);
      StartLive(ps, n - 1, o);
      LiveAdds(ps, n - 1, StartMessages(ps, n - 1).value, StartMessages(ps, n).value, o);
    }
  }

  lemma {:induction false} PipesCarryNothing(ps: seq<Position>, n: nat, o: nat)
    requires o < n <= |ps| && IsOwner(ps, o) && ps[o].kind.Pipe? && StartMessages(ps, n).Some?
    ensures ps[o].controls == []
  {
    StartsWith(ps, n - 1);
    if o < n - 1 { PipesCarryNothing(ps, n - 1, o); }
  }

  lemma {:induction false} StartInStep(ps: seq<Position>, k: seq<Real>, pollOut: nat -> bool)
    requires WellFormed(ps) && AtSnapshot(ps, k, pollOut) && Start(ps, pollOut).Some?
    ensures Rel(ps, Start(ps, pollOut).value, k, NOTHING)
  {
    var s := Start(ps, pollOut).value;
    forall o: nat | IsOwner(ps, o) ensures InStep(ps, s.queues[o], Live(s.messages, o), k[o], o, NOTHING) {
      StartLive(ps, |ps|, o);
      if ps[o].kind.Socket? { LayoutFrom(k[o].buffers, 0); } else { PipesCarryNothing(ps, |ps|, o); }
    }
  }

  /** The main result: from queues equal to the snapshot, with the bytes of each pipe in any arrangement of slots, an
      accepted list without a cramped write is replayed operation by operation, and what is then in the kernel is what
      was interpreted, except for the contents of closed sockets. */
  lemma {:induction false} AcceptedListsReplay(ps: seq<Position>, k: seq<Real>, pollOut: nat -> bool, es: seq<Event>,
                                               costs: seq<nat>)
    requires WellFormed(ps) && AtSnapshot(ps, k, pollOut) && Start(ps, pollOut).Some?
    requires |costs| == |es| && forall c :: 0 <= c < |costs| ==> costs[c] <= CHARGE
    requires DryRun(ps, Start(ps, pollOut).value, es).Some? && !CrampedIn(ps, Start(ps, pollOut).value, {}, es)
    ensures var r := Replay(ps, Start(ps, pollOut).value, k, es, costs);
            && r.Some? && r.value.0 == DryRun(ps, Start(ps, pollOut).value, es).value
            && forall o: nat :: IsOwner(ps, o) && o !in AllClosed(ps, es) ==>
                 && (ps[o].kind.Pipe? ==>
                      && r.value.1[o].RealPipe?
                      && PipeBytes(r.value.1[o].slots) == r.value.0.queues[o].bytes)
                 && (ps[o].kind.Socket? ==>
                      && r.value.1[o].RealSocket?
                      && AllBytes(r.value.1[o].buffers) == r.value.0.queues[o].bytes
                      && Layout(r.value.1[o].buffers, r.value.0.queues[o].consumed) == Live(r.value.0.messages, o))
  {
    var s := Start(ps, pollOut).value;
    StartInStep(ps, k, pollOut);
    ReplayFollows(ps, s, k, NOTHING, es, costs);
    PastCloses(ps, NOTHING, es);
    var (s', k') := Replay(ps, s, k, es, costs).value;
    forall o: nat | IsOwner(ps, o) && o !in AllClosed(ps, es)
      ensures InStep(ps, s'.queues[o], Live(s'.messages, o), k'[o], o, PastAll(ps, NOTHING, es))
    {
    }
  }

  // ---------------------------------------------------------------- conservation

  /** What an accepted operation puts into queue o. */
  function Into(ps: seq<Position>, e: Event, o: nat): seq<byte> {
    var f := Find(ps, e.fd, 0);
    if e.Send? && f.Some? && Peer(ps, f.value) == Some(o) then e.data else []
  }

  /** What an accepted operation takes out of queue o. */
  function OutOf(ps: seq<Position>, e: Event, o: nat): seq<byte> {
    var f := Find(ps, e.fd, 0);
    if e.Receive? && !e.peek && f.Some? && Owner(ps, f.value) == o then e.data
    else if e.Send? && e.source.Move? then
      var g := Find(ps, e.source.fd, 0);
      if g.Some? && Owner(ps, g.value) == o then e.data else []
    else []
  }

  function IntoAll(ps: seq<Position>, es: seq<Event>, o: nat): seq<byte> {
    if es == [] then [] else Into(ps, es[0], o) + IntoAll(ps, es[1..], o)
  }

  function OutOfAll(ps: seq<Position>, es: seq<Event>, o: nat): seq<byte> {
    if es == [] then [] else OutOf(ps, es[0], o) + OutOfAll(ps, es[1..], o)
  }

  /** One operation moves exactly the recorded bytes; only a replayed last close drops the rest. */
  lemma {:induction false} ReceiveConserves(ps: seq<Position>, s: State, e: Event, i: nat, o: nat)
    requires WellFormed(ps) && Sized(ps, s) && IsOwner(ps, o) && e.Receive? && Find(ps, e.fd, 0) == Some(i)
    requires !ps[i].kind.Plain? && ReceiveOp(ps, s, i, e).Some?
    ensures var s' := ReceiveOp(ps, s, i, e).value;
            s.queues[o].bytes + Into(ps, e, o) == OutOf(ps, e, o) + s'.queues[o].bytes
  {
    OwnerIsOwner(ps, i);
  }

  lemma {:induction false} RestConserves(ps: seq<Position>, s: State, e: Event, i: nat, o: nat)
    requires WellFormed(ps) && Sized(ps, s) && IsOwner(ps, o) && !e.Send? && Find(ps, e.fd, 0) == Some(i)
    requires Interpret(ps, s, e).Some?
    ensures var s' := Interpret(ps, s, e).value;
            if o in ClosedBy(ps, e) then s'.queues[o].bytes == [] && Into(ps, e, o) == [] && OutOf(ps, e, o) == []
            else s.queues[o].bytes + Into(ps, e, o) == OutOf(ps, e, o) + s'.queues[o].bytes
  {
    if e.Receive? { ReceiveConserves(ps, s, e, i, o); } else if e.Close? || e.Shutdown? {
      if !ps[i].kind.Plain? { OwnerIsOwner(ps, i); }
      if Peer(ps, i).Some? { PeerIsOwner(ps, i); }
    }
  }

  lemma {:induction false} StepConserves(ps: seq<Position>, s: State, e: Event, o: nat)
    requires WellFormed(ps) && Sized(ps, s) && IsOwner(ps, o) && Interpret(ps, s, e).Some?
    ensures var s' := Interpret(ps, s, e).value;
            if o in ClosedBy(ps, e) then s'.queues[o].bytes == [] && Into(ps, e, o) == [] && OutOf(ps, e, o) == []
            else s.queues[o].bytes + Into(ps, e, o) == OutOf(ps, e, o) + s'.queues[o].bytes
  {
    var i := Find(ps, e.fd, 0).value;
    if e.Send? {
      if !ps[i].kind.Plain? { OwnerIsOwner(ps, i); }
      if Peer(ps, i).Some? { PeerIsOwner(ps, i); }
      SendConserves(ps, s, e, i, o);
    } else {
      RestConserves(ps, s, e, i, o);
    }
  }

  lemma {:induction false} SendConserves(ps: seq<Position>, s: State, e: Event, i: nat, o: nat)
    requires WellFormed(ps) && Sized(ps, s) && IsOwner(ps, o) && e.Send? && Find(ps, e.fd, 0) == Some(i)
    requires !ps[i].kind.Plain? && SendOp(ps, s, i, e).Some?
    ensures var s' := SendOp(ps, s, i, e).value;
            s.queues[o].bytes + Into(ps, e, o) == OutOf(ps, e, o) + s'.queues[o].bytes
  {
    var t := TakeSource(ps, s, i, e).value;
    if e.source.Move? || e.source.Copy? { TakeInStep(ps, s, i, e); }
    assert s.queues[o].bytes == OutOf(ps, e, o) + t.queues[o].bytes;
    assert Deliver(t, Owner(ps, i), Peer(ps, i), e.data, SentRights(ps, e).value).queues[o].bytes ==
      t.queues[o].bytes + Into(ps, e, o);
  }

  /** A socket whose last close was replayed stays empty and receives nothing. */
  ghost predicate Sealed(s: State, o: nat) {
    o < |s.queues| && s.queues[o].bytes == [] && s.queues[o].shutdown == Ends(true, true)
  }

  lemma {:induction false} SealedStaysWithoutSend(ps: seq<Position>, s: State, e: Event, i: nat, o: nat)
    requires WellFormed(ps) && Sized(ps, s) && IsOwner(ps, o) && ps[o].kind.Socket? && Interpret(ps, s, e).Some?
    requires !e.Send? && Find(ps, e.fd, 0) == Some(i) && (Sealed(s, o) || o in ClosedBy(ps, e))
    ensures Sealed(Interpret(ps, s, e).value, o) && OutOf(ps, e, o) == []
  {
    if !ps[i].kind.Plain? { OwnerIsOwner(ps, i); }
    if Peer(ps, i).Some? { PeerIsOwner(ps, i); }
  }

  lemma {:induction false} SealedStays(ps: seq<Position>, s: State, e: Event, o: nat)
    requires WellFormed(ps) && Sized(ps, s) && IsOwner(ps, o) && ps[o].kind.Socket? && Interpret(ps, s, e).Some?
    requires Sealed(s, o) || o in ClosedBy(ps, e)
    ensures Sealed(Interpret(ps, s, e).value, o)
    ensures OutOf(ps, e, o) == []
  {
    var i := Find(ps, e.fd, 0).value;
    if e.Send? {
      if !ps[i].kind.Plain? { OwnerIsOwner(ps, i); }
      if Peer(ps, i).Some? { PeerIsOwner(ps, i); }
      if e.source.Move? || e.source.Copy? { TakeInStep(ps, s, i, e); }
    } else {
      SealedStaysWithoutSend(ps, s, e, i, o);
    }
  }

  lemma {:induction false} SealedForGood(ps: seq<Position>, s: State, es: seq<Event>, o: nat)
    requires WellFormed(ps) && Sized(ps, s) && IsOwner(ps, o) && ps[o].kind.Socket? && DryRun(ps, s, es).Some?
    requires Sealed(s, o)
    ensures Sealed(DryRun(ps, s, es).value, o) && OutOfAll(ps, es, o) == []
    decreases |es|
  {
    if es != [] {
      SealedStays(ps, s, es[0], o);
      SealedForGood(ps, Interpret(ps, s, es[0]).value, es[1..], o);
    }
  }

  lemma {:induction false} MovesCompose(a: seq<byte>, i1: seq<byte>, i2: seq<byte>, o1: seq<byte>, o2: seq<byte>,
                                        b: seq<byte>)
    requires a + i1 == o1 + b
    ensures a + (i1 + i2) == o1 + (b + i2)
  {
    assert a + (i1 + i2) == (a + i1) + i2;
    assert o1 + (b + i2) == (o1 + b) + i2;
  }

  /** Bytes consumed followed by bytes left are the bytes at the start followed by the bytes written in; for
      a socket the list closed, the consumed bytes are a prefix of them and nothing is left. */
  lemma {:induction false} BytesConserved(ps: seq<Position>, s: State, es: seq<Event>, o: nat)
    requires WellFormed(ps) && Sized(ps, s) && IsOwner(ps, o) && DryRun(ps, s, es).Some?
    ensures var s' := DryRun(ps, s, es).value;
            var total := s.queues[o].bytes + IntoAll(ps, es, o);
            && IsPrefix(OutOfAll(ps, es, o), total)
            && s'.queues[o].bytes == (if o in AllClosed(ps, es) then [] else total[|OutOfAll(ps, es, o)|..])
    decreases |es|
  {
    if es != [] {
      var e, s1 := es[0], Interpret(ps, s, es[0]).value;
      var out, into := OutOfAll(ps, es[1..], o), IntoAll(ps, es[1..], o);
      StepConserves(ps, s, e, o);
      if o in ClosedBy(ps, e) {
        SealedStays(ps, s, e, o);
        SealedForGood(ps, s1, es[1..], o);
      } else {
        BytesConserved(ps, s1, es[1..], o);
        MovesCompose(s.queues[o].bytes, Into(ps, e, o), into, OutOf(ps, e, o), out, s1.queues[o].bytes);
        PrefixUnder(OutOf(ps, e, o), out, s1.queues[o].bytes + into);
      }
    }
  }

  lemma {:induction false} PrefixUnder(a: seq<byte>, b: seq<byte>, c: seq<byte>)
    requires IsPrefix(b, c)
    ensures IsPrefix(a + b, a + c) && (a + c)[|a + b|..] == c[|b|..]
  {
    assert (a + c)[..|a + b|] == a + c[..|b|];
  }

  /** A pipe never holds more than its capacity. */
  lemma {:induction false} PipesWithinCapacity(ps: seq<Position>, s: State, es: seq<Event>, o: nat)
    requires WellFormed(ps) && Sized(ps, s) && IsOwner(ps, o) && ps[o].kind.Pipe? && DryRun(ps, s, es).Some?
    requires |s.queues[o].bytes| <= ps[o].capacity
    ensures |DryRun(ps, s, es).value.queues[o].bytes| <= ps[o].capacity
    decreases |es|
  {
    if es != [] {
      var e, i := es[0], Find(ps, es[0].fd, 0).value;
      StepConserves(ps, s, e, o);
      if !ps[i].kind.Plain? { OwnerIsOwner(ps, i); }
      if e.Send? && ps[i].kind.Pipe? {
        assert Twins(ps[i], ps[Owner(ps, i)]);
        if e.source.Move? || e.source.Copy? { TakeInStep(ps, s, i, e); }
      }
      if Peer(ps, i).Some? { PeerIsOwner(ps, i); }
      PipesWithinCapacity(ps, Interpret(ps, s, e).value, es[1..], o);
    }
  }
}

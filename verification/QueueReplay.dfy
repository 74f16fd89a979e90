/** The ordered queue interpreter of a held decision.  A list of recorded operations on pipes and Unix
    stream sockets is first interpreted on a private copy of the queues; the same list is then replayed on
    the kernel's queues while the process tree is stopped. */
module QueueReplay {
  import opened Basics

  const PAGE := 4096
  const WRITES := 16
  const CHARGE := 8192

  datatype Access = ReadOnly | WriteOnly | ReadWrite

  /** The two directions a descriptor, a shutdown or a close may name. */
  datatype Ends = Ends(rd: bool, wr: bool)

  datatype Kind = Plain | Pipe | Socket

  /** One captured handle.  `inode` names the queue behind it; two handles are aliases of one queue when
      they name the same inode.  `orphan` marks a socket whose peer is gone, `outside` the ends other processes keep. */
  datatype Position = Position(
    descriptor: nat, kind: Kind, access: Access, append: bool, nonblock: bool, description: nat,
    inode: nat, peer: Option<nat>, orphan: bool, capacity: nat, content: seq<byte>, after: nat, eof: bool,
    shutdown: Ends, peerShutdown: Ends, charged: nat, outside: Ends, controls: seq<Captured>)

  /** A captured message that carries rights: its byte range and the descriptors it carries. */
  datatype Captured = Captured(start: nat, end: nat, rights: seq<nat>)

  datatype Queue = Queue(bytes: seq<byte>, produced: nat, consumed: nat, writes: nat, eof: bool,
                         shutdown: Ends, writable: bool, error: bool)

  datatype Place = At(queue: nat) | Gone | Outside

  datatype Control = Control(place: Place, start: nat, end: nat, rights: seq<nat>)

  datatype Flags = Flags(append: bool, nonblock: bool)

  datatype State = State(queues: seq<Queue>, flags: seq<Flags>, messages: seq<Control>)

  datatype Source = Given | Message(rights: seq<nat>) | Move(fd: nat) | Copy(fd: nat)

  datatype Ready = In | Out | Hup | Err | RdHup | Pri

  datatype Fault = BadDescriptor | BrokenPipe | WouldBlock | OtherError

  /** A recorded operation.  The byte-level encoding of its payload is already decoded. */
  datatype Event =
    | Receive(fd: nat, data: seq<byte>, peek: bool, rights: Option<seq<nat>>)
    | Send(fd: nat, data: seq<byte>, requested: nat, source: Source)
    | Shutdown(fd: nat, ends: Ends)
    | Close(fd: nat, ends: Ends)
    | Poll(fd: nat, request: set<Ready>, expected: set<Ready>, select: bool)
    | SetFlags(fd: nat, to: Flags)
    | Fail(fd: nat, writing: bool, dontwait: bool, fault: Fault, requested: nat)

  // ---------------------------------------------------------------- handles and queues

  function Find(ps: seq<Position>, fd: nat, from: nat): (r: Option<nat>)
    requires from <= |ps|
    ensures r.Some? ==> from <= r.value < |ps| && ps[r.value].descriptor == fd
    decreases |ps| - from
  {
    if from == |ps| then None
    else if ps[from].descriptor == fd then Some(from)
    else Find(ps, fd, from + 1)
  }

  function FindObject(ps: seq<Position>, inode: nat, from: nat): (r: Option<nat>)
    requires from <= |ps|
    ensures r.Some? ==> from <= r.value < |ps| && !ps[r.value].kind.Plain? && ps[r.value].inode == inode
    ensures r.Some? ==> forall j :: from <= j < r.value ==> ps[j].kind.Plain? || ps[j].inode != inode
    ensures r.None? ==> forall j :: from <= j < |ps| ==> ps[j].kind.Plain? || ps[j].inode != inode
    decreases |ps| - from
  {
    if from == |ps| then None
    else if !ps[from].kind.Plain? && ps[from].inode == inode then Some(from)
    else FindObject(ps, inode, from + 1)
  }

  /** Aliases never own another copy of a queue: the first handle of an object holds it. */
  function Owner(ps: seq<Position>, i: nat): (o: nat)
    requires i < |ps|
    ensures o < |ps|
    ensures !ps[i].kind.Plain? ==> !ps[o].kind.Plain? && ps[o].inode == ps[i].inode && o <= i
  {
    if ps[i].kind.Plain? then i else FindObject(ps, ps[i].inode, 0).value
  }

  /** The queue a send on handle i fills: the pipe itself, or the captured peer of a socket. */
  function Peer(ps: seq<Position>, i: nat): (p: Option<nat>)
    requires i < |ps|
    ensures p.Some? ==> p.value < |ps| && !ps[p.value].kind.Plain?
  {
    match ps[i].kind
    case Plain => None
    case Pipe => Some(Owner(ps, i))
    case Socket =>
      if ps[i].peer.None? then None
      else
        var o := FindObject(ps, ps[i].peer.value, 0);
        if o.Some? && ps[o.value].kind.Socket? then o else None
  }

  function ResolveAll(ps: seq<Position>, fds: seq<nat>): (r: Option<seq<nat>>)
    ensures r.Some? ==> |r.value| == |fds| && forall j :: 0 <= j < |fds| ==> r.value[j] < |ps|
  {
    if fds == [] then Some([])
    else
      var first := Find(ps, fds[0], 0);
      var rest := ResolveAll(ps, fds[1..]);
      if first.Some? && rest.Some? then Some([first.value] + rest.value) else None
  }

  predicate Overlap(a: Ends, b: Ends) {
    (a.rd && b.rd) || (a.wr && b.wr)
  }

  function Join(a: Ends, b: Ends): Ends {
    Ends(a.rd || b.rd, a.wr || b.wr)
  }

  /** The ends of a queue a handle with this access keeps open. */
  function Keeps(a: Access): Ends {
    Ends(!a.WriteOnly?, !a.ReadOnly?)
  }

  // ---------------------------------------------------------------- the interpreter

  function EmptyQueue(): Queue {
    Queue([], 0, 0, 0, false, Ends(false, false), false, false)
  }

  /** The queue of handle i as captured, less the `after` bytes already taken from its front.  `writable` is
      what poll reports for the first handle of a pipe that can write. */
  function StartQueue(ps: seq<Position>, i: nat, pollOut: nat -> bool): Queue
    requires i < |ps| && ps[i].after <= |ps[i].content|
  {
    if ps[i].kind.Plain? || Owner(ps, i) != i then EmptyQueue()
    else Queue(ps[i].content[ps[i].after..], 0, 0, 0, ps[i].eof, ps[i].shutdown,
               ps[i].kind.Pipe? && HasWriter(ps, i) && pollOut(ps[i].inode), false)
  }

  predicate HasWriter(ps: seq<Position>, i: nat)
    requires i < |ps|
  {
    exists j :: i <= j < |ps| && ps[j].kind.Pipe? && ps[j].inode == ps[i].inode && !ps[j].access.ReadOnly?
  }

  function CapturedControls(ps: seq<Position>, i: nat, cs: seq<Captured>): (r: Option<seq<Control>>)
  {
    if cs == [] then Some([])
    else
      var rest := CapturedControls(ps, i, cs[1..]);
      var refs := ResolveAll(ps, cs[0].rights);
      if rest.Some? && refs.Some? then Some([Control(At(i), cs[0].start, cs[0].end, refs.value)] + rest.value) else None
  }

  /** The captured messages of the first n handles, in order; None when a message cannot be replayed. */
  function StartMessages(ps: seq<Position>, n: nat): (r: Option<seq<Control>>)
    requires n <= |ps|
  {
    if n == 0 then Some([])
    else
      var i := n - 1;
      var before := StartMessages(ps, i);
      if before.None? then None
      else if ps[i].kind.Plain? || Owner(ps, i) != i || ps[i].controls == [] then before
      else if !ps[i].kind.Socket? || ps[i].content == [] || ps[i].after > 0 ||
              exists c :: c in ps[i].controls && c.end > |ps[i].content| then None
      else
        var cs := CapturedControls(ps, i, ps[i].controls);
        if cs.None? then None else Some(before.value + cs.value)
  }

  /** The private queues every pass starts from. */
  function Start(ps: seq<Position>, pollOut: nat -> bool): (r: Option<State>)
    requires forall i :: 0 <= i < |ps| ==> ps[i].after <= |ps[i].content|
    ensures r.Some? ==> Sized(ps, r.value)
  {
    var ms := StartMessages(ps, |ps|);
    if ms.None? then None
    else Some(State(seq(|ps|, i requires 0 <= i < |ps| => StartQueue(ps, i, pollOut)),
                    seq(|ps|, i requires 0 <= i < |ps| => Flags(ps[i].append, ps[i].nonblock)), ms.value))
  }

  function ReplaceQueue(s: State, i: nat, q: Queue): State
    requires i < |s.queues|
  {
    s.(queues := s.queues[i := q])
  }

  /** The first message of queue o that starts before offset `limit`. */
  function FirstControl(ms: seq<Control>, o: nat, limit: nat, from: nat): (r: Option<nat>)
    requires from <= |ms|
    ensures r.Some? ==> from <= r.value < |ms| && ms[r.value].place == At(o) && ms[r.value].start < limit
    decreases |ms| - from
  {
    if from == |ms| then None
    else if ms[from].place == At(o) && ms[from].start < limit then Some(from)
    else FirstControl(ms, o, limit, from + 1)
  }

  /** A message still queued, here or at a peer outside, holds a right to an end that is being closed. */
  predicate HeldByMessage(ps: seq<Position>, ms: seq<Control>, i: nat, ends: Ends)
    requires i < |ps|
  {
    exists m, r :: 0 <= m < |ms| && ms[m].place != Gone && 0 <= r < |ms[m].rights| && ms[m].rights[r] < |ps| &&
      RightHolds(ps, ms[m].rights[r], i, ends)
  }

  predicate RightHolds(ps: seq<Position>, ref: nat, i: nat, ends: Ends)
    requires ref < |ps| && i < |ps|
  {
    if ps[i].kind.Plain? then ps[ref].description == ps[i].description
    else !ps[ref].kind.Plain? && Owner(ps, ref) == Owner(ps, i) && Overlap(Keeps(ps[ref].access), ends)
  }

  function DropMessages(ms: seq<Control>, o: nat): (r: seq<Control>)
    ensures |r| == |ms|
    ensures forall m :: 0 <= m < |ms| ==> r[m] == if ms[m].place == At(o) then ms[m].(place := Gone) else ms[m]
  {
    seq(|ms|, m requires 0 <= m < |ms| => if ms[m].place == At(o) then ms[m].(place := Gone) else ms[m])
  }

  predicate IsPrefix(a: seq<byte>, b: seq<byte>) {
    |a| <= |b| && b[..|a|] == a
  }

  function Advance(q: Queue, n: nat): Queue
    requires n <= |q.bytes|
  {
    q.(bytes := q.bytes[n..], consumed := q.consumed + n)
  }

  predicate Sized(ps: seq<Position>, s: State) {
    |s.queues| == |ps| && |s.flags| == |ps|
  }

  /** The reasons to reject a recorded read: wrong direction, other bytes than queued, an end of file that
      is not there, a read across a message boundary, or other rights than the message carries. */
  predicate ReceiveRefused(ps: seq<Position>, s: State, i: nat, e: Event)
    requires Sized(ps, s) && i < |ps| && e.Receive? && !ps[i].kind.Plain?
  {
    var o := Owner(ps, i);
    var q := s.queues[o];
    var n := |e.data|;
    var c := FirstControl(s.messages, o, q.consumed + n, 0);
    || (e.rights.Some? && !ps[i].kind.Socket?)
    || ps[i].access.WriteOnly?
    || !IsPrefix(e.data, q.bytes)
    || (n == 0 && (!q.eof || q.error))
    || (c.Some? && q.consumed + n > s.messages[c.value].end)
    || (e.rights.Some? && ResolveAll(ps, e.rights.value) != Some(if c.Some? then s.messages[c.value].rights else []))
  }

  /** Remove n bytes from queue o, and with them the rights of the message they belong to. */
  function Consume(s: State, o: nat, n: nat): State
    requires o < |s.queues| && n <= |s.queues[o].bytes|
  {
    var c := FirstControl(s.messages, o, s.queues[o].consumed + n, 0);
    var ms := if c.Some? then s.messages[c.value := s.messages[c.value].(place := Gone)] else s.messages;
    ReplaceQueue(s, o, Advance(s.queues[o], n)).(messages := ms)
  }

  function ReceiveOp(ps: seq<Position>, s: State, i: nat, e: Event): (r: Option<State>)
    requires Sized(ps, s) && i < |ps| && e.Receive? && !ps[i].kind.Plain?
    ensures r.Some? ==> Sized(ps, r.value)
  {
    if ReceiveRefused(ps, s, i, e) then None
    else if e.peek then Some(s)
    else Some(Consume(s, Owner(ps, i), |e.data|))
  }

  /** The checks and the removal that come before the write when the bytes are taken from another pipe. */
  function TakeSource(ps: seq<Position>, s: State, i: nat, e: Event): (r: Option<State>)
    requires Sized(ps, s) && i < |ps| && e.Send? && !ps[i].kind.Plain?
    ensures r.Some? ==> Sized(ps, r.value)
  {
    if !e.source.Move? && !e.source.Copy? then Some(s)
    else
      var f := Find(ps, e.source.fd, 0);
      if f.None? then None
      else
        var from := f.value;
        var o, input := Owner(ps, i), Owner(ps, from);
        if !ps[i].kind.Pipe? || !ps[from].kind.Pipe? || input == o || ps[from].access.WriteOnly? ||
           |e.data| != e.requested || e.data == [] || !IsPrefix(e.data, s.queues[input].bytes) ||
           (|s.queues[o].bytes| + |e.data|) * PAGE > ps[i].capacity then None
        else if e.source.Move? then Some(ReplaceQueue(s, input, Advance(s.queues[input], |e.data|)))
        else Some(s)
  }

  /** The rights a send carries; None when one of them names no captured handle. */
  function SentRights(ps: seq<Position>, e: Event): Option<seq<nat>>
    requires e.Send?
  {
    if e.source.Message? then ResolveAll(ps, e.source.rights) else Some([])
  }

  predicate SendRefused(ps: seq<Position>, s: State, i: nat, e: Event)
    requires Sized(ps, s) && i < |ps| && e.Send? && !ps[i].kind.Plain?
  {
    var o, peer, p := Owner(ps, i), Peer(ps, i), ps[i];
    var q := s.queues[o];
    var n := |e.data|;
    || (e.requested != n &&
        !(p.kind.Pipe? && s.flags[i].nonblock && e.requested > PAGE && n == p.capacity && q.bytes == []))
    || p.access.ReadOnly? || q.shutdown.wr
    || (p.kind.Pipe? && !q.writable && q.consumed < PAGE)
    || (p.kind.Socket? && (if peer.None? then p.peerShutdown.rd else s.queues[peer.value].shutdown.rd))
    || q.produced + n > PAGE || q.writes + 1 > WRITES
    || (p.kind.Socket? && p.charged + (q.writes + 1) * CHARGE > p.capacity)
    || (peer.Some? && |s.queues[peer.value].bytes| + n > |ps[peer.value].content| + PAGE)
    || (p.kind.Pipe? && |q.bytes| + n > p.capacity)
    || (SentRights(ps, e) != Some([]) && n == 0)
  }

  /** Where a message with rights is noted: behind the bytes of the captured peer, or at a peer outside. */
  function SentControl(s: State, peer: Option<nat>, n: nat, refs: seq<nat>): Control
    requires peer.Some? ==> peer.value < |s.queues|
  {
    if peer.None? then Control(Outside, 0, n, refs)
    else
      var start := s.queues[peer.value].consumed + |s.queues[peer.value].bytes|;
      Control(At(peer.value), start, start + n, refs)
  }

  /** Count a write on queue o and append its bytes and rights at the receiving queue. */
  function Deliver(s: State, o: nat, peer: Option<nat>, data: seq<byte>, refs: seq<nat>): (r: State)
    requires o < |s.queues| && (peer.Some? ==> peer.value < |s.queues|)
    ensures |r.queues| == |s.queues| && r.flags == s.flags
  {
    var q := s.queues[o];
    var s1 := ReplaceQueue(s, o, q.(produced := q.produced + |data|, writes := q.writes + 1));
    var s2 := if refs == [] then s1 else s1.(messages := s1.messages + [SentControl(s1, peer, |data|, refs)]);
    if peer.None? then s2
    else
      var t := s2.queues[peer.value];
      ReplaceQueue(s2, peer.value, t.(bytes := t.bytes + data))
  }

  function SendOp(ps: seq<Position>, s: State, i: nat, e: Event): (r: Option<State>)
    requires Sized(ps, s) && i < |ps| && e.Send? && !ps[i].kind.Plain?
    ensures r.Some? ==> Sized(ps, r.value)
  {
    var refs := SentRights(ps, e);
    var taken := TakeSource(ps, s, i, e);
    if refs.None? || taken.None? || (e.source.Message? && !ps[i].kind.Socket?) then None
    else if SendRefused(ps, taken.value, i, e) then None
    else Some(Deliver(taken.value, Owner(ps, i), Peer(ps, i), e.data, refs.value))
  }

  /** Closing one end of a pipe for good. */
  function ClosePipe(s: State, o: nat, ends: Ends): (r: State)
    requires o < |s.queues|
    ensures |r.queues| == |s.queues| && r.flags == s.flags
  {
    var q := s.queues[o];
    ReplaceQueue(s, o, q.(eof := q.eof || ends.wr, shutdown := Ends(q.shutdown.rd, q.shutdown.wr || ends.rd)))
  }

  /** Closing a socket for good: its peer reads end of file, or an error when bytes were left unread, and
      what was still queued is dropped with its rights. */
  function CloseSocket(s: State, o: nat, peer: Option<nat>): (r: State)
    requires o < |s.queues| && (peer.Some? ==> peer.value < |s.queues|)
    ensures |r.queues| == |s.queues| && r.flags == s.flags
  {
    var q := s.queues[o];
    var s1 := ReplaceQueue(s, o, q.(shutdown := Ends(true, true)));
    var s2 := if peer.None? then s1
              else
                var t := s1.queues[peer.value];
                ReplaceQueue(s1, peer.value,
                  t.(eof := true, shutdown := Ends(true, true), error := t.error || q.bytes != []));
    ReplaceQueue(s2, o, s2.queues[o].(bytes := [])).(messages := DropMessages(s2.messages, o))
  }

  function CloseQueue(ps: seq<Position>, s: State, i: nat, e: Event): (r: Option<State>)
    requires Sized(ps, s) && i < |ps| && e.Close?
    ensures r.Some? ==> Sized(ps, r.value)
  {
    if !(e.ends.rd || e.ends.wr) || (ps[i].kind.Plain? && e.ends != Ends(true, true)) then None
    else if HeldByMessage(ps, s.messages, i, e.ends) then None
    else if ps[i].kind.Plain? then Some(s)
    else if Overlap(ps[i].outside, e.ends) then None
    else if ps[i].kind.Pipe? then Some(ClosePipe(s, Owner(ps, i), e.ends))
    else Some(CloseSocket(s, Owner(ps, i), Peer(ps, i)))
  }

  /** Whether poll reports the handle writable; None when the captured state does not decide it. */
  function PollWritable(ps: seq<Position>, s: State, i: nat): (r: Option<bool>)
    requires Sized(ps, s) && i < |ps| && !ps[i].kind.Plain?
  {
    var o, peer, p := Owner(ps, i), Peer(ps, i), ps[i];
    var q := s.queues[o];
    if p.kind.Socket? then
      if (p.charged + q.writes * CHARGE) * 4 <= p.capacity ||
        (peer.Some? && s.queues[peer.value].bytes == []) then Some(true)
      else if q.writes == 0 && (peer.None? || s.queues[peer.value].consumed == 0) then Some(false)
      else None
    else if p.content == [] then Some((if q.bytes == [] then 0 else PAGE) < p.capacity)
    else if q.bytes == [] then Some(true)
    else if q.produced == 0 && q.consumed == 0 then Some(q.writable)
    else None
  }

  predicate PollAgrees(ps: seq<Position>, s: State, i: nat, e: Event)
    requires Sized(ps, s) && i < |ps| && e.Poll? && !ps[i].kind.Plain?
  {
    var o, p := Owner(ps, i), ps[i];
    var q := s.queues[o];
    var in0 := if q.bytes != [] then {In} else {};
    var ready :=
      if p.kind.Socket? then
        in0 + (if q.shutdown.rd then {In, RdHup} else {}) +
        (if q.shutdown == Ends(true, true) || p.orphan then {Hup} else {}) + (if q.error then {Err} else {})
      else if p.access.ReadOnly? && q.eof then in0 + {Hup}
      else if p.access.WriteOnly? && q.shutdown.wr then in0 + {Err}
      else in0;
    var asks := !p.access.ReadOnly? && Out in e.request;
    var writable := if asks then PollWritable(ps, s, i) else Some(false);
    writable.Some? &&
    var all := if writable.value then ready + {Out} else ready;
    if e.select then
      var selected := (if all * {In, Hup, Err} != {} then {In} else {}) +
        (if all * {Out, Err} != {} then {Out} else {}) + all * {Pri};
      e.request <= {In, Out, Pri} && selected * e.request == e.expected
    else all * (e.request + {Err, Hup}) == e.expected
  }

  function SetAll(ps: seq<Position>, fs: seq<Flags>, i: nat, to: Flags): (r: seq<Flags>)
    requires |fs| == |ps| && i < |ps|
    ensures |r| == |fs|
    ensures forall j :: 0 <= j < |fs| ==> r[j] == if ps[j].description == ps[i].description then to else fs[j]
  {
    seq(|fs|, j requires 0 <= j < |fs| => if ps[j].description == ps[i].description then to else fs[j])
  }

  predicate FailExplained(ps: seq<Position>, s: State, i: nat, e: Event)
    requires Sized(ps, s) && i < |ps| && e.Fail? && !ps[i].kind.Plain?
  {
    var o, peer, p := Owner(ps, i), Peer(ps, i), ps[i];
    var q := s.queues[o];
    var badAccess := if e.writing then p.access.ReadOnly? else p.access.WriteOnly?;
    var broken := e.writing && (q.shutdown.wr ||
      (p.kind.Socket? && (if peer.Some? then s.queues[peer.value].shutdown.rd else p.peerShutdown.rd)));
    var blocked := e.requested > 0 && (e.dontwait || s.flags[i].nonblock) &&
      (if e.writing then p.kind.Pipe? && !broken &&
         (|q.bytes| == p.capacity || (e.requested <= PAGE && e.requested + |q.bytes| > p.capacity))
       else q.bytes == [] && !q.eof && !q.error);
    match e.fault
    case BadDescriptor => badAccess
    case BrokenPipe => !badAccess && broken
    case WouldBlock => !badAccess && blocked
    case OtherError => false
  }

  function ShutdownQueue(ps: seq<Position>, s: State, i: nat, e: Event): (r: Option<State>)
    requires Sized(ps, s) && i < |ps| && e.Shutdown? && !ps[i].kind.Plain?
    ensures r.Some? ==> Sized(ps, r.value)
  {
    if !ps[i].kind.Socket? || !(e.ends.rd || e.ends.wr) then None
    else
      var o, peer := Owner(ps, i), Peer(ps, i);
      var q := s.queues[o];
      var s1 := ReplaceQueue(s, o, q.(shutdown := Join(q.shutdown, e.ends), eof := q.eof || e.ends.rd));
      if peer.None? then Some(s1)
      else
        var t := s1.queues[peer.value];
        Some(ReplaceQueue(s1, peer.value,
          t.(eof := t.eof || e.ends.wr, shutdown := Join(t.shutdown, Ends(e.ends.wr, e.ends.rd)))))
  }

  /** One recorded operation on the private queues; None rejects the whole list. */
  function Interpret(ps: seq<Position>, s: State, e: Event): (r: Option<State>)
    requires Sized(ps, s)
    ensures r.Some? ==> Sized(ps, r.value)
  {
    var f := Find(ps, e.fd, 0);
    if f.None? then None
    else
      var i := f.value;
      if ps[i].kind.Plain? && !e.Close? then None
      else match e
        case Receive(_, _, _, _) => ReceiveOp(ps, s, i, e)
        case Send(_, _, _, _) => SendOp(ps, s, i, e)
        case Shutdown(_, _) => ShutdownQueue(ps, s, i, e)
        case Close(_, _) => CloseQueue(ps, s, i, e)
        case Poll(_, _, _, _) => if PollAgrees(ps, s, i, e) then Some(s) else None
        case SetFlags(_, to) => Some(s.(flags := SetAll(ps, s.flags, i, to)))
        case Fail(_, _, _, _, _) => if FailExplained(ps, s, i, e) then Some(s) else None
  }

  // ---------------------------------------------------------------- the kernel's queues

  /** A buffer of a Unix stream socket: its bytes, and the rights that travel with its first byte. */
  datatype Buffer = Buffer(data: seq<byte>, rights: seq<nat>)

  /** A slot of a pipe's ring: one page, of which `used` bytes are written and `data` is not read yet.  A write may go
      on in a page an earlier write began; a page that came from another pipe in part, or by tee, is not written to. */
  datatype PipeSlot = PipeSlot(data: seq<byte>, used: nat, merge: bool)

  /** What the kernel holds for one object.  `spent` bounds the send budget used so far. */
  datatype Real = NoQueue | RealPipe(slots: seq<PipeSlot>) | RealSocket(buffers: seq<Buffer>, shut: Ends, spent: nat)

  /** How many slots a pipe of this capacity has. */
  function MaxSlots(capacity: nat): nat {
    capacity / PAGE
  }

  function PipeBytes(slots: seq<PipeSlot>): seq<byte> {
    if slots == [] then [] else slots[0].data + PipeBytes(slots[1..])
  }

  function DropSlots(slots: seq<PipeSlot>, n: nat): seq<PipeSlot> {
    if n == 0 || slots == [] then slots
    else if |slots[0].data| <= n then DropSlots(slots[1..], n - |slots[0].data|)
    else [slots[0].(data := slots[0].data[n..])] + slots[1..]
  }

  /** The slots that carry the first n bytes to another pipe: whole ones as they are, the rest as part of a page. */
  function TakeSlots(slots: seq<PipeSlot>, n: nat): seq<PipeSlot> {
    if n == 0 || slots == [] then []
    else if |slots[0].data| <= n then [slots[0]] + TakeSlots(slots[1..], n - |slots[0].data|)
    else [PipeSlot(slots[0].data[..n], PAGE, false)]
  }

  /** The same for tee, which shares all pages. */
  function CopySlots(slots: seq<PipeSlot>, n: nat): seq<PipeSlot> {
    var taken := TakeSlots(slots, n);
    seq(|taken|, j requires 0 <= j < |taken| => taken[j].(merge := false))
  }

  function Pages(data: seq<byte>): seq<PipeSlot> {
    if data == [] then []
    else if |data| <= PAGE then [PipeSlot(data, |data|, true)]
    else [PipeSlot(data[..PAGE], PAGE, true)] + Pages(data[PAGE..])
  }

  /** A write: what exceeds whole pages goes first into the last page, if it may and there is room, and all else into
      new ones. */
  function WriteSlots(slots: seq<PipeSlot>, data: seq<byte>): seq<PipeSlot> {
    var tail := |data| % PAGE;
    if slots != [] && tail > 0 && slots[|slots| - 1].merge && slots[|slots| - 1].used + tail <= PAGE then
      var last := slots[|slots| - 1];
      slots[..|slots| - 1] + [last.(data := last.data + data[..tail], used := last.used + tail)] + Pages(data[tail..])
    else slots + Pages(data)
  }

  function DropBytes(bs: seq<Buffer>, n: nat): seq<Buffer> {
    if n == 0 || bs == [] then bs
    else if |bs[0].data| <= n then DropBytes(bs[1..], n - |bs[0].data|)
    else [Buffer(bs[0].data[n..], [])] + bs[1..]
  }

  function AllBytes(bs: seq<Buffer>): seq<byte> {
    if bs == [] then [] else bs[0].data + AllBytes(bs[1..])
  }

  /** One recvmsg of n bytes: it runs on through plain buffers and stops behind the first that carries rights. */
  function RecvMsg(bs: seq<Buffer>, n: nat): (r: (seq<byte>, seq<nat>, seq<Buffer>))
  {
    if n == 0 || bs == [] then ([], [], bs)
    else if |bs[0].data| > n then (bs[0].data[..n], bs[0].rights, [Buffer(bs[0].data[n..], [])] + bs[1..])
    else if bs[0].rights != [] then (bs[0].data, bs[0].rights, bs[1..])
    else
      var (d, r, rest) := RecvMsg(bs[1..], n - |bs[0].data|);
      (bs[0].data + d, r, rest)
  }

  function RealReceive(ps: seq<Position>, k: seq<Real>, i: nat, e: Event): (r: Option<seq<Real>>)
    requires |k| == |ps| && i < |ps| && e.Receive?
    ensures r.Some? ==> |r.value| == |ps|
  {
    var o := Owner(ps, i);
    var n := |e.data|;
    if e.peek || n == 0 then Some(k)
    else match k[o]
      case NoQueue => None
      case RealPipe(slots) =>
        if IsPrefix(e.data, PipeBytes(slots)) then Some(k[o := RealPipe(DropSlots(slots, n))]) else None
      case RealSocket(bs, shut, spent) =>
        if e.rights.None? then
          if IsPrefix(e.data, AllBytes(bs)) then Some(k[o := RealSocket(DropBytes(bs, n), shut, spent)]) else None
        else
          var (d, rights, rest) := RecvMsg(bs, n);
          if d == e.data && Some(rights) ==
            ResolveAll(ps, e.rights.value) then Some(k[o := RealSocket(rest, shut, spent)]) else None
  }

  /** Splice, which moves, or tee, which copies, n bytes from one pipe to another. */
  function RealCarry(ps: seq<Position>, k: seq<Real>, o: nat, input: nat, n: nat, move: bool): (r: Option<seq<Real>>)
    requires |k| == |ps| && o < |ps| && k[o].RealPipe?
    ensures r.Some? ==> |r.value| == |ps|
  {
    if input >= |ps| || !k[input].RealPipe? || input == o || |PipeBytes(k[input].slots)| < n then None
    else
      var moved := if move then TakeSlots(k[input].slots, n) else CopySlots(k[input].slots, n);
      if |k[o].slots| + |moved| > MaxSlots(ps[o].capacity) then None
      else
        var k1 := k[o := RealPipe(k[o].slots + moved)];
        Some(if move then k1[input := RealPipe(DropSlots(k[input].slots, n))] else k1)
  }

  /** A write, send, splice or tee that must move exactly the recorded bytes.  `cost` is what the send takes
      from the socket's budget. */
  function RealSend(ps: seq<Position>, k: seq<Real>, i: nat, e: Event, cost: nat): (r: Option<seq<Real>>)
    requires |k| == |ps| && i < |ps| && e.Send?
    ensures r.Some? ==> |r.value| == |ps|
  {
    var o := Owner(ps, i);
    match k[o]
    case NoQueue => None
    case RealPipe(slots) =>
      if e.source.Move? || e.source.Copy? then
        var f := Find(ps, e.source.fd, 0);
        if f.None? then None else RealCarry(ps, k, o, Owner(ps, f.value), |e.data|, e.source.Move?)
      else
        var filled := WriteSlots(slots, e.data);
        if |filled| > MaxSlots(ps[o].capacity) then None else Some(k[o := RealPipe(filled)])
    case RealSocket(bs, shut, spent) =>
      var peer := Peer(ps, i);
      var refs := SentRights(ps, e);
      if refs.None? || e.source.Move? || e.source.Copy? || shut.wr || spent + cost > ps[o].capacity then None
      else
        var k1 := k[o := RealSocket(bs, shut, spent + cost)];
        if peer.None? then (if ps[i].peerShutdown.rd then None else Some(k1))
        else if !k1[peer.value].RealSocket? || k1[peer.value].shut.rd then None
        else
          var t := k1[peer.value];
          Some(if e.data == [] then k1 else k1[peer.value := t.(buffers := t.buffers + [Buffer(e.data, refs.value)])])
  }

  function RealShutdown(ps: seq<Position>, k: seq<Real>, i: nat, e: Event): (r: Option<seq<Real>>)
    requires |k| == |ps| && i < |ps| && e.Shutdown?
    ensures r.Some? ==> |r.value| == |ps|
  {
    var o, peer := Owner(ps, i), Peer(ps, i);
    if !k[o].RealSocket? then None
    else
      var k1 := k[o := k[o].(shut := Join(k[o].shut, e.ends))];
      if peer.None? || !k1[peer.value].RealSocket? then Some(k1)
      else Some(k1[peer.value := k1[peer.value].(shut := Join(k1[peer.value].shut, Ends(e.ends.wr, e.ends.rd)))])
  }

  /** What the replay does to the kernel for one operation; closes stay logical, and peeks, polls and
      recorded failures are checked on the private queues alone. */
  function Effect(ps: seq<Position>, k: seq<Real>, e: Event, cost: nat): (r: Option<seq<Real>>)
    requires |k| == |ps|
    ensures r.Some? ==> |r.value| == |ps|
  {
    var f := Find(ps, e.fd, 0);
    if f.None? then None
    else match e
      case Receive(_, _, _, _) => RealReceive(ps, k, f.value, e)
      case Send(_, _, _, _) => RealSend(ps, k, f.value, e, cost)
      case Shutdown(_, _) => RealShutdown(ps, k, f.value, e)
      case _ => Some(k)
  }

  // ---------------------------------------------------------------- dry run and replay

  function DryRun(ps: seq<Position>, s: State, es: seq<Event>): (r: Option<State>)
    requires Sized(ps, s)
    ensures r.Some? ==> Sized(ps, r.value)
    decreases |es|
  {
    if es == [] then Some(s)
    else
      var s1 := Interpret(ps, s, es[0]);
      if s1.None? then None else DryRun(ps, s1.value, es[1..])
  }

  /** The replay interprets and applies each operation; `costs` is the budget each send takes. */
  function Replay(ps: seq<Position>, s: State, k: seq<Real>, es: seq<Event>, costs: seq<nat>)
    : (r: Option<(State, seq<Real>)>)
    requires Sized(ps, s) && |k| == |ps| && |costs| == |es|
    ensures r.Some? ==> Sized(ps, r.value.0) && |r.value.1| == |ps|
    decreases |es|
  {
    if es == [] then Some((s, k))
    else
      var s1, k1 := Interpret(ps, s, es[0]), Effect(ps, k, es[0], costs[0]);
      if s1.None? || k1.None? then None else Replay(ps, s1.value, k1.value, es[1..], costs[1..])
  }
}

/** A list that the dry run accepts and the replay cannot carry out: tee puts a byte into a pipe of one page, whose
    slot is then taken by a page that is not written to, and a write of one more byte follows. */
module QueueReplayCramped {
  import opened Basics
  import opened QueueReplay
  import opened QueueReplayPipes
  import opened QueueReplayProofs

  const NEITHER := Ends(false, false)

  function Handle(fd: nat, access: Access, content: seq<byte>): Position {
    Position(fd, Pipe, access, false, false, fd, fd, None, false, PAGE, content, 0, false, NEITHER, NEITHER, 0,
      NEITHER, [])
  }

  /** Descriptor 3 reads a pipe that holds one byte, descriptor 4 writes an empty one. */
  function Handles(): seq<Position> {
    [Handle(3, ReadOnly, [7]), Handle(4, WriteOnly, [])]
  }

  function Writable(inode: nat): bool {
    inode == 4
  }

  function Kernel(): seq<Real> {
    [RealPipe([PipeSlot([7], 1, true)]), RealPipe([])]
  }

  const TEE := Send(4, [7], 1, Copy(3))
  const WRITE := Send(4, [8], 1, Given)

  function Fresh(content: seq<byte>, writable: bool): Queue {
    Queue(content, 0, 0, 0, false, NEITHER, writable, false)
  }

  function Begun(): State {
    State([Fresh([7], false), Fresh([], true)], [Flags(false, false), Flags(false, false)], [])
  }

  function Teed(): State {
    Begun().(queues := [Fresh([7], false), Written(Fresh([], true), [7])])
  }

  lemma {:induction false} Resolves()
    ensures var ps := Handles();
      && Find(ps, 3, 0) == Some(0) && Find(ps, 4, 0) == Some(1) && Owner(ps, 0) == 0 && Owner(ps, 1) == 1
  {
    var ps := Handles();
    assert Find(ps, 4, 1) == Some(1);
    assert FindObject(ps, 4, 1) == Some(1);
  }

  lemma {:induction false} Begins()
    ensures WellFormed(Handles()) && AtSnapshot(Handles(), Kernel(), Writable)
    ensures Start(Handles(), Writable) == Some(Begun())
  {
    var ps, k := Handles(), Kernel();
    Resolves();
    assert PipeBytes(k[0].slots) == [7] by { assert [PipeSlot([7], 1, true)][1..] == []; }
    assert MaxSlots(PAGE) == 1;
    assert StartMessages(ps, 0) == Some([]) && StartMessages(ps, 1) == Some([]) && StartMessages(ps, 2) == Some([]);
    assert HasWriter(ps, 1);
    var s := Start(ps, Writable).value;
    assert ps[0].content[ps[0].after..] == [7] && ps[1].content[ps[1].after..] == [];
    assert s.queues == Begun().queues && s.flags == Begun().flags;
  }

  lemma {:induction false} TeeAccepted()
    ensures Interpret(Handles(), Begun(), TEE) == Some(Teed())
  {
    var ps, s := Handles(), Begun();
    Resolves();
    assert IsPrefix([7], s.queues[0].bytes);
    assert TakeSource(ps, s, 1, TEE) == Some(s);
    assert !SendRefused(ps, s, 1, TEE);
    var t := Deliver(s, 1, Some(1), [7], []);
    assert t.queues[1] == Written(Fresh([], true), [7]) by { assert [] + [7] == [7]; }
    assert t.queues == Teed().queues;
    assert Interpret(ps, s, TEE) == Some(t);
  }

  lemma {:induction false} WriteAccepted()
    ensures Interpret(Handles(), Teed(), WRITE).Some? && Cramped(Handles(), Teed(), {1}, WRITE)
  {
    Resolves();
    assert !SendRefused(Handles(), Teed(), 1, WRITE);
  }

  lemma {:induction false} KernelRefuses()
    ensures var k := Kernel()[1 := RealPipe([PipeSlot([7], 1, false)])];
      Effect(Handles(), Kernel(), TEE, 0) == Some(k) && Effect(Handles(), k, WRITE, 0) == None
  {
    var ps, k := Handles(), Kernel();
    Resolves();
    var slots := k[0].slots;
    assert slots[1..] == [];
    assert PipeBytes(slots) == [7];
    assert TakeSlots(slots, 1) == [slots[0]];
    assert CopySlots(slots, 1) == [PipeSlot([7], 1, false)];
    assert [] + [PipeSlot([7], 1, false)] == [PipeSlot([7], 1, false)];
    assert MaxSlots(PAGE) == 1;
    assert |WriteSlots([PipeSlot([7], 1, false)], [8])| == 2;
  }

  /** Accepted by the dry run, and not carried out. */
  lemma {:induction false} CrampedWriteFails()
    ensures var ps, es := Handles(), [TEE, WRITE];
      && WellFormed(ps) && AtSnapshot(ps, Kernel(), Writable) && Start(ps, Writable).Some?
      && DryRun(ps, Start(ps, Writable).value, es).Some?
      && Replay(ps, Start(ps, Writable).value, Kernel(), es, [0, 0]).None?
  {
    var ps, es, costs := Handles(), [TEE, WRITE], [0, 0];
    Begins();
    TeeAccepted();
    WriteAccepted();
    KernelRefuses();
    assert es[1..] == [WRITE] && es[1..][1..] == [] && costs[1..] == [0];
    assert DryRun(ps, Teed(), [WRITE]).Some?;
    assert DryRun(ps, Begun(), es).Some?;
    var k := Kernel()[1 := RealPipe([PipeSlot([7], 1, false)])];
    assert Replay(ps, Teed(), k, [WRITE], [0]).None?;
  }
}

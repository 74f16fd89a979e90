/** The memory image of a held process: writing it to a buffer, checking a buffer that is read back, and rebuilding the
    memory of another process from it.  Every walk goes over the same list of mappings and keeps its own offset into the
    buffer.  A file mapping is stored as its bytes, the bytes of its backing file, and one flag per page that says
    whether the process has a private copy of the page; only such pages are rewritten. */
module ProcessImage {
  import opened Basics

  type Memory = map<nat, byte>

  const PAGE: nat := 4096
  const IMAGE_BYTES: nat := 64 * 1024 * 1024
  const IMAGE_MAPS: nat := 128
  const IMAGE_SCRATCH: nat := 0x100000000

  /** Kernel-provided mappings are moved, not copied. */
  datatype Kind = Special | Anonymous | File(offset: nat, size: nat)

  datatype Mapping = Mapping(start: nat, end: nat, kind: Kind) {
    predicate Aligned() {
      start < end && start % PAGE == 0 && end % PAGE == 0
    }

    function Length(): nat {
      if start <= end then end - start else 0
    }

    function Pages(): nat {
      Length() / PAGE
    }

    /** How many bytes of the buffer the mapping takes. */
    function Size(): nat {
      match kind
      case Special => 0
      case Anonymous => Length()
      case File(_, _) => 2 * Length() + Pages()
    }
  }

  predicate AllAligned(maps: seq<Mapping>) {
    forall i :: 0 <= i < |maps| ==> maps[i].Aligned()
  }

  /** Where the walk over the mappings stands before mapping `i`. */
  function Offset(maps: seq<Mapping>, i: nat): nat
    requires i <= |maps|
  {
    if i == 0 then 0 else Offset(maps, i - 1) + maps[i - 1].Size()
  }

  lemma {:induction false} OffsetsGrow(maps: seq<Mapping>, i: nat, j: nat)
    requires i <= j <= |maps|
    ensures Offset(maps, i) <= Offset(maps, j)
    decreases j
  {
    if i < j { OffsetsGrow(maps, i, j - 1); }
  }

  /** What a file mapping of `length` bytes shows of its file: the file's bytes from the offset on, then zeros. */
  function Backing(content: Bytes, offset: nat, length: nat): (b: Bytes)
    ensures |b| == length
  {
    if offset >= |content| then Zeros(length)
    else if |content| - offset < length then content[offset..] + Zeros(length - (|content| - offset))
    else content[offset..offset + length]
  }

  predicate Within(a: nat, start: nat, length: nat) {
    start <= a < start + length
  }

  function Range(start: nat, length: nat): set<nat> {
    set a: nat | a < start + length && Within(a, start, length)
  }

  predicate Mapped(memory: Memory, start: nat, length: nat) {
    Range(start, length) <= memory.Keys
  }

  function Peek(memory: Memory, start: nat, length: nat): (b: Bytes)
    requires Mapped(memory, start, length)
    ensures |b| == length
  {
    seq(length, k requires 0 <= k < length => assert start + k in Range(start, length); memory[start + k])
  }

  function Poke(memory: Memory, start: nat, b: Bytes): Memory {
    memory + map a | a in Range(start, |b|) :: b[a - start]
  }

  // ---------------------------------------------------------------- sections of the buffer

  /** The bytes of mapping `i`. */
  function Part(maps: seq<Mapping>, data: Bytes, i: nat): (b: Bytes)
    requires i < |maps| && Offset(maps, i + 1) <= |data|
    ensures |b| == maps[i].Size()
  {
    data[Offset(maps, i)..Offset(maps, i + 1)]
  }

  function PageOf(b: Bytes, page: nat): (p: Bytes)
    requires (page + 1) * PAGE <= |b|
    ensures |p| == PAGE
  {
    b[page * PAGE..(page + 1) * PAGE]
  }

  /** A page without a private copy must be the file's. */
  predicate PagesAgree(content: Bytes, backing: Bytes, flags: Bytes) {
    && |content| == |backing| == |flags| * PAGE
    && forall p :: 0 <= p < |flags| ==> flags[p] <= 1 && (flags[p] == 0 ==> PageOf(content, p) == PageOf(backing, p))
  }

  predicate Clear(m: Mapping) {
    m.end <= IMAGE_SCRATCH || IMAGE_SCRATCH + 2 * PAGE <= m.start
  }

  /** The file behind a mapping still is what its section says it was, and unflagged pages show it. */
  predicate Unchanged(m: Mapping, content: Bytes, section: Bytes)
    requires m.Aligned() && |section| == m.Size()
  {
    m.kind.File? ==>
      && |content| == m.kind.size
      && Backing(content, m.kind.offset, m.Length()) == section[m.Length()..2 * m.Length()]
      && PagesAgree(section[..m.Length()], section[m.Length()..2 * m.Length()], section[2 * m.Length()..])
  }

  /** What the loader accepts: mappings in order and clear of the scratch pages, a buffer of exactly their size, and
      backing files that still are what they were. */
  predicate Accepts(maps: seq<Mapping>, data: Bytes, files: seq<Bytes>)
    requires |files| == |maps|
  {
    && 0 < |maps| <= IMAGE_MAPS && |data| <= IMAGE_BYTES
    && Offset(maps, |maps|) == |data|
    && forall i :: 0 <= i < |maps| ==> Sound(maps, data, files, i)
  }

  predicate Sound(maps: seq<Mapping>, data: Bytes, files: seq<Bytes>, i: nat)
    requires |files| == |maps| && i < |maps|
  {
    && maps[i].Aligned() && Clear(maps[i]) && (i > 0 ==> maps[i - 1].end <= maps[i].start)
    && Offset(maps, i + 1) <= |data| && Unchanged(maps[i], files[i], Part(maps, data, i))
  }

  // ---------------------------------------------------------------- writing

  /** A process to capture: its memory, the files behind its mappings, and the kernel's record of which of its pages are
      private copies.  The pages the capture itself has written to carry the flags they had before. */
  datatype Producer = Producer(memory: Memory, files: seq<Bytes>, copied: nat -> bool, bootstrap: nat,
    before: seq<bool>) {
    function Flag(address: nat): byte {
      var own := bootstrap <= address < bootstrap + |before| * PAGE;
      if (if own then before[(address - bootstrap) / PAGE] else copied(address)) then 1 else 0
    }

    function Flags(m: Mapping): (f: Bytes)
      requires m.Aligned()
      ensures |f| == m.Pages()
    {
      seq(m.Pages(), p requires 0 <= p < m.Pages() => Flag(m.start + p * PAGE))
    }

    predicate Legible(maps: seq<Mapping>) {
      && AllAligned(maps) && |files| == |maps|
      && forall i :: 0 <= i < |maps| && !maps[i].kind.Special? ==>
           Mapped(memory, maps[i].start, maps[i].Length()) && (maps[i].kind.File? ==> maps[i].kind.size == |files[i]|)
    }

    /** The bytes of mapping `i` in the buffer. */
    function Section(maps: seq<Mapping>, i: nat): (b: Bytes)
      requires Legible(maps) && i < |maps|
      ensures |b| == maps[i].Size()
    {
      var m := maps[i];
      match m.kind
      case Special => []
      case Anonymous => Peek(memory, m.start, m.Length())
      case File(offset, _) => Peek(memory, m.start, m.Length()) + Backing(files[i], offset, m.Length()) + Flags(m)
    }

    function Image(maps: seq<Mapping>, n: nat): (b: Bytes)
      requires Legible(maps) && n <= |maps|
      ensures |b| == Offset(maps, n)
    {
      if n == 0 then [] else Image(maps, n - 1) + Section(maps, n - 1)
    }

    /** Every page of a file mapping that is not flagged as a copy shows the file's bytes. */
    predicate Honest(maps: seq<Mapping>, i: nat)
      requires Legible(maps) && i < |maps|
    {
      maps[i].kind.File? ==>
        PagesAgree(Peek(memory, maps[i].start, maps[i].Length()),
                   Backing(files[i], maps[i].kind.offset, maps[i].Length()), Flags(maps[i]))
    }

    predicate AllHonest(maps: seq<Mapping>, n: nat)
      requires Legible(maps) && n <= |maps|
    {
      n == 0 || (AllHonest(maps, n - 1) && Honest(maps, n - 1))
    }
  }

  method CopyInto(data: array<byte>, offset: nat, b: Bytes)
    requires offset + |b| <= data.Length
    modifies data
    ensures data[..offset + |b|] == old(data[..offset]) + b
  {
    for k := 0 to |b|
      invariant data[..offset] == old(data[..offset])
      invariant data[offset..offset + k] == b[..k]
    {
      data[offset + k] := b[k];
    }
    assert data[..offset + |b|] == data[..offset] + data[offset..offset + |b|];
  }

  method PagesMatch(content: Bytes, backing: Bytes, flags: Bytes) returns (ok: bool)
    requires |content| == |backing| == |flags| * PAGE
    ensures ok == PagesAgree(content, backing, flags)
  {
    for page := 0 to |flags|
      invariant forall p :: 0 <= p < page ==>
        flags[p] <= 1 && (flags[p] == 0 ==> PageOf(content, p) == PageOf(backing, p))
    {
      if flags[page] > 1 || (flags[page] == 0 && PageOf(content, page) != PageOf(backing, page)) { return false; }
    }
    ok := true;
  }

  method WriteFileSection(producer: Producer, m: Mapping, content: Bytes, file: Bytes, data: array<byte>, start: nat)
    returns (ok: bool)
    requires m.Aligned() && m.kind.File? && |content| == m.Length() && start + m.Size() <= data.Length
    modifies data
    ensures ok == PagesAgree(content, Backing(file, m.kind.offset, m.Length()), producer.Flags(m))
    ensures data[..start + m.Size()] ==
      old(data[..start]) + (content + Backing(file, m.kind.offset, m.Length()) + producer.Flags(m))
  {
    var offset := start;
    CopyInto(data, offset, content);
    offset := offset + m.Length();
    var backing := Backing(file, m.kind.offset, m.Length());
    CopyInto(data, offset, backing);
    offset := offset + m.Length();
    var flags := producer.Flags(m);
    CopyInto(data, offset, flags);
    ok := PagesMatch(content, backing, flags);
  }

  /** Writes the section of one mapping; `ok` tells whether its unflagged pages are the file's. */
  method WriteSection(producer: Producer, maps: seq<Mapping>, i: nat, data: array<byte>, start: nat) returns (ok: bool)
    requires producer.Legible(maps) && i < |maps| && start + maps[i].Size() <= data.Length
    modifies data
    ensures ok == producer.Honest(maps, i)
    ensures data[..start + maps[i].Size()] == old(data[..start]) + producer.Section(maps, i)
  {
    var m := maps[i];
    if m.kind.Special? { return true; }
    var content := Peek(producer.memory, m.start, m.Length());
    if m.kind.File? {
      ok := WriteFileSection(producer, m, content, producer.files[i], data, start);
    } else {
      CopyInto(data, start, content);
      ok := true;
    }
  }

  method Measure(maps: seq<Mapping>) returns (ok: bool, length: nat)
    requires AllAligned(maps)
    ensures ok == (Offset(maps, |maps|) <= IMAGE_BYTES)
    ensures ok ==> length == Offset(maps, |maps|)
  {
    length := 0;
    for i := 0 to |maps|
      invariant length == Offset(maps, i) <= IMAGE_BYTES
    {
      OffsetsGrow(maps, i + 1, |maps|);
      if length + maps[i].Size() > IMAGE_BYTES { return false, 0; }
      length := length + maps[i].Size();
    }
    ok := true;
  }

  method WriteNext(producer: Producer, maps: seq<Mapping>, i: nat, data: array<byte>, start: nat)
    returns (ok: bool, next: nat)
    requires producer.Legible(maps) && i < |maps| && start == Offset(maps, i)
    requires start <= data.Length == Offset(maps, |maps|) && data[..start] == producer.Image(maps, i)
    modifies data
    ensures ok == producer.Honest(maps, i)
    ensures next == Offset(maps, i + 1) <= data.Length
    ensures data[..next] == producer.Image(maps, i + 1)
  {
    ImageNext(producer, maps, i);
    OffsetsGrow(maps, i + 1, |maps|);
    ok := WriteSection(producer, maps, i, data, start);
    next := start + maps[i].Size();
  }

  lemma {:induction false} NotAllHonest(producer: Producer, maps: seq<Mapping>, i: nat, n: nat)
    requires producer.Legible(maps) && i < n <= |maps| && !producer.Honest(maps, i)
    ensures !producer.AllHonest(maps, n)
    decreases n
  {
    if i < n - 1 { NotAllHonest(producer, maps, i, n - 1); }
  }

  lemma {:induction false} ImageNext(producer: Producer, maps: seq<Mapping>, i: nat)
    requires producer.Legible(maps) && i < |maps|
    ensures producer.Image(maps, i + 1) == producer.Image(maps, i) + producer.Section(maps, i)
  {
  }

  /** Captures a process: succeeds exactly if the image is not too large and no unflagged page differs from its file. */
  method Write(producer: Producer, maps: seq<Mapping>) returns (ok: bool, data: array<byte>)
    requires producer.Legible(maps)
    ensures ok <==> Offset(maps, |maps|) <= IMAGE_BYTES && producer.AllHonest(maps, |maps|)
    ensures ok ==> data[..] == producer.Image(maps, |maps|)
  {
    var length;
    ok, length := Measure(maps);
    data := new byte[length];
    if ok { ok := WriteAll(producer, maps, data); }
  }

  method WriteAll(producer: Producer, maps: seq<Mapping>, data: array<byte>) returns (ok: bool)
    requires producer.Legible(maps) && data.Length == Offset(maps, |maps|)
    modifies data
    ensures ok <==> producer.AllHonest(maps, |maps|)
    ensures ok ==> data[..] == producer.Image(maps, |maps|)
  {
    var offset := 0;
    for i := 0 to |maps|
      invariant offset == Offset(maps, i) <= data.Length
      invariant data[..offset] == producer.Image(maps, i)
      invariant producer.AllHonest(maps, i)
    {
      ok, offset := WriteNext(producer, maps, i, data, offset);
      if !ok {
        NotAllHonest(producer, maps, i, |maps|);
        return;
      }
    }
    assert data[..offset] == data[..];
    ok := true;
  }

  // ---------------------------------------------------------------- loading

  /** Checks the section of one mapping. */
  method LoadSection(m: Mapping, content: Bytes, section: Bytes) returns (ok: bool)
    requires m.Aligned() && !m.kind.Special? && |section| == m.Size()
    ensures ok == Unchanged(m, content, section)
  {
    if m.kind.Anonymous? { return true; }
    if |content| != m.kind.size { return false; }
    var length := m.Length();
    if Backing(content, m.kind.offset, length) != section[length..2 * length] { return false; }
    ok := PagesMatch(section[..length], section[length..2 * length], section[2 * length..]);
  }

  method LoadOne(maps: seq<Mapping>, data: array<byte>, files: seq<Bytes>, i: nat, offset: nat) returns (ok: bool)
    requires |files| == |maps| && i < |maps| && offset == Offset(maps, i) <= data.Length
    ensures ok == Sound(maps, data[..], files, i)
  {
    var m := maps[i];
    if !m.Aligned() || !Clear(m) || (i > 0 && maps[i - 1].end > m.start) { return false; }
    if m.kind.Special? { return true; }
    if m.Size() > data.Length - offset { return false; }
    assert data[offset..offset + m.Size()] == Part(maps, data[..], i);
    ok := LoadSection(m, files[i], data[offset..offset + m.Size()]);
  }

  /** Checks a buffer against the mappings it claims to hold and the files as they are now. */
  method Load(maps: seq<Mapping>, data: array<byte>, files: seq<Bytes>) returns (ok: bool)
    requires |files| == |maps|
    ensures ok == Accepts(maps, data[..], files)
  {
    if |maps| == 0 || |maps| > IMAGE_MAPS || data.Length > IMAGE_BYTES { return false; }
    var offset := 0;
    for i := 0 to |maps|
      invariant offset == Offset(maps, i) <= data.Length
      invariant forall j :: 0 <= j < i ==> Sound(maps, data[..], files, j)
    {
      ok := LoadOne(maps, data, files, i, offset);
      if !ok { return; }
      offset := offset + maps[i].Size();
    }
    ok := offset == data.Length;
  }

  // ---------------------------------------------------------------- restoring

  /** What the section of a mapping says the process saw there. */
  function Content(m: Mapping, section: Bytes): (b: Bytes)
    requires |section| == m.Size() && !m.kind.Special?
    ensures |b| == m.Length()
  {
    section[..m.Length()]
  }

  /** The memory that the first `n` mappings of an image describe. */
  function Rebuilt(maps: seq<Mapping>, data: Bytes, n: nat): Memory
    requires n <= |maps| && Offset(maps, n) <= |data|
  {
    if n == 0 then map[]
    else
      var rest := Rebuilt(maps, data, n - 1);
      var m := maps[n - 1];
      if m.kind.Special? then rest else Poke(rest, m.start, Content(m, Part(maps, data, n - 1)))
  }

  function Domain(maps: seq<Mapping>, n: nat): set<nat>
    requires n <= |maps|
  {
    if n == 0 then {}
    else Domain(maps, n - 1) + if maps[n - 1].kind.Special? then {} else Range(maps[n - 1].start, maps[n - 1].Length())
  }

  /** The thread-id word, least significant byte first. */
  function Word(pid: nat): Bytes {
    [(pid % 256) as byte, (pid / 256 % 256) as byte, (pid / 65536 % 256) as byte, (pid / 16777216 % 256) as byte]
  }

  /** There is no thread-id word, or it can be read and holds this number. */
  predicate HoldsThread(memory: Memory, clearTid: nat, pid: nat) {
    clearTid == 0 || (Mapped(memory, clearTid, 4) && Peek(memory, clearTid, 4) == Word(pid))
  }

  class Process {
    var memory: Memory

    constructor (memory: Memory)
      ensures this.memory == memory
    {
      this.memory := memory;
    }

    /** Removes every mapping that is not special. */
    method Unmap(initial: seq<Mapping>)
      requires memory.Keys == Domain(initial, |initial|)
      modifies this
      ensures memory == map[]
    {
      for i := 0 to |initial|
        invariant memory.Keys <= Domain(initial, |initial|)
        invariant memory.Keys * Domain(initial, i) == {}
      {
        if !initial[i].kind.Special? {
          memory := memory - Range(initial[i].start, initial[i].Length());
        }
      }
      assert memory.Keys == memory.Keys * Domain(initial, |initial|);
    }

    /** Maps a file privately, or fresh zeros, and writes the pages that differ from what the mapping
        shows by itself. */
    method MapAgain(m: Mapping, file: Bytes, section: Bytes)
      requires m.Aligned() && !m.kind.Special? && |section| == m.Size() && Unchanged(m, file, section)
      modifies this
      ensures memory == Poke(old(memory), m.start, Content(m, section))
    {
      ghost var before := memory;
      var length := m.Length();
      if m.kind.Anonymous? {
        memory := Poke(memory, m.start, Zeros(length));
        memory := Poke(memory, m.start, section[..length]);
        PokeInside(before, m.start, Zeros(length), 0, section[..length]);
      } else {
        memory := Poke(memory, m.start, Backing(file, m.kind.offset, length));
        WritePages(before, m.start, section[..length], section[length..2 * length], section[2 * length..]);
      }
    }

    method WritePages(ghost before: Memory, start: nat, content: Bytes, ghost backing: Bytes, flags: Bytes)
      requires PagesAgree(content, backing, flags) && memory == Poke(before, start, backing)
      modifies this
      ensures memory == Poke(before, start, content)
    {
      MixedEnds(content, backing, |flags|);
      for page := 0 to |flags|
        invariant memory == Poke(before, start, Mixed(content, backing, page))
      {
        if flags[page] != 0 {
          WritePage(before, start, content, backing, page);
        } else {
          MixedNext(content, backing, page);
        }
      }
    }

    method WritePage(ghost before: Memory, start: nat, content: Bytes, ghost backing: Bytes, page: nat)
      requires |content| == |backing| && (page + 1) * PAGE <= |content|
      requires memory == Poke(before, start, Mixed(content, backing, page))
      modifies this
      ensures memory == Poke(before, start, Mixed(content, backing, page + 1))
    {
      PokePage(before, start, content, backing, page);
      memory := Poke(memory, start + page * PAGE, PageOf(content, page));
    }

    /** Rebuilds the memory of an accepted image. */
    method Restore(initial: seq<Mapping>, maps: seq<Mapping>, data: array<byte>, files: seq<Bytes>)
      requires memory.Keys == Domain(initial, |initial|)
      requires |files| == |maps| && Accepts(maps, data[..], files)
      modifies this
      ensures memory == Rebuilt(maps, data[..], |maps|)
    {
      Unmap(initial);
      var offset := 0;
      for i := 0 to |maps|
        invariant offset == Offset(maps, i) <= data.Length
        invariant memory == Rebuilt(maps, data[..], i)
      {
        assert Sound(maps, data[..], files, i);
        if !maps[i].kind.Special? {
          assert data[offset..offset + maps[i].Size()] == Part(maps, data[..], i);
          MapAgain(maps[i], files[i], data[offset..offset + maps[i].Size()]);
        }
        offset := offset + maps[i].Size();
      }
    }

    /** Hands the thread-id word over to the new process; refuses unless it holds the number of the old one. */
    method HandOver(clearTid: nat, producer: nat, pid: nat) returns (ok: bool)
      modifies this
      ensures ok <==> HoldsThread(old(memory), clearTid, producer)
      ensures memory == if ok && clearTid != 0 then Poke(old(memory), clearTid, Word(pid)) else old(memory)
    {
      if clearTid == 0 { return true; }
      if !Mapped(memory, clearTid, 4) { return false; }
      if Peek(memory, clearTid, 4) != Word(producer) { return false; }
      memory := Poke(memory, clearTid, Word(pid));
      ok := true;
    }
  }

  /** A mapping whose first pages have been rewritten. */
  function Mixed(content: Bytes, backing: Bytes, pages: nat): (b: Bytes)
    requires |content| == |backing| && pages * PAGE <= |content|
    ensures |b| == |content|
  {
    content[..pages * PAGE] + backing[pages * PAGE..]
  }

  lemma {:induction false} MixedEnds(content: Bytes, backing: Bytes, pages: nat)
    requires |content| == |backing| == pages * PAGE
    ensures Mixed(content, backing, 0) == backing && Mixed(content, backing, pages) == content
  {
  }

  lemma {:induction false} MixedNext(content: Bytes, backing: Bytes, page: nat)
    requires |content| == |backing| && (page + 1) * PAGE <= |content|
    ensures var mixed := Mixed(content, backing, page);
      Mixed(content, backing, page + 1) == mixed[..page * PAGE] + PageOf(content, page) + mixed[(page + 1) * PAGE..]
    ensures PageOf(content, page) == PageOf(backing, page) ==>
      Mixed(content, backing, page + 1) == Mixed(content, backing, page)
  {
    var mixed := Mixed(content, backing, page);
    assert mixed[..page * PAGE] == content[..page * PAGE];
    assert mixed[(page + 1) * PAGE..] == backing[(page + 1) * PAGE..];
    assert backing[page * PAGE..] == PageOf(backing, page) + backing[(page + 1) * PAGE..];
    assert content[..(page + 1) * PAGE] == content[..page * PAGE] + PageOf(content, page);
  }

  lemma {:induction false} PokePage(memory: Memory, start: nat, content: Bytes, backing: Bytes, page: nat)
    requires |content| == |backing| && (page + 1) * PAGE <= |content|
    ensures var mixed := Mixed(content, backing, page);
      Poke(Poke(memory, start, mixed), start + page * PAGE, PageOf(content, page)) ==
        Poke(memory, start, Mixed(content, backing, page + 1))
  {
    MixedNext(content, backing, page);
    PokeInside(memory, start, Mixed(content, backing, page), page * PAGE, PageOf(content, page));
  }

  lemma {:induction false} PokeInside(memory: Memory, start: nat, x: Bytes, at: nat, y: Bytes)
    requires at + |y| <= |x|
    ensures Poke(Poke(memory, start, x), start + at, y) == Poke(memory, start, x[..at] + y + x[at + |y|..])
  {
    var z := x[..at] + y + x[at + |y|..];
    var l, r := Poke(Poke(memory, start, x), start + at, y), Poke(memory, start, z);
    assert Range(start + at, |y|) <= Range(start, |x|) == Range(start, |z|);
    assert l.Keys == r.Keys;
    forall a | a in l ensures l[a] == r[a] {
      if a in Range(start + at, |y|) {
        assert z[a - start] == y[a - start - at];
      } else if a in Range(start, |x|) {
        assert z[a - start] == x[a - start];
      }
    }
  }

  // ---------------------------------------------------------------- the round trip

  /** The three walks agree: what the writer put at its offset for mapping `i` is what the others find there. */
  lemma {:induction false} PartIsSection(producer: Producer, maps: seq<Mapping>, i: nat, n: nat)
    requires producer.Legible(maps) && i < n <= |maps|
    ensures Offset(maps, i + 1) <= |producer.Image(maps, n)|
    ensures Part(maps, producer.Image(maps, n), i) == producer.Section(maps, i)
    decreases n
  {
    var section, shorter, last := producer.Section(maps, i), producer.Image(maps, n - 1), producer.Section(maps, n - 1);
    assert producer.Image(maps, n) == shorter + last;
    OffsetsGrow(maps, i + 1, n);
    if i < n - 1 {
      PartIsSection(producer, maps, i, n - 1);
      assert Part(maps, shorter, i) == section;
      PartOfPrefix(maps, shorter, last, i);
    } else {
      PartAtEnd(maps, shorter, last, i);
    }
  }

  lemma {:induction false} PartAtEnd(maps: seq<Mapping>, data: Bytes, last: Bytes, i: nat)
    requires i < |maps| && Offset(maps, i) == |data| && Offset(maps, i + 1) == |data| + |last|
    ensures Part(maps, data + last, i) == last
  {
  }

  lemma {:induction false} PartOfPrefix(maps: seq<Mapping>, data: Bytes, more: Bytes, i: nat)
    requires i < |maps| && Offset(maps, i + 1) <= |data|
    ensures Part(maps, data + more, i) == Part(maps, data, i)
  {
  }

  lemma {:induction false} AllHonestAt(producer: Producer, maps: seq<Mapping>, n: nat, i: nat)
    requires producer.Legible(maps) && i < n <= |maps| && producer.AllHonest(maps, n)
    ensures producer.Honest(maps, i)
    decreases n
  {
    if i < n - 1 { AllHonestAt(producer, maps, n - 1, i); }
  }

  lemma {:induction false} SectionUnchanged(producer: Producer, maps: seq<Mapping>, i: nat)
    requires producer.Legible(maps) && i < |maps| && producer.Honest(maps, i)
    ensures Unchanged(maps[i], producer.files[i], producer.Section(maps, i))
  {
    var m := maps[i];
    if m.kind.File? {
      var section := producer.Section(maps, i);
      assert section[..m.Length()] == Peek(producer.memory, m.start, m.Length());
      assert section[m.Length()..2 * m.Length()] == Backing(producer.files[i], m.kind.offset, m.Length());
      assert section[2 * m.Length()..] == producer.Flags(m);
    }
  }

  /** As long as the files stay as they are, what the writer produces for an orderly process passes the loader. */
  lemma {:induction false} WrittenIsAccepted(producer: Producer, maps: seq<Mapping>)
    requires producer.Legible(maps) && producer.AllHonest(maps, |maps|) && Offset(maps, |maps|) <= IMAGE_BYTES
    requires 0 < |maps| <= IMAGE_MAPS && forall i :: 0 <= i < |maps| ==> Clear(maps[i])
    requires forall i :: 0 < i < |maps| ==> maps[i - 1].end <= maps[i].start
    ensures Accepts(maps, producer.Image(maps, |maps|), producer.files)
  {
    forall i | 0 <= i < |maps| ensures Sound(maps, producer.Image(maps, |maps|), producer.files, i) {
      PartIsSection(producer, maps, i, |maps|);
      AllHonestAt(producer, maps, |maps|, i);
      SectionUnchanged(producer, maps, i);
    }
  }

  lemma {:induction false} RebuiltDomain(maps: seq<Mapping>, data: Bytes, n: nat)
    requires n <= |maps| && Offset(maps, n) <= |data|
    ensures Rebuilt(maps, data, n).Keys == Domain(maps, n)
    decreases n
  {
    if n > 0 { RebuiltDomain(maps, data, n - 1); }
  }

  predicate Orderly(maps: seq<Mapping>) {
    AllAligned(maps) && forall i :: 0 < i < |maps| ==> maps[i - 1].end <= maps[i].start
  }

  lemma {:induction false} AcceptedIsOrderly(maps: seq<Mapping>, data: Bytes, files: seq<Bytes>)
    requires |files| == |maps| && Accepts(maps, data, files)
    ensures Orderly(maps)
  {
    forall i | 0 <= i < |maps| ensures maps[i].Aligned() && (i > 0 ==> maps[i - 1].end <= maps[i].start) {
      assert Sound(maps, data, files, i);
    }
  }

  lemma {:induction false} EndsBelow(maps: seq<Mapping>, i: nat, n: nat)
    requires i < n < |maps| && Orderly(maps)
    ensures maps[i].end <= maps[n].start
    decreases n
  {
    if i < n - 1 { EndsBelow(maps, i, n - 1); }
  }

  /** `memory` holds `b` from `start` on. */
  predicate Shows(memory: Memory, start: nat, b: Bytes) {
    Mapped(memory, start, |b|) && Peek(memory, start, |b|) == b
  }

  lemma {:induction false} PokeShows(memory: Memory, start: nat, b: Bytes)
    ensures Shows(Poke(memory, start, b), start, b)
  {
  }

  lemma {:induction false} PokeElsewhere(memory: Memory, start: nat, b: Bytes, at: nat, c: Bytes)
    requires Shows(memory, start, b) && start + |b| <= at
    ensures Shows(Poke(memory, at, c), start, b)
  {
    var t := Poke(memory, at, c);
    forall k | 0 <= k < |b| ensures start + k in t && t[start + k] == b[k] {
      assert Within(start + k, start, |b|) && start + k in Range(start, |b|);
      assert b[k] == Peek(memory, start, |b|)[k];
    }
    assert Mapped(t, start, |b|);
  }

  /** Every mapping of an orderly image is rebuilt as its section says, whatever is mapped after it. */
  lemma {:induction false} RebuiltShows(maps: seq<Mapping>, data: Bytes, i: nat, n: nat)
    requires Orderly(maps) && i < n <= |maps| && Offset(maps, n) <= |data| && !maps[i].kind.Special?
    ensures Offset(maps, i + 1) <= |data|
    ensures Shows(Rebuilt(maps, data, n), maps[i].start, Content(maps[i], Part(maps, data, i)))
    decreases n
  {
    OffsetsGrow(maps, i + 1, n);
    OffsetsGrow(maps, n - 1, n);
    var rest, last := Rebuilt(maps, data, n - 1), maps[n - 1];
    if i == n - 1 {
      PokeShows(rest, last.start, Content(last, Part(maps, data, n - 1)));
    } else {
      RebuiltShows(maps, data, i, n - 1);
      EndsBelow(maps, i, n - 1);
      if !last.kind.Special? {
        PokeElsewhere(rest, maps[i].start, Content(maps[i], Part(maps, data, i)), last.start,
          Content(last, Part(maps, data, n - 1)));
      }
    }
  }

  /** What a process held is what the process rebuilt from its image holds: every byte of every mapping that is not
      special, and nothing else. */
  lemma {:induction false} RoundTrip(producer: Producer, maps: seq<Mapping>)
    requires producer.Legible(maps) && producer.memory.Keys == Domain(maps, |maps|)
    requires Accepts(maps, producer.Image(maps, |maps|), producer.files)
    ensures Rebuilt(maps, producer.Image(maps, |maps|), |maps|) == producer.memory
  {
    var n, data := |maps|, producer.Image(maps, |maps|);
    RebuiltDomain(maps, data, n);
    forall a | a in producer.memory ensures Rebuilt(maps, data, n)[a] == producer.memory[a] {
      RoundTripAt(producer, maps, data, a);
    }
  }

  lemma {:induction false} RoundTripAt(producer: Producer, maps: seq<Mapping>, data: Bytes, a: nat)
    requires producer.Legible(maps) && a in Domain(maps, |maps|) && data == producer.Image(maps, |maps|)
    requires Accepts(maps, data, producer.files)
    ensures a in producer.memory && a in Rebuilt(maps, data, |maps|)
    ensures Rebuilt(maps, data, |maps|)[a] == producer.memory[a]
  {
    var n := |maps|;
    var i := Home(maps, n, a);
    AcceptedIsOrderly(maps, data, producer.files);
    RebuiltShows(maps, data, i, n);
    PartIsSection(producer, maps, i, n);
    SectionContent(producer, maps, i);
    SameAt(producer.memory, Rebuilt(maps, data, n), maps[i].start, Content(maps[i], Part(maps, data, i)), a);
  }

  lemma {:induction false} SectionContent(producer: Producer, maps: seq<Mapping>, i: nat)
    requires producer.Legible(maps) && i < |maps| && !maps[i].kind.Special?
    ensures Shows(producer.memory, maps[i].start, Content(maps[i], producer.Section(maps, i)))
  {
    assert Content(maps[i], producer.Section(maps, i)) == Peek(producer.memory, maps[i].start, maps[i].Length());
  }

  lemma {:induction false} SameAt(x: Memory, y: Memory, start: nat, b: Bytes, a: nat)
    requires Shows(x, start, b) && Shows(y, start, b) && Within(a, start, |b|)
    ensures a in x && a in y && x[a] == y[a]
  {
    assert a in Range(start, |b|);
    assert Peek(x, start, |b|)[a - start] == Peek(y, start, |b|)[a - start];
  }

  /** The mapping an address lies in. */
  lemma {:induction false} Home(maps: seq<Mapping>, n: nat, a: nat) returns (i: nat)
    requires n <= |maps| && a in Domain(maps, n)
    ensures i < n && !maps[i].kind.Special? && maps[i].start <= a < maps[i].start + maps[i].Length()
    decreases n
  {
    if a in Domain(maps, n - 1) {
      i := Home(maps, n - 1, a);
    } else {
      i := n - 1;
      assert Within(a, maps[i].start, maps[i].Length());
    }
  }

  /** The image is not too large, its unflagged pages are the files', and the loader takes it. */
  predicate Portable(producer: Producer, maps: seq<Mapping>)
    requires producer.Legible(maps)
  {
    && Offset(maps, |maps|) <= IMAGE_BYTES && producer.AllHonest(maps, |maps|)
    && Accepts(maps, producer.Image(maps, |maps|), producer.files)
  }

  /** Capture, check and rebuild, end to end.  The one thing that may differ is the thread-id word. */
  method Carry(producer: Producer, maps: seq<Mapping>, consumer: Process, initial: seq<Mapping>,
               clearTid: nat, from: nat, to: nat) returns (ok: bool)
    requires producer.Legible(maps) && producer.memory.Keys == Domain(maps, |maps|)
    requires consumer.memory.Keys == Domain(initial, |initial|)
    modifies consumer
    ensures ok <==> Portable(producer, maps) && HoldsThread(producer.memory, clearTid, from)
    ensures ok ==>
      consumer.memory == (if clearTid == 0 then producer.memory else Poke(producer.memory, clearTid, Word(to)))
  {
    var data;
    ok, data := Write(producer, maps);
    if !ok { return; }
    ok := Load(maps, data, producer.files);
    if !ok { return; }
    RoundTrip(producer, maps);
    consumer.Restore(initial, maps, data, producer.files);
    ok := consumer.HandOver(clearTid, from, to);
  }
}

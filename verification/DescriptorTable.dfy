/** Replacing the descriptor table of a held process by the one of an image, with no system call but the ones a process
    can make on its own table.  Sources are pinned out of the way first, so that swaps, cycles and aliases survive. */
module DescriptorTable {
  import opened Basics

  /** An open descriptor: the open file description it names, and its close-on-exec flag. */
  datatype Slot = Slot(description: nat, cloexec: bool)

  type Table = map<nat, Slot>

  /** A description the supervisor holds, and the number under which the image's producer knew it: `installed` if the
      producer still had it there, with the status flags and the offset it is to have when the image runs. */
  datatype Position = Position(descriptor: nat, description: nat, installed: bool, flags: nat, offset: nat)

  /** One descriptor of the image: its number, the producer's number for what it names, its close-on-exec flag, and the
      status flags and the offset recorded with it. */
  datatype Entry = Entry(fd: nat, source: nat, cloexec: bool, flags: nat, offset: nat)

  const MAX_HANDLES := 256
  const MAX_POSITIONS := 64

  /** The lowest number from `minimum` on that is not taken: how the kernel numbers new descriptors. */
  function Free(taken: set<nat>, minimum: nat): (n: nat)
    ensures minimum <= n && n !in taken
    decreases |taken|
  {
    if minimum !in taken then minimum else Free(taken - {minimum}, minimum + 1)
  }

  lemma {:induction false} FreeIsLowest(taken: set<nat>, minimum: nat, k: nat)
    requires minimum <= k < Free(taken, minimum)
    ensures k in taken
    decreases |taken|
  {
    if minimum < k { FreeIsLowest(taken - {minimum}, minimum + 1, k); }
  }

  /** The numbers of `count` descriptors installed one after the other. */
  function Lowest(taken: set<nat>, count: nat): (s: seq<nat>)
    ensures |s| == count
  {
    if count == 0 then []
    else
      var s := Lowest(taken, count - 1);
      s + [Free(taken + Elements(s), 0)]
  }

  /** `table` is `before` with the positions' descriptions at the lowest free numbers, which are `sources`. */
  predicate Installed(before: Table, table: Table, positions: seq<Position>, sources: seq<nat>) {
    && sources == Lowest(before.Keys, |positions|)
    && table.Keys == before.Keys + Elements(sources)
    && (forall n :: n in before ==> table[n] == before[n])
    && (forall q :: 0 <= q < |positions| ==> Holds(table, sources[q], positions[q]))
  }

  /** Descriptor `fd` names the description of the position. */
  predicate Holds(table: Table, fd: nat, position: Position) {
    fd in table && table[fd] == Slot(position.description, true)
  }

  lemma {:induction false} OneMoreElement(s: seq<nat>, n: nat)
    ensures Elements(s + [n]) == Elements(s) + {n}
  {
    assert forall x :: x in s + [n] <==> x in s || x == n;
  }

  lemma {:induction false} HoldsOneMore(table: Table, positions: seq<Position>, p: nat, sources: seq<nat>, q: nat)
    requires q <= p < |positions| && |sources| == p
    requires forall r :: 0 <= r < p ==> Holds(table, sources[r], positions[..p][r])
    ensures var fd := Free(table.Keys, 0);
      Holds(table[fd := Slot(positions[p].description, true)], (sources + [fd])[q], positions[..p + 1][q])
  {
    if q < p { assert Holds(table, sources[q], positions[..p][q]); }
  }

  lemma {:induction false} InstalledOneMore(before: Table, table: Table, positions: seq<Position>, p: nat,
                                            sources: seq<nat>)
    requires p < |positions| && Installed(before, table, positions[..p], sources)
    ensures var fd := Free(table.Keys, 0);
      Installed(before, table[fd := Slot(positions[p].description, true)], positions[..p + 1], sources + [fd])
  {
    var fd, slot := Free(table.Keys, 0), Slot(positions[p].description, true);
    var now := table[fd := slot];
    OneMoreElement(sources, fd);
    assert Lowest(before.Keys, p + 1) == sources + [fd];
    forall q | 0 <= q < p + 1 ensures Holds(now, (sources + [fd])[q], positions[..p + 1][q]) {
      HoldsOneMore(table, positions, p, sources, q);
    }
  }

  // ---------------------------------------------------------------- the kernel

  class Process {
    var table: Table
    var refused: bool   // the kernel turned down a call for want of resources

    constructor (table: Table)
      ensures this.table == table && !refused
    {
      this.table := table;
      refused := false;
    }

    method Install(minimum: nat, slot: Slot) returns (fd: int)
      modifies this
      ensures fd == -1 ==> table == old(table) && refused
      ensures fd != -1 ==>
        fd == Free(old(table).Keys, minimum) && table == old(table)[fd := slot] && refused == old(refused)
    {
      if * {
        refused := true;
        return -1;
      }
      fd := Free(table.Keys, minimum);
      table := table[fd := slot];
    }

    method Close(fd: nat) returns (ok: bool)
      modifies this
      ensures ok == (fd in old(table)) && table == old(table) - {fd} && refused == old(refused)
    {
      ok := fd in table;
      table := table - {fd};
    }

    method DupAbove(source: nat, minimum: nat) returns (fd: int)
      modifies this
      ensures fd == -1 ==> table == old(table) && (refused || source !in table)
      ensures old(refused) ==> refused
      ensures fd != -1 ==> source in old(table) && fd == Free(old(table).Keys, minimum) && refused == old(refused)
      ensures fd != -1 ==> table == old(table)[fd := Slot(old(table)[source].description, true)]
    {
      if source !in table { return -1; }
      fd := Install(minimum, Slot(table[source].description, true));
    }

    method Dup3(source: nat, fd: nat, cloexec: bool) returns (ok: bool)
      modifies this
      ensures old(refused) ==> refused
      ensures !ok ==> table == old(table) && (refused || source !in table || source == fd)
      ensures ok ==> source in old(table) && table == old(table)[fd := Slot(old(table)[source].description, cloexec)]
      ensures ok ==> refused == old(refused)
    {
      if source !in table || source == fd { return false; }
      if * {
        refused := true;
        return false;
      }
      table := table[fd := Slot(table[source].description, cloexec)];
      ok := true;
    }

    method Numbers() returns (numbers: seq<nat>)
      ensures forall n :: n in numbers <==> n in table
      ensures forall i, j :: 0 <= i < j < |numbers| ==> numbers[i] != numbers[j]
      ensures |numbers| == |table|
    {
      numbers := [];
      var rest := table.Keys;
      while rest != {}
        invariant rest <= table.Keys
        invariant forall n :: n in numbers <==> n in table && n !in rest
        invariant forall i, j :: 0 <= i < j < |numbers| ==> numbers[i] != numbers[j]
        invariant |numbers| + |rest| == |table|
        decreases |rest|
      {
        var n :| n in rest;
        numbers := numbers + [n];
        rest := rest - {n};
      }
      assert |table| == |table.Keys|;
    }

    /** Installs the positions' descriptions at the lowest free numbers. */
    method InstallAll(positions: seq<Position>) returns (ok: bool, sources: seq<nat>)
      modifies this
      ensures old(refused) ==> refused
      ensures !ok ==> refused
      ensures ok ==> refused == old(refused) && Installed(old(table), table, positions, sources)
    {
      sources := [];
      assert positions[..0] == [];
      for p := 0 to |positions|
        invariant |sources| == p && Installed(old(table), table, positions[..p], sources)
        invariant refused == old(refused)
      {
        InstalledOneMore(old(table), table, positions, p, sources);
        var fd := Install(0, Slot(positions[p].description, true));
        if fd == -1 { return false, []; }
        sources := sources + [fd];
      }
      assert positions[..|positions|] == positions;
      ok := true;
    }

    method CloseAll(numbers: seq<nat>) returns (ok: bool)
      requires forall i, j :: 0 <= i < j < |numbers| ==> numbers[i] != numbers[j]
      requires forall i :: 0 <= i < |numbers| ==> numbers[i] in table
      modifies this
      ensures ok && table == old(table) - Elements(numbers) && refused == old(refused)
    {
      for i := 0 to |numbers|
        invariant table == old(table) - Elements(numbers[..i]) && refused == old(refused)
      {
        var closed := Close(numbers[i]);
        assert Elements(numbers[..i + 1]) == Elements(numbers[..i]) + {numbers[i]};
        if !closed { return false; }
      }
      assert numbers[..|numbers|] == numbers;
      ok := true;
    }

    /** The transfer of descriptions through a socket pair, which takes the two lowest numbers while it lasts. */
    method Receive(positions: seq<Position>) returns (ok: bool, sources: seq<nat>)
      modifies this
      ensures old(refused) ==> refused
      ensures ok ==>
        |positions| <= MAX_POSITIONS && sources == Received(old(table).Keys, |positions|) && refused == old(refused)
      ensures ok ==> table == Delivered(old(table), positions)
      ensures !ok ==> refused || |positions| > MAX_POSITIONS
    {
      if positions == [] {
        assert table == Delivered(table, positions);
        return true, [];
      }
      if |positions| > MAX_POSITIONS { return false, []; }
      var a := Install(0, Slot(0, true));
      if a == -1 { return false, []; }
      assert table.Keys == old(table).Keys + {a as nat};
      var b := Install(0, Slot(0, true));
      if b == -1 { return false, []; }
      assert table == old(table)[a := Slot(0, true)][b := Slot(0, true)];
      assert table.Keys == old(table).Keys + {a as nat, b as nat};
      ok, sources := InstallAll(positions);
      if !ok { return; }
      DeliveredVia(old(table), positions, a, b, table);
      var _ := Close(a);
      var _ := Close(b);
    }
  }

  // ---------------------------------------------------------------- what the transfer yields

  /** The numbers under which `count` descriptions arrive in a table with these numbers taken. */
  function Received(taken: set<nat>, count: nat): (s: seq<nat>)
    ensures |s| == count
  {
    if count == 0 then []
    else
      var a := Free(taken, 0);
      Lowest(taken + {a, Free(taken + {a}, 0)}, count)
  }

  lemma {:induction false} LowestFresh(taken: set<nat>, count: nat)
    ensures forall i :: 0 <= i < count ==> Lowest(taken, count)[i] !in taken
    ensures forall i, j :: 0 <= i < j < count ==> Lowest(taken, count)[i] != Lowest(taken, count)[j]
    decreases count
  {
    if count > 0 {
      LowestFresh(taken, count - 1);
      var s := Lowest(taken, count - 1);
      assert Free(taken + Elements(s), 0) !in s;
    }
  }

  lemma {:induction false} ReceivedFresh(taken: set<nat>, count: nat)
    ensures forall i :: 0 <= i < count ==> Received(taken, count)[i] !in taken
    ensures forall i, j :: 0 <= i < j < count ==> Received(taken, count)[i] != Received(taken, count)[j]
  {
    var a := Free(taken, 0);
    LowestFresh(taken + {a, Free(taken + {a}, 0)}, count);
  }

  function IndexIn(s: seq<nat>, n: nat): (i: nat)
    requires n in s
    ensures i < |s| && s[i] == n
  {
    if s[0] == n then 0 else 1 + IndexIn(s[1..], n)
  }

  /** The table once the positions' descriptions have arrived. */
  function Delivered(before: Table, positions: seq<Position>): Table {
    var sources := Received(before.Keys, |positions|);
    map n | n in before.Keys + Elements(sources) ::
      if n in before then before[n] else Slot(positions[IndexIn(sources, n)].description, true)
  }

  lemma {:induction false} DeliveredIs(before: Table, positions: seq<Position>, t: Table)
    requires var sources := Received(before.Keys, |positions|);
      && t.Keys == before.Keys + Elements(sources)
      && (forall n :: n in before ==> t[n] == before[n])
      && (forall q :: 0 <= q < |positions| ==> sources[q] in t && t[sources[q]] == Slot(positions[q].description, true))
    ensures t == Delivered(before, positions)
  {
    var sources := Received(before.Keys, |positions|);
    forall n | n in t && n !in before ensures t[n] == Delivered(before, positions)[n] {
      assert n in sources && sources[IndexIn(sources, n)] == n;
    }
  }

  lemma {:induction false} DeliveredVia(before: Table, positions: seq<Position>, a: nat, b: nat, t: Table)
    requires positions != [] && a == Free(before.Keys, 0) && b == Free(before.Keys + {a}, 0)
    requires Installed(before[a := Slot(0, true)][b := Slot(0, true)], t, positions,
      Lowest(before.Keys + {a, b}, |positions|))
    ensures t - {a} - {b} == Delivered(before, positions)
    ensures Received(before.Keys, |positions|) == Lowest(before.Keys + {a, b}, |positions|)
  {
    var sources := Lowest(before.Keys + {a, b}, |positions|);
    LowestFresh(before.Keys + {a, b}, |positions|);
    assert forall n :: n in sources ==> n != a && n != b;
    DeliveredIs(before, positions, t - {a} - {b});
  }

  /** What the transfer adds can be taken away again, and each number received names its position's description. */
  lemma {:induction false} DeliveredReads(before: Table, positions: seq<Position>)
    ensures var sources := Received(before.Keys, |positions|); var t := Delivered(before, positions);
      && t - Elements(sources) == before
      && (forall q :: 0 <= q < |positions| ==> sources[q] in t && t[sources[q]] == Slot(positions[q].description, true))
      && (forall i, j :: 0 <= i < j < |sources| ==> sources[i] != sources[j])
      && (forall n :: n in before ==> n in t && t[n] == before[n])
  {
    ReceivedFresh(before.Keys, |positions|);
    var sources := Received(before.Keys, |positions|);
    forall q | 0 <= q < |positions| ensures IndexIn(sources, sources[q]) == q {
    }
  }

  // ---------------------------------------------------------------- the replacement

  function Find(positions: seq<Position>, source: nat): (p: nat)
    ensures p <= |positions|
    ensures p < |positions| ==> positions[p].descriptor == source
    ensures forall q :: 0 <= q < p ==> positions[q].descriptor != source
  {
    if positions == [] || positions[0].descriptor == source then 0 else 1 + Find(positions[1..], source)
  }

  /** What an image's source names: the first position of that number, or else one of the process's own first three
      descriptors, as they are in `table`. */
  function Named(table: Table, positions: seq<Position>, source: nat): Option<nat> {
    var p := Find(positions, source);
    if p < |positions| then Some(positions[p].description)
    else if source < 3 && source in table then Some(table[source].description)
    else None
  }

  predicate AllNamed(table: Table, positions: seq<Position>, entries: seq<Entry>) {
    forall i :: 0 <= i < |entries| ==> Named(table, positions, entries[i].source).Some?
  }

  /** The simultaneous assignment: every entry's descriptor names what its source names in `table`.  Of two entries with
      one number the later counts. */
  function Assigned(table: Table, positions: seq<Position>, entries: seq<Entry>): Table
    requires AllNamed(table, positions, entries)
  {
    if entries == [] then map[]
    else
      var last := entries[|entries| - 1];
      Assigned(table, positions, entries[..|entries| - 1])[
        last.fd := Slot(Named(table, positions, last.source).value, last.cloexec)]
  }

  function Targets(entries: seq<Entry>): set<nat> {
    set i | 0 <= i < |entries| :: entries[i].fd
  }

  /** A number above every descriptor the process has and every one the image wants. */
  method Floor(current: seq<nat>, entries: seq<Entry>) returns (minimum: nat)
    ensures 3 <= minimum && (forall i :: 0 <= i < |current| ==> current[i] < minimum)
    ensures forall i :: 0 <= i < |entries| ==> entries[i].fd < minimum
  {
    minimum := 3;
    for i := 0 to |current|
      invariant 3 <= minimum && forall j :: 0 <= j < i ==> current[j] < minimum
    {
      if current[i] >= minimum { minimum := current[i] + 1; }
    }
    for i := 0 to |entries|
      invariant 3 <= minimum && (forall j :: 0 <= j < |current| ==> current[j] < minimum)
      invariant forall j :: 0 <= j < i ==> entries[j].fd < minimum
    {
      if entries[i].fd >= minimum { minimum := entries[i].fd + 1; }
    }
  }

  /** Duplicates every source to a number of its own, `floor` or above. */
  method PinAll(process: Process, positions: seq<Position>, sources: seq<nat>, entries: seq<Entry>, floor: nat)
    returns (ok: bool, pins: seq<nat>)
    requires |sources| == |positions| && 3 <= floor
    requires forall q :: 0 <= q < |positions| ==>
      sources[q] in process.table && process.table[sources[q]].description == positions[q].description
    modifies process
    ensures old(process.refused) ==> process.refused
    ensures ok ==> AllNamed(old(process.table), positions, entries) && process.refused == old(process.refused)
    ensures ok ==> Pinned(old(process.table), process.table, positions, entries, pins, floor)
    ensures !ok ==> process.refused || !AllNamed(old(process.table), positions, entries)
  {
    var minimum := floor;
    pins := [];
    for i := 0 to |entries|
      invariant |pins| == i && floor <= minimum && (forall j :: 0 <= j < i ==> pins[j] < minimum)
      invariant process.refused == old(process.refused)
      invariant Pinned(old(process.table), process.table, positions, entries[..i], pins, floor)
    {
      ghost var table := process.table;
      var source := entries[i].source;
      var p := Find(positions, source);
      if p < |positions| {
        source := sources[p];
      } else if source >= 3 {
        return false, [];
      }
      assert Named(old(process.table), positions, entries[i].source) ==
             if source in old(process.table) then Some(old(process.table)[source].description) else None;
      var pin := process.DupAbove(source, minimum);
      if pin == -1 { return false, []; }
      assert source in old(process.table) by {
        assert forall n :: n in pins ==> floor <= n;
      }
      PinnedOneMore(old(process.table), table, process.table, positions, entries, i, pins, pin,
                    Slot(table[source].description, true), floor);
      pins := pins + [pin];
      minimum := pin + 1;
    }
    assert entries[..|entries|] == entries;
    ok := true;
  }

  predicate Pins(middle: Table, table: Table, positions: seq<Position>, entry: Entry, pin: nat) {
    pin in table && Named(middle, positions, entry.source) == Some(table[pin].description)
  }

  lemma {:induction false} OnePlaced(middle: Table, table: Table, positions: seq<Position>, entries: seq<Entry>,
                                     i: nat, pin: nat)
    requires AllNamed(middle, positions, entries) && i < |entries|
    requires forall j :: 0 <= j < |entries| ==> entries[j].fd < pin
    requires Pins(middle, table, positions, entries[i], pin)
    ensures var now := table + Assigned(middle, positions, entries[..i]);
      pin in now && now[entries[i].fd := Slot(now[pin].description, entries[i].cloexec)] ==
                    table + Assigned(middle, positions, entries[..i + 1])
  {
    AssignedKeys(middle, positions, entries[..i]);
    assert entries[..i + 1][..i] == entries[..i];
  }

  lemma {:induction false} FinalTable(before: Table, base: Table, wanted: Table, pins: set<nat>)
    requires base.Keys == before.Keys + pins && pins * wanted.Keys == {}
    ensures (base + wanted) - (before.Keys - wanted.Keys) - pins == wanted
  {
    var t := (base + wanted) - (before.Keys - wanted.Keys) - pins;
    forall n | n in wanted ensures n in t && t[n] == wanted[n] {
      assert n !in pins * wanted.Keys;
    }
    assert forall n :: n in t ==> n in wanted;
  }

  lemma {:induction false} PinnedReads(before: Table, middle: Table, table: Table, sources: seq<nat>,
                                       positions: seq<Position>, entries: seq<Entry>, pins: seq<nat>, floor: nat)
    requires Pinned(middle, table, positions, entries, pins, floor)
    requires middle - Elements(sources) == before && (forall n :: n in sources ==> n in middle)
    requires (forall i :: 0 <= i < |entries| ==> entries[i].fd < floor) && (forall n :: n in before ==> n < floor)
    ensures var base := table - Elements(sources);
      && base.Keys == before.Keys + Elements(pins)
      && (forall i :: 0 <= i < |pins| ==> Pins(middle, base, positions, entries[i], pins[i]))
      && (forall i, j :: 0 <= i < |entries| && 0 <= j < |pins| ==> entries[i].fd < pins[j])
      && Elements(pins) * Targets(entries) == {} && Elements(pins) * before.Keys == {}
  {
    assert forall i :: 0 <= i < |pins| ==> pins[i] in pins;
    assert forall n :: n in pins ==> n !in middle;
  }

  /** Puts each entry's description in place.  The pins lie above every target, so no step overwrites one. */
  method PlaceAll(process: Process, ghost middle: Table, ghost positions: seq<Position>, entries: seq<Entry>,
                  pins: seq<nat>)
    returns (ok: bool)
    requires AllNamed(middle, positions, entries) && |pins| == |entries|
    requires forall i, j :: 0 <= i < |entries| && 0 <= j < |pins| ==> entries[i].fd < pins[j]
    requires forall i :: 0 <= i < |pins| ==> Pins(middle, process.table, positions, entries[i], pins[i])
    modifies process
    ensures old(process.refused) ==> process.refused
    ensures ok ==> process.refused == old(process.refused)
    ensures ok ==> process.table == old(process.table) + Assigned(middle, positions, entries)
    ensures !ok ==> process.refused
  {
    for i := 0 to |entries|
      invariant process.refused == old(process.refused)
      invariant process.table == old(process.table) + Assigned(middle, positions, entries[..i])
    {
      OnePlaced(middle, old(process.table), positions, entries, i, pins[i]);
      var placed := process.Dup3(pins[i], entries[i].fd, entries[i].cloexec);
      if !placed { return false; }
    }
    assert entries[..|entries|] == entries;
    ok := true;
  }

  method CloseOthers(process: Process, current: seq<nat>, entries: seq<Entry>) returns (ok: bool)
    requires forall i, j :: 0 <= i < j < |current| ==> current[i] != current[j]
    requires forall i :: 0 <= i < |current| ==> current[i] in process.table
    modifies process
    ensures ok && process.refused == old(process.refused)
    ensures process.table == old(process.table) - (Elements(current) - Targets(entries))
  {
    for i := 0 to |current|
      invariant process.refused == old(process.refused)
      invariant process.table == old(process.table) - (Elements(current[..i]) - Targets(entries))
    {
      assert Elements(current[..i + 1]) == Elements(current[..i]) + {current[i]};
      var next := 0;
      while next < |entries| && entries[next].fd != current[i]
        invariant 0 <= next <= |entries|
        invariant forall k :: 0 <= k < next ==> entries[k].fd != current[i]
      {
        next := next + 1;
      }
      if next == |entries| {
        var closed := process.Close(current[i]);
        if !closed { return false; }
      }
    }
    assert current[..|current|] == current;
    ok := true;
  }

  method Replace(process: Process, current: seq<nat>, positions: seq<Position>, entries: seq<Entry>) returns (ok: bool)
    requires Elements(current) == process.table.Keys
    requires forall i, j :: 0 <= i < j < |current| ==> current[i] != current[j]
    modifies process
    ensures ok ==> var middle := Delivered(old(process.table), positions);
      AllNamed(middle, positions, entries) && process.table == Assigned(middle, positions, entries)
    ensures !ok ==>
      process.refused || |positions| > MAX_POSITIONS ||
        !AllNamed(Delivered(old(process.table), positions), positions, entries)
  {
    ghost var before := process.table;
    ghost var middle := Delivered(before, positions);
    DeliveredReads(before, positions);
    var sources, pins;
    ok, sources := process.Receive(positions);
    if !ok { return; }
    var minimum := Floor(current, entries);
    assert forall n :: n in before ==> n in current && n < minimum;
    ok, pins := PinAll(process, positions, sources, entries, minimum);
    if !ok { return; }
    PinnedReads(before, middle, process.table, sources, positions, entries, pins, minimum);
    ok := process.CloseAll(sources);
    if !ok { return; }
    ok := Rearrange(process, before, middle, current, positions, entries, pins);
  }

  /** The last three rounds: put everything in place, close what the image does not have, and drop the pins. */
  method Rearrange(process: Process, ghost before: Table, ghost middle: Table, current: seq<nat>,
                   ghost positions: seq<Position>, entries: seq<Entry>, pins: seq<nat>) returns (ok: bool)
    requires Elements(current) == before.Keys && process.table.Keys == before.Keys + Elements(pins)
    requires forall i, j :: 0 <= i < j < |current| ==> current[i] != current[j]
    requires AllNamed(middle, positions, entries) && |pins| == |entries|
    requires forall i :: 0 <= i < |pins| ==> Pins(middle, process.table, positions, entries[i], pins[i])
    requires forall i, j :: 0 <= i < |entries| && 0 <= j < |pins| ==> entries[i].fd < pins[j]
    requires forall i, j :: 0 <= i < j < |pins| ==> pins[i] != pins[j]
    requires Elements(pins) * Targets(entries) == {} && Elements(pins) * before.Keys == {}
    modifies process
    ensures old(process.refused) ==> process.refused
    ensures ok ==> process.table == Assigned(middle, positions, entries)
    ensures !ok ==> process.refused
  {
    ghost var base := process.table;
    AssignedKeys(middle, positions, entries);
    FinalTable(before, base, Assigned(middle, positions, entries), Elements(pins));
    ok := PlaceAll(process, middle, positions, entries, pins);
    if !ok { return; }
    assert forall i :: 0 <= i < |current| ==> current[i] in before.Keys;
    ok := CloseOthers(process, current, entries);
    if !ok { return; }
    forall i | 0 <= i < |pins| ensures pins[i] in process.table {
      assert pins[i] in Elements(pins);
      assert pins[i] !in Elements(pins) * before.Keys;
    }
    ok := process.CloseAll(pins);
  }

  /** Replaces the whole table: on success it is the simultaneous assignment the image asks for, read off the table as
      it was when the descriptions had arrived; it fails only for want of resources, or when a source names nothing. */
  method ImageHandles(process: Process, positions: seq<Position>, entries: seq<Entry>) returns (ok: bool)
    requires |entries| <= MAX_HANDLES
    modifies process
    ensures ok ==> var middle := Delivered(old(process.table), positions);
      AllNamed(middle, positions, entries) && process.table == Assigned(middle, positions, entries)
    ensures ok && AllNamed(old(process.table), positions, entries) ==>
      process.table == Assigned(old(process.table), positions, entries)
    ensures !ok ==>
      || process.refused
      || |old(process.table)| > MAX_HANDLES || |positions| > MAX_POSITIONS
      || !AllNamed(Delivered(old(process.table), positions), positions, entries)
  {
    ghost var before := process.table;
    var current := process.Numbers();
    if |current| > MAX_HANDLES { return false; }
    assert forall n :: n in before ==> n in current;
    assert Elements(current) == before.Keys;
    ok := Replace(process, current, positions, entries);
    if ok && AllNamed(before, positions, entries) { SameNames(before, positions, entries); }
  }

  /** The pins name what the entries' sources name; all else is as in `middle`. */
  ghost predicate Pinned(middle: Table, table: Table, positions: seq<Position>, entries: seq<Entry>, pins: seq<nat>,
                         floor: nat) {
    && |pins| == |entries|
    && (forall i :: 0 <= i < |pins| ==> floor <= pins[i] && pins[i] !in middle)
    && (forall i, j :: 0 <= i < j < |pins| ==> pins[i] < pins[j])
    && (forall i :: 0 <= i < |pins| ==> Pins(middle, table, positions, entries[i], pins[i]))
    && table.Keys == middle.Keys + Elements(pins)
    && (forall n :: n in middle ==> table[n] == middle[n])
  }

  lemma {:induction false} PinStays(middle: Table, table: Table, positions: seq<Position>, entry: Entry, kept: nat,
                                    pin: nat, slot: Slot)
    requires Pins(middle, table, positions, entry, kept) && pin !in table
    ensures Pins(middle, table[pin := slot], positions, entry, kept)
  {
    assert table[pin := slot][kept] == table[kept];
  }

  lemma {:induction false} OnePin(middle: Table, table: Table, positions: seq<Position>, entries: seq<Entry>,
                                  i: nat, pins: seq<nat>, pin: nat, slot: Slot, k: nat)
    requires k <= i < |entries| && |pins| == i && pin !in table
    requires forall l :: 0 <= l < i ==> Pins(middle, table, positions, entries[..i][l], pins[l])
    requires Named(middle, positions, entries[i].source) == Some(slot.description)
    ensures Pins(middle, table[pin := slot], positions, entries[..i + 1][k], (pins + [pin])[k])
  {
    if k < i {
      assert Pins(middle, table, positions, entries[..i][k], pins[k]);
      PinStays(middle, table, positions, entries[k], pins[k], pin, slot);
    }
  }

  lemma {:induction false} PinnedOneMore(middle: Table, table: Table, next: Table, positions: seq<Position>,
                                         entries: seq<Entry>, i: nat, pins: seq<nat>, pin: nat, slot: Slot, floor: nat)
    requires i < |entries| && Pinned(middle, table, positions, entries[..i], pins, floor)
    requires floor <= pin && pin !in table && (forall j :: 0 <= j < i ==> pins[j] < pin)
    requires next == table[pin := slot] && Named(middle, positions, entries[i].source) == Some(slot.description)
    ensures Pinned(middle, next, positions, entries[..i + 1], pins + [pin], floor)
  {
    OneMoreElement(pins, pin);
    var more := pins + [pin];
    forall k | 0 <= k < |more| ensures Pins(middle, next, positions, entries[..i + 1][k], more[k]) {
      OnePin(middle, table, positions, entries, i, pins, pin, slot, k);
    }
  }

  // ---------------------------------------------------------------- what the assignment means

  lemma {:induction false} AssignedKeys(table: Table, positions: seq<Position>, entries: seq<Entry>)
    requires AllNamed(table, positions, entries)
    ensures Assigned(table, positions, entries).Keys == Targets(entries)
    decreases |entries|
  {
    if entries != [] {
      var rest := entries[..|entries| - 1];
      AssignedKeys(table, positions, rest);
      assert entries == rest + [entries[|entries| - 1]];
      assert Targets(entries) == Targets(rest) + {entries[|entries| - 1].fd};
    }
  }

  predicate LastOfItsNumber(entries: seq<Entry>, i: nat)
    requires i < |entries|
  {
    forall j :: i < j < |entries| ==> entries[j].fd != entries[i].fd
  }

  lemma {:induction false} AssignedAt(table: Table, positions: seq<Position>, entries: seq<Entry>, i: nat)
    requires AllNamed(table, positions, entries) && i < |entries| && LastOfItsNumber(entries, i)
    ensures var result := Assigned(table, positions, entries);
      entries[i].fd in result &&
      result[entries[i].fd] == Slot(Named(table, positions, entries[i].source).value, entries[i].cloexec)
    decreases |entries|
  {
    var rest := entries[..|entries| - 1];
    if i < |rest| {
      assert LastOfItsNumber(rest, i);
      AssignedAt(table, positions, rest, i);
    }
  }

  lemma {:induction false} SameNames(before: Table, positions: seq<Position>, entries: seq<Entry>)
    requires AllNamed(Delivered(before, positions), positions, entries) && AllNamed(before, positions, entries)
    ensures Assigned(before, positions, entries) == Assigned(Delivered(before, positions), positions, entries)
    decreases |entries|
  {
    if entries != [] {
      SameNames(before, positions, entries[..|entries| - 1]);
      SameName(before, positions, entries[|entries| - 1].source);
    }
  }

  lemma {:induction false} SameName(before: Table, positions: seq<Position>, source: nat)
    requires Named(before, positions, source).Some?
    ensures Named(Delivered(before, positions), positions, source) == Named(before, positions, source)
  {
    DeliveredReads(before, positions);
  }

  // ---------------------------------------------------------------- what is let in

  /** What the process's descriptor `fd` is, as the kernel shows it; `status` gives a description's status flags. */
  predicate Shows(table: Table, status: nat -> nat, fd: nat, flags: nat, cloexec: bool) {
    fd in table && table[fd].cloexec == cloexec && status(table[fd].description) == flags
  }

  /** An entry is let in if it records the state its position will have, or, when it has none, if it is one of the first
      three descriptors, is its own source and is in the process just as recorded. */
  predicate EntryAdmitted(table: Table, status: nat -> nat, positions: seq<Position>, entry: Entry) {
    var p := Find(positions, entry.source);
    if p < |positions| then entry.flags == positions[p].flags && entry.offset == positions[p].offset
    else entry.fd < 3 && entry.source == entry.fd && Shows(table, status, entry.fd, entry.flags, entry.cloexec)
  }

  /** Beyond the first three, the process has nothing but what the positions hold. */
  predicate Known(positions: seq<Position>, n: nat) {
    n < 3 || (Find(positions, n) < |positions| && positions[Find(positions, n)].installed)
  }

  predicate TargetsDiffer(entries: seq<Entry>) {
    forall i, j :: 0 <= i < j < |entries| ==> entries[i].fd != entries[j].fd
  }

  predicate Admitted(table: Table, status: nat -> nat, positions: seq<Position>, entries: seq<Entry>) {
    && |table| <= MAX_HANDLES
    && (forall n :: n in table ==> Known(positions, n))
    && TargetsDiffer(entries)
    && forall i :: 0 <= i < |entries| ==> EntryAdmitted(table, status, positions, entries[i])
  }

  /** What is let in names what it names before and after the transfer alike. */
  lemma {:induction false} AdmittedNames(table: Table, status: nat -> nat, positions: seq<Position>,
                                         entries: seq<Entry>)
    requires Admitted(table, status, positions, entries)
    ensures AllNamed(table, positions, entries) && AllNamed(Delivered(table, positions), positions, entries)
    ensures Assigned(Delivered(table, positions), positions, entries) == Assigned(table, positions, entries)
  {
    forall i | 0 <= i < |entries|
      ensures Named(table, positions, entries[i].source).Some?
      ensures Named(Delivered(table, positions), positions, entries[i].source).Some?
    {
      assert EntryAdmitted(table, status, positions, entries[i]);
      SameName(table, positions, entries[i].source);
    }
    SameNames(table, positions, entries);
  }

  /** The gate before anything is changed. */
  method ImageContext(process: Process, status: nat -> nat, positions: seq<Position>, entries: seq<Entry>)
    returns (valid: bool)
    ensures valid <==> Admitted(process.table, status, positions, entries)
  {
    var current := process.Numbers();
    if |current| > MAX_HANDLES { return false; }
    for i := 0 to |current|
      invariant forall k :: 0 <= k < i ==> Known(positions, current[k])
    {
      if !Known(positions, current[i]) {
        assert current[i] in process.table;
        return false;
      }
    }
    assert forall n :: n in process.table ==> n in current;
    for i := 0 to |entries|
      invariant forall j, k :: 0 <= j < k < i ==> entries[j].fd != entries[k].fd
      invariant forall k :: 0 <= k < i ==> EntryAdmitted(process.table, status, positions, entries[k])
    {
      for previous := 0 to i
        invariant forall j :: 0 <= j < previous ==> entries[j].fd != entries[i].fd
      {
        if entries[previous].fd == entries[i].fd { return false; }
      }
      if !EntryAdmitted(process.table, status, positions, entries[i]) { return false; }
    }
    valid := true;
  }

  /** The entry's number names what its source named before. */
  predicate Becomes(before: Table, after: Table, positions: seq<Position>, entry: Entry) {
    var named := Named(before, positions, entry.source);
    named.Some? && entry.fd in after && after[entry.fd] == Slot(named.value, entry.cloexec)
  }

  /** Gate and replacement together; the process is held from the one to the other.  On success the process has exactly
      the image's descriptors, each naming what its source named on entry; it fails only at the gate, or for want of
      resources. */
  method Adopt(process: Process, status: nat -> nat, positions: seq<Position>, entries: seq<Entry>)
    returns (admitted: bool, ok: bool)
    requires |entries| <= MAX_HANDLES
    modifies process
    ensures admitted <==> Admitted(old(process.table), status, positions, entries)
    ensures !admitted ==> !ok && process.table == old(process.table)
    ensures ok ==> process.table.Keys == Targets(entries)
    ensures ok ==> forall i :: 0 <= i < |entries| ==> Becomes(old(process.table), process.table, positions, entries[i])
    ensures admitted && !ok ==> process.refused || |positions| > MAX_POSITIONS
  {
    ghost var before := process.table;
    ok := false;
    admitted := ImageContext(process, status, positions, entries);
    if !admitted { return; }
    AdmittedNames(before, status, positions, entries);
    ok := ImageHandles(process, positions, entries);
    if ok {
      AssignedKeys(before, positions, entries);
      forall i | 0 <= i < |entries|
        ensures Becomes(before, process.table, positions, entries[i])
      {
        assert LastOfItsNumber(entries, i);
        AssignedAt(before, positions, entries, i);
      }
    }
  }
}

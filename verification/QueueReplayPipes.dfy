/** The slots of a pipe.  Bytes share slots in ways the interpreter does not see, so what it accepts has to fit in any
    arrangement; this module says what reads, writes, splices and tees do to the slots. */
module QueueReplayPipes {
  import opened Basics
  import opened QueueReplay

  predicate SlotOk(x: PipeSlot) {
    0 < |x.data| <= x.used <= PAGE
  }

  predicate SlotsOk(slots: seq<PipeSlot>) {
    forall j :: 0 <= j < |slots| ==> SlotOk(slots[j])
  }

  function Last(slots: seq<PipeSlot>): PipeSlot
    requires slots != []
  {
    slots[|slots| - 1]
  }

  /** The last slot will take every write that is still to come: there is only one page of them. */
  predicate TakesAll(slots: seq<PipeSlot>, produced: nat) {
    slots != [] && Last(slots).merge && Last(slots).used <= produced
  }

  /** Unless it counts as full, there is room for the next write: a free slot, or the page an earlier write began.  A
      pipe counts as full until a page has been read from it, which is what it takes to free its first slot. */
  predicate Room(q: Queue, slots: seq<PipeSlot>, max: nat) {
    || |slots| < max
    || TakesAll(slots, q.produced)
    || (!q.writable && slots != [] && q.consumed + |slots[0].data| <= PAGE)
  }

  lemma {:induction false} AppendPipe(a: seq<PipeSlot>, b: seq<PipeSlot>)
    ensures PipeBytes(a + b) == PipeBytes(a) + PipeBytes(b)
    decreases |a|
  {
    if a == [] {
      assert a + b == b;
    } else {
      AppendPipe(a[1..], b);
      assert (a + b)[1..] == a[1..] + b;
    }
  }

  /** No slot is empty. */
  lemma {:induction false} SlotsAtMostBytes(slots: seq<PipeSlot>)
    requires SlotsOk(slots)
    ensures |slots| <= |PipeBytes(slots)|
    decreases |slots|
  {
    if slots != [] { SlotsAtMostBytes(slots[1..]); }
  }

  /** A read of n bytes: the rest stays, in no more slots; and as long as no slot is freed, the first has lost n bytes
      and the last can be written to as before. */
  lemma {:induction false} DropShape(slots: seq<PipeSlot>, n: nat)
    requires SlotsOk(slots) && n <= |PipeBytes(slots)|
    ensures var left := DropSlots(slots, n);
      && SlotsOk(left) && PipeBytes(left) == PipeBytes(slots)[n..] && |left| <= |slots|
      && (|left| == |slots| && slots != [] ==>
            && |left[0].data| + n == |slots[0].data|
            && Last(left).used == Last(slots).used && Last(left).merge == Last(slots).merge)
    decreases |slots|
  {
    if n > 0 {
      var first, rest := slots[0].data, slots[1..];
      assert PipeBytes(slots) == first + PipeBytes(rest);
      if |first| <= n {
        DropShape(rest, n - |first|);
        assert (first + PipeBytes(rest))[n..] == PipeBytes(rest)[n - |first|..];
      } else {
        var left := [slots[0].(data := first[n..])] + rest;
        assert left[1..] == rest;
        assert (first + PipeBytes(rest))[n..] == first[n..] + PipeBytes(rest);
      }
    }
  }

  /** The slots that carry n bytes elsewhere hold those bytes, and are no more than n. */
  lemma {:induction false} TakeShape(slots: seq<PipeSlot>, n: nat)
    requires SlotsOk(slots) && n <= |PipeBytes(slots)|
    ensures var taken := TakeSlots(slots, n);
      SlotsOk(taken) && PipeBytes(taken) == PipeBytes(slots)[..n] && |taken| <= n
    decreases |slots|
  {
    if n > 0 {
      var first, rest := slots[0].data, slots[1..];
      assert PipeBytes(slots) == first + PipeBytes(rest);
      if |first| <= n {
        TakeShape(rest, n - |first|);
        assert ([slots[0]] + TakeSlots(rest, n - |first|))[1..] == TakeSlots(rest, n - |first|);
        assert (first + PipeBytes(rest))[..n] == first + PipeBytes(rest)[..n - |first|];
      } else {
        assert (first + PipeBytes(rest))[..n] == first[..n];
        assert PipeBytes([PipeSlot(first[..n], PAGE, false)]) == first[..n];
      }
    }
  }

  lemma {:induction false} SameData(a: seq<PipeSlot>, b: seq<PipeSlot>)
    requires |a| == |b| && forall j :: 0 <= j < |a| ==> a[j].data == b[j].data
    ensures PipeBytes(a) == PipeBytes(b)
    decreases |a|
  {
    if a != [] { SameData(a[1..], b[1..]); }
  }

  lemma {:induction false} CopyShape(slots: seq<PipeSlot>, n: nat)
    requires SlotsOk(slots) && n <= |PipeBytes(slots)|
    ensures var copied := CopySlots(slots, n);
      SlotsOk(copied) && PipeBytes(copied) == PipeBytes(slots)[..n] && |copied| <= n
  {
    TakeShape(slots, n);
    SameData(CopySlots(slots, n), TakeSlots(slots, n));
  }

  /** A write of up to a page goes on in the last page or takes one more slot. */
  predicate Grows(slots: seq<PipeSlot>, filled: seq<PipeSlot>, n: nat) {
    && filled != [] && Last(filled).merge
    && if |filled| == |slots| then Last(filled).used == Last(slots).used + n && Last(slots).merge
       else |filled| == |slots| + 1 && Last(filled).used == n
  }

  lemma {:induction false} WriteShape(slots: seq<PipeSlot>, data: seq<byte>)
    requires SlotsOk(slots) && 0 < |data| <= PAGE
    ensures var filled := WriteSlots(slots, data);
      && SlotsOk(filled) && PipeBytes(filled) == PipeBytes(slots) + data && Grows(slots, filled, |data|)
      && (slots != [] && Last(slots).merge && Last(slots).used + |data| <= PAGE ==> |filled| == |slots|)
  {
    var filled, tail := WriteSlots(slots, data), |data| % PAGE;
    assert PipeBytes([PipeSlot(data, |data|, true)]) == data;
    if slots != [] && tail > 0 && Last(slots).merge && Last(slots).used + tail <= PAGE {
      var front, last := slots[..|slots| - 1], Last(slots);
      assert tail == |data| && data[..tail] == data && data[tail..] == [];
      var more := last.(data := last.data + data, used := last.used + tail);
      assert filled == front + [more];
      AppendPipe(front, [more]);
      AppendPipe(front, [last]);
      assert slots == front + [last];
      assert PipeBytes([more]) == last.data + data && PipeBytes([last]) == last.data;
    } else {
      assert Pages(data) == [PipeSlot(data, |data|, true)];
      AppendPipe(slots, Pages(data));
    }
  }

  lemma {:induction false} EmptyWrite(slots: seq<PipeSlot>)
    ensures WriteSlots(slots, []) == slots
  {
    assert slots + [] == slots;
  }

  /** A read keeps room, and makes some of a pipe that counted as full. */
  lemma {:induction false} ReadKeepsRoom(q: Queue, slots: seq<PipeSlot>, max: nat, n: nat)
    requires SlotsOk(slots) && PipeBytes(slots) == q.bytes && n <= |q.bytes| && |slots| <= max
    requires Room(q, slots, max)
    ensures Room(Advance(q, n), DropSlots(slots, n), max)
  {
    DropShape(slots, n);
  }

  /** A write that is not refused fits, and the next one will. */
  lemma {:induction false} WriteFits(q: Queue, slots: seq<PipeSlot>, max: nat, data: seq<byte>)
    requires SlotsOk(slots) && |slots| <= max && Room(q, slots, max)
    requires 0 < |data| && q.produced + |data| <= PAGE && (q.writable || q.consumed >= PAGE)
    ensures var filled := WriteSlots(slots, data);
      |filled| <= max && Room(q.(produced := q.produced + |data|), filled, max)
  {
    WriteShape(slots, data);
    if slots != [] { assert SlotOk(slots[0]) && SlotOk(Last(slots)); }
  }

  /** After bytes that came from another pipe it fits if there are fewer bytes than slots. */
  lemma {:induction false} SparseWriteFits(slots: seq<PipeSlot>, max: nat, data: seq<byte>, produced: nat)
    requires SlotsOk(slots) && |PipeBytes(slots)| < max && 0 < |data| && produced + |data| <= PAGE
    ensures var filled := WriteSlots(slots, data);
      |filled| <= max && (|filled| < max || TakesAll(filled, produced + |data|))
  {
    SlotsAtMostBytes(slots);
    WriteShape(slots, data);
  }

  // ---------------------------------------------------------------- the tightest arrangement

  lemma {:induction false} BytesAtMostPages(slots: seq<PipeSlot>)
    requires SlotsOk(slots)
    ensures |PipeBytes(slots)| <= |slots| * PAGE
    decreases |slots|
  {
    if slots != [] { BytesAtMostPages(slots[1..]); }
  }

  /** What the first of m slots has to hold so that each of the others gets a byte. */
  function Share(total: nat, m: nat): (n: nat)
    requires 0 < m <= total <= m * PAGE
    ensures 0 < n <= PAGE && n <= total && m - 1 <= total - n <= (m - 1) * PAGE
  {
    if total - (m - 1) <= PAGE then total - (m - 1) else PAGE
  }

  /** The bytes in m slots, and no page to go on in. */
  function Tight(bytes: seq<byte>, m: nat): (slots: seq<PipeSlot>)
    requires m <= |bytes| <= m * PAGE
    ensures |slots| == m && SlotsOk(slots) && (m > 0 ==> !Last(slots).merge)
    decreases m
  {
    if m == 0 then []
    else
      var n := Share(|bytes|, m);
      [PipeSlot(bytes[..n], PAGE, false)] + Tight(bytes[n..], m - 1)
  }

  lemma {:induction false} FirstSlot(bytes: seq<byte>, n: nat, rest: seq<PipeSlot>)
    requires n <= |bytes| && PipeBytes(rest) == bytes[n..]
    ensures PipeBytes([PipeSlot(bytes[..n], PAGE, false)] + rest) == bytes
  {
    var slots := [PipeSlot(bytes[..n], PAGE, false)] + rest;
    assert slots[1..] == rest;
    assert bytes[..n] + bytes[n..] == bytes;
  }

  lemma {:induction false} TightHolds(bytes: seq<byte>, m: nat)
    requires m <= |bytes| <= m * PAGE
    ensures PipeBytes(Tight(bytes, m)) == bytes
    decreases m
  {
    if m > 0 {
      var n := Share(|bytes|, m);
      TightHolds(bytes[n..], m - 1);
      FirstSlot(bytes, n, Tight(bytes[n..], m - 1));
    }
  }

  lemma {:induction false} TightGrows(bytes: seq<byte>, m: nat, data: seq<byte>)
    requires m <= |bytes| <= m * PAGE && 0 < |data| <= PAGE
    ensures |WriteSlots(Tight(bytes, m), data)| == m + 1
  {
  }
}

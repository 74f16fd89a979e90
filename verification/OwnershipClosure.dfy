/** Which captured descriptors somebody else can still reach: those another process owns, and those queued as rights in
    one that is reached.  The list of reached descriptors doubles as the worklist. */
module OwnershipClosure {
  /** A captured descriptor: the number of the first descriptor that shares its description, and the rights queued in
      it, message by message. */
  datatype Capture = Capture(first: int, messages: seq<seq<int>>)

  /** Capture `b` is queued as a right in capture `a`. */
  predicate Queued(captures: seq<Capture>, a: nat, b: nat)
    requires a < |captures| && b < |captures|
  {
    exists m, r :: 0 <= m < |captures[a].messages| && 0 <= r < |captures[a].messages[m]| &&
      captures[a].messages[m][r] == captures[b].first
  }

  /** From a descriptor with an owner outside, each queued in the one before. */
  predicate Chain(captures: seq<Capture>, owned: seq<bool>, p: seq<nat>)
    requires |owned| == |captures|
  {
    && p != [] && (forall k :: 0 <= k < |p| ==> p[k] < |captures|) && owned[p[0]]
    && forall k :: 0 < k < |p| ==> Queued(captures, p[k - 1], p[k])
  }

  ghost predicate Reached(captures: seq<Capture>, owned: seq<bool>, i: nat)
    requires |owned| == |captures|
  {
    exists p :: Chain(captures, owned, p) && p[|p| - 1] == i
  }

  predicate Distinct(s: seq<nat>) {
    forall i, j :: 0 <= i < j < |s| ==> s[i] != s[j]
  }

  /** The worklist so far holds exactly the marked captures, each once. */
  ghost predicate Consistent(captures: seq<Capture>, outside: seq<bool>, worklist: seq<nat>) {
    && |outside| == |captures| && Distinct(worklist)
    && (forall k :: 0 <= k < |worklist| ==> worklist[k] < |captures|)
    && forall i :: 0 <= i < |captures| ==> (outside[i] <==> i in worklist)
  }

  lemma {:induction false} DistinctFits(s: seq<nat>, n: nat)
    requires Distinct(s) && forall x :: x in s ==> x < n
    ensures |s| <= n
    decreases n
  {
    if s == [] {
    } else if n > 0 && n - 1 in s {
      var k :| 0 <= k < |s| && s[k] == n - 1;
      var t := s[..k] + s[k + 1..];
      assert forall i :: 0 <= i < |t| ==> t[i] == if i < k then s[i] else s[i + 1];
      forall x | x in t ensures x < n - 1 {
        var i :| 0 <= i < |t| && t[i] == x;
        assert x in s && x != s[k];
      }
      DistinctFits(t, n - 1);
    } else {
      assert s[0] in s;
      DistinctFits(s, n - 1);
    }
  }

  /** Adds the unmarked captures that the right `fd` names. */
  method MarkNamed(captures: seq<Capture>, outside: array<bool>, worklist: array<nat>, before: nat, fd: int)
    returns (count: nat)
    requires worklist.Length == |captures| && before <= worklist.Length
    requires Consistent(captures, outside[..], worklist[..before])
    modifies outside, worklist
    ensures before <= count <= worklist.Length && worklist[..before] == old(worklist[..before])
    ensures Consistent(captures, outside[..], worklist[..count])
    ensures forall i :: 0 <= i < |captures| ==> (outside[i] <==> old(outside[i]) || captures[i].first == fd)
  {
    count := before;
    for other := 0 to |captures|
      invariant before <= count <= worklist.Length && worklist[..before] == old(worklist[..before])
      invariant Consistent(captures, outside[..], worklist[..count])
      invariant forall i :: 0 <= i < |captures| ==>
        (outside[i] <==> old(outside[i]) || (i < other && captures[i].first == fd))
    {
      if !outside[other] && captures[other].first == fd {
        assert other !in worklist[..count];
        DistinctFits(worklist[..count] + [other], |captures|);
        outside[other] := true;
        worklist[count] := other;
        count := count + 1;
        assert worklist[..count] == old(worklist[..before]) + worklist[before..count - 1] + [other];
      }
    }
  }

  predicate Names(messages: seq<seq<int>>, fd: int) {
    exists m, r :: 0 <= m < |messages| && 0 <= r < |messages[m]| && messages[m][r] == fd
  }

  /** Adds everything queued in one capture. */
  method MarkQueued(captures: seq<Capture>, outside: array<bool>, worklist: array<nat>, before: nat,
                    messages: seq<seq<int>>)
    returns (count: nat)
    requires worklist.Length == |captures| && before <= worklist.Length
    requires Consistent(captures, outside[..], worklist[..before])
    modifies outside, worklist
    ensures before <= count <= worklist.Length && worklist[..before] == old(worklist[..before])
    ensures Consistent(captures, outside[..], worklist[..count])
    ensures forall i :: 0 <= i < |captures| ==> (outside[i] <==> old(outside[i]) || Names(messages, captures[i].first))
  {
    count := before;
    for m := 0 to |messages|
      invariant before <= count <= worklist.Length && worklist[..before] == old(worklist[..before])
      invariant Consistent(captures, outside[..], worklist[..count])
      invariant forall i :: 0 <= i < |captures| ==>
        (outside[i] <==> old(outside[i]) || Names(messages[..m], captures[i].first))
    {
      var rights := messages[m];
      for r := 0 to |rights|
        invariant before <= count <= worklist.Length && worklist[..before] == old(worklist[..before])
        invariant Consistent(captures, outside[..], worklist[..count])
        invariant forall i :: 0 <= i < |captures| ==>
          (outside[i] <==>
            old(outside[i]) || Names(messages[..m], captures[i].first) || captures[i].first in rights[..r])
      {
        ghost var held := worklist[..count];
        count := MarkNamed(captures, outside, worklist, count, rights[r]);
        assert worklist[..before] == held[..before];
      }
      assert forall fd :: Names(messages[..m + 1], fd) <==> Names(messages[..m], fd) || fd in rights;
    }
    assert messages[..|messages|] == messages;
  }

  /** Marks what another process owns. */
  method Seed(captures: seq<Capture>, owned: seq<bool>, outside: array<bool>, worklist: array<nat>) returns (count: nat)
    requires |owned| == |captures| == outside.Length == worklist.Length
    requires forall i :: 0 <= i < outside.Length ==> !outside[i]
    modifies outside, worklist
    ensures count <= |captures| && Consistent(captures, outside[..], worklist[..count]) && outside[..] == owned
  {
    count := 0;
    for index := 0 to |captures|
      invariant count <= index && Consistent(captures, outside[..], worklist[..count])
      invariant forall i :: 0 <= i < |captures| ==> (outside[i] <==> i < index && owned[i])
    {
      if owned[index] {
        assert index !in worklist[..count];
        ghost var listed := worklist[..count];
        outside[index] := true;
        worklist[count] := index;
        count := count + 1;
        assert worklist[..count] == listed + [index];
      }
    }
  }

  ghost predicate Sound(captures: seq<Capture>, owned: seq<bool>, outside: seq<bool>)
    requires |owned| == |captures| == |outside|
  {
    forall i: nat :: i < |captures| && outside[i] ==> Reached(captures, owned, i)
  }

  /** Computes the marks: a capture is marked exactly if a chain of queued rights leads to it from an owned one. */
  method Close(captures: seq<Capture>, owned: seq<bool>)
    returns (outside: array<bool>, worklist: array<nat>, count: nat)
    requires |owned| == |captures|
    ensures outside.Length == |captures| && count <= worklist.Length == |captures|
    ensures forall i: nat :: i < |captures| ==> (outside[i] <==> Reached(captures, owned, i))
    ensures Consistent(captures, outside[..], worklist[..count])
  {
    outside := new bool[|captures|](i => false);
    worklist := new nat[|captures|];
    count := Seed(captures, owned, outside, worklist);
    OwnedIsReached(captures, owned);
    var cursor := 0;
    while cursor < count
      invariant cursor <= count <= |captures| && Consistent(captures, outside[..], worklist[..count])
      invariant forall i :: 0 <= i < |captures| && owned[i] ==> outside[i]
      invariant Sound(captures, owned, outside[..])
      invariant Expanded(captures, outside[..], worklist[..cursor])
      decreases |captures| - cursor
    {
      count := Turn(captures, owned, outside, worklist, count, cursor);
      cursor := cursor + 1;
    }
    AllReachedMarked(captures, owned, outside[..], worklist[..count]);
  }

  method Turn(captures: seq<Capture>, ghost owned: seq<bool>, outside: array<bool>, worklist: array<nat>, before: nat,
              cursor: nat)
    returns (count: nat)
    requires |owned| == |captures| == outside.Length == worklist.Length && cursor < before <= |captures|
    requires Consistent(captures, outside[..], worklist[..before]) && Sound(captures, owned, outside[..])
    requires Expanded(captures, outside[..], worklist[..cursor])
    modifies outside, worklist
    ensures before <= count <= |captures| && Consistent(captures, outside[..], worklist[..count])
    ensures Sound(captures, owned, outside[..]) && Expanded(captures, outside[..], worklist[..cursor + 1])
    ensures forall i :: 0 <= i < |captures| && old(outside[i]) ==> outside[i]
  {
    var queue := worklist[cursor];
    assert worklist[..before][cursor] == queue;
    ghost var done, marked, listed := worklist[..cursor], outside[..], worklist[..before];
    count := MarkQueued(captures, outside, worklist, before, captures[queue].messages);
    NewlyReached(captures, owned, marked, outside[..], queue);
    OneMoreExpanded(captures, marked, outside[..], done, queue);
    assert worklist[..cursor + 1] == listed[..cursor + 1] == done + [queue];
  }

  lemma {:induction false} OwnedIsReached(captures: seq<Capture>, owned: seq<bool>)
    requires |owned| == |captures|
    ensures Sound(captures, owned, owned)
  {
    forall i: nat | i < |captures| && owned[i] ensures Reached(captures, owned, i) {
      assert Chain(captures, owned, [i]) && [i][|[i]| - 1] == i;
    }
  }

  predicate Spread(captures: seq<Capture>, outside: seq<bool>, a: nat)
    requires |outside| == |captures| && a < |captures|
  {
    forall b :: 0 <= b < |captures| && Names(captures[a].messages, captures[b].first) ==> outside[b]
  }

  /** Everything queued in these captures is marked. */
  predicate Expanded(captures: seq<Capture>, outside: seq<bool>, worklist: seq<nat>)
    requires |outside| == |captures|
  {
    forall k :: 0 <= k < |worklist| ==> worklist[k] < |captures| && Spread(captures, outside, worklist[k])
  }

  lemma {:induction false} OneMoreExpanded(captures: seq<Capture>, before: seq<bool>, after: seq<bool>,
                                           done: seq<nat>, queue: nat)
    requires |before| == |after| == |captures| && queue < |captures| && Expanded(captures, before, done)
    requires forall i :: 0 <= i < |captures| ==>
      (after[i] <==> before[i] || Names(captures[queue].messages, captures[i].first))
    ensures Expanded(captures, after, done + [queue])
  {
  }

  lemma {:induction false} NewlyReached(captures: seq<Capture>, owned: seq<bool>, before: seq<bool>, after: seq<bool>,
                                        queue: nat)
    requires |owned| == |before| == |after| == |captures| && queue < |captures| && before[queue]
    requires forall i: nat :: i < |captures| && before[i] ==> Reached(captures, owned, i)
    requires forall i :: 0 <= i < |captures| ==>
      (after[i] <==> before[i] || Names(captures[queue].messages, captures[i].first))
    ensures forall i: nat :: i < |captures| && after[i] ==> Reached(captures, owned, i)
  {
    forall i: nat | i < |captures| && after[i] && !before[i] ensures Reached(captures, owned, i) {
      var p :| Chain(captures, owned, p) && p[|p| - 1] == queue;
      assert Queued(captures, queue, i);
      assert Chain(captures, owned, p + [i]) && (p + [i])[|p|] == i;
    }
  }

  lemma {:induction false} ChainMarked(captures: seq<Capture>, owned: seq<bool>, outside: seq<bool>, worklist: seq<nat>,
                                       p: seq<nat>, k: nat)
    requires |owned| == |captures| && Chain(captures, owned, p) && k < |p|
    requires Consistent(captures, outside, worklist) && Expanded(captures, outside, worklist)
    requires forall i :: 0 <= i < |captures| && owned[i] ==> outside[i]
    ensures outside[p[k]]
    decreases k
  {
    if k > 0 {
      ChainMarked(captures, owned, outside, worklist, p, k - 1);
      var w :| 0 <= w < |worklist| && worklist[w] == p[k - 1];
      assert Queued(captures, p[k - 1], p[k]);
      assert Names(captures[worklist[w]].messages, captures[p[k]].first);
    }
  }

  lemma {:induction false} AllReachedMarked(captures: seq<Capture>, owned: seq<bool>, outside: seq<bool>,
                                            worklist: seq<nat>)
    requires |owned| == |captures|
    requires Consistent(captures, outside, worklist) && Expanded(captures, outside, worklist)
    requires forall i :: 0 <= i < |captures| && owned[i] ==> outside[i]
    ensures forall i: nat :: i < |captures| && Reached(captures, owned, i) ==> outside[i]
  {
    forall i: nat | i < |captures| && Reached(captures, owned, i) ensures outside[i] {
      var p :| Chain(captures, owned, p) && p[|p| - 1] == i;
      ChainMarked(captures, owned, outside, worklist, p, |p| - 1);
    }
  }

  /** The marks are the least set that holds what is owned outside and is closed under queued rights. */
  lemma {:induction false} ReachedIsLeast(captures: seq<Capture>, owned: seq<bool>, closed: set<nat>, i: nat)
    requires |owned| == |captures| && i < |captures| && Reached(captures, owned, i)
    requires forall a: nat :: a < |captures| && owned[a] ==> a in closed
    requires forall a: nat, b: nat :: a < |captures| && b < |captures| && a in closed && Queued(captures, a, b) ==>
      b in closed
    ensures i in closed
  {
    var p :| Chain(captures, owned, p) && p[|p| - 1] == i;
    ChainWithin(captures, owned, closed, p, |p| - 1);
  }

  lemma {:induction false} ChainWithin(captures: seq<Capture>, owned: seq<bool>, closed: set<nat>, p: seq<nat>, k: nat)
    requires |owned| == |captures| && Chain(captures, owned, p) && k < |p|
    requires forall a: nat :: a < |captures| && owned[a] ==> a in closed
    requires forall a: nat, b: nat :: a < |captures| && b < |captures| && a in closed && Queued(captures, a, b) ==>
      b in closed
    ensures p[k] in closed
    decreases k
  {
    if k > 0 {
      ChainWithin(captures, owned, closed, p, k - 1);
      assert Queued(captures, p[k - 1], p[k]);
    }
  }
}

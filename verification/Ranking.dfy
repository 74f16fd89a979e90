/** Sorting by a rank that no two items share; the sorted sequence is then determined by its elements. */
module Ranking {
  import opened Basics

  /** Compared field by field. */
  datatype Rank = Rank(first: real, second: real, third: int) {
    predicate Below(other: Rank) {
      || first < other.first
      || (first == other.first && second < other.second)
      || (first == other.first && second == other.second && third < other.third)
    }
  }

  predicate Ranked<T>(list: seq<T>, rank: T -> Rank) {
    forall i, j :: 0 <= i < j < |list| ==> rank(list[i]).Below(rank(list[j]))
  }

  predicate RanksDiffer<T>(list: seq<T>, rank: T -> Rank) {
    forall i, j :: 0 <= i < j < |list| ==> rank(list[i]) != rank(list[j])
  }

  function Inserted<T>(list: seq<T>, x: T, rank: T -> Rank): seq<T> {
    if list == [] || rank(x).Below(rank(list[0])) then [x] + list else [list[0]] + Inserted(list[1..], x, rank)
  }

  function Sorted<T>(list: seq<T>, rank: T -> Rank): seq<T> {
    if list == [] then [] else Inserted(Sorted(list[1..], rank), list[0], rank)
  }

  lemma {:induction false} HeadIsFirst<T>(a: seq<T>, x: T, rank: T -> Rank)
    requires Ranked(a, rank) && x in Elements(a)
    ensures a != [] && (x == a[0] || rank(a[0]).Below(rank(x)))
  {
    var i :| 0 <= i < |a| && a[i] == x;
  }

  lemma {:induction false} TailElements<T>(a: seq<T>, rank: T -> Rank)
    requires Ranked(a, rank) && a != []
    ensures Elements(a[1..]) == Elements(a) - {a[0]}
  {
    assert a == [a[0]] + a[1..];
    assert forall i :: 0 < i < |a| ==> rank(a[0]).Below(rank(a[i]));
  }

  /** There is only one way to rank given elements. */
  lemma {:induction false} RankingIsUnique<T>(a: seq<T>, b: seq<T>, rank: T -> Rank)
    requires Ranked(a, rank) && Ranked(b, rank) && Elements(a) == Elements(b)
    ensures a == b
    decreases |a|
  {
    assert forall i :: 0 <= i < |a| ==> a[i] in Elements(a);
    assert forall i :: 0 <= i < |b| ==> b[i] in Elements(b);
    if a != [] && b != [] {
      HeadIsFirst(a, b[0], rank);
      HeadIsFirst(b, a[0], rank);
      TailElements(a, rank);
      TailElements(b, rank);
      RankingIsUnique(a[1..], b[1..], rank);
    }
  }

  lemma {:induction false} InsertedElements<T>(list: seq<T>, x: T, rank: T -> Rank)
    ensures Elements(Inserted(list, x, rank)) == Elements(list) + {x} && |Inserted(list, x, rank)| == |list| + 1
    decreases |list|
  {
    if list != [] && !rank(x).Below(rank(list[0])) {
      InsertedElements(list[1..], x, rank);
      var rest := Inserted(list[1..], x, rank);
      assert list == [list[0]] + list[1..];
      assert Elements(list) == {list[0]} + Elements(list[1..]);
      assert Elements([list[0]] + rest) == {list[0]} + Elements(rest);
    }
  }

  lemma {:induction false} InsertedRanked<T>(list: seq<T>, x: T, rank: T -> Rank)
    requires Ranked(list, rank) && forall i :: 0 <= i < |list| ==> rank(list[i]) != rank(x)
    ensures Ranked(Inserted(list, x, rank), rank)
    decreases |list|
  {
    if list != [] && !rank(x).Below(rank(list[0])) {
      InsertedRanked(list[1..], x, rank);
      InsertedElements(list[1..], x, rank);
      var rest := Inserted(list[1..], x, rank);
      forall j | 0 <= j < |rest| ensures rank(list[0]).Below(rank(rest[j])) {
        assert rest[j] in Elements(rest);
        if rest[j] in Elements(list[1..]) {
          var h :| 0 <= h < |list[1..]| && list[1..][h] == rest[j];
          assert list[h + 1] == rest[j];
        }
      }
    }
  }

  lemma {:induction false} SortedRanks<T>(list: seq<T>, rank: T -> Rank)
    requires RanksDiffer(list, rank)
    ensures Ranked(Sorted(list, rank), rank) && Elements(Sorted(list, rank)) == Elements(list)
    ensures |Sorted(list, rank)| == |list|
    decreases |list|
  {
    if list != [] {
      var rest := Sorted(list[1..], rank);
      SortedRanks(list[1..], rank);
      assert list == [list[0]] + list[1..];
      forall i | 0 <= i < |rest| ensures rank(rest[i]) != rank(list[0]) {
        assert rest[i] in Elements(rest);
        var j :| 0 <= j < |list[1..]| && list[1..][j] == rest[i];
        assert list[j + 1] == rest[i];
      }
      InsertedRanked(rest, list[0], rank);
      InsertedElements(rest, list[0], rank);
      assert Elements(list) == {list[0]} + Elements(list[1..]);
    }
  }
}

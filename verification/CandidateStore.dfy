/** A store of work and results with several indexes that must agree with the plain list of registrations. */
module CandidateStore {
  import opened Basics
  import opened ActionKeys
  import opened Ranking

  /** The names of the indexes; the kinds never clash. */
  datatype Partition =
    | Pending
    | ExactKey(key: Key)
    | Projection(projector: string, shape: Shape)
    | InputPath(path: string, tree: bool)
    | View(key: Key)

  /** `handle` is the identity of the object, `id` the name it registers under. */
  datatype Entry = Entry(handle: nat, id: string, key: Option<Action>, bytes: nat)

  datatype Evidence = Evidence(hot: bool, insertedAt: int, actorHits: nat, lastActorHitAt: Option<int>)

  /** One registration; `token` is its identity. */
  datatype Record = Record(token: nat, entry: Entry, memberships: set<Partition>, inputs: bool, recency: nat,
                           result: Option<Evidence>)

  /** The registrations of a scope in order of arrival, and for each index the tokens in it. */
  datatype State = State(entries: seq<Record>, partitions: map<Partition, set<nat>>)

  const EMPTY := State([], map[])

  function Partitions(projectors: seq<Projector>, action: Action): set<Partition> {
    set i | 0 <= i < |projectors| && projectors[i].partition(action).Some? ::
      Projection(projectors[i].id, projectors[i].partition(action).value)
  }

  // ---------------------------------------------------------------- the indexes mirror the registrations

  predicate In(s: State, k: Partition, t: nat) {
    k in s.partitions && t in s.partitions[k]
  }

  predicate Listed(entries: seq<Record>, k: Partition, t: nat) {
    exists i :: 0 <= i < |entries| && entries[i].token == t && k in entries[i].memberships
  }

  ghost predicate Mirrors(s: State) {
    && (forall k, t: nat :: In(s, k, t) <==> Listed(s.entries, k, t))
    && forall k :: k in s.partitions ==> s.partitions[k] != {}
  }

  predicate Apart(a: Record, b: Record) {
    a.token != b.token && a.entry.id != b.entry.id && a.recency != b.recency
  }

  predicate Distinct(entries: seq<Record>) {
    forall i, j :: 0 <= i < j < |entries| ==> Apart(entries[i], entries[j])
  }

  predicate Below(entries: seq<Record>, n: nat) {
    forall i :: 0 <= i < |entries| ==> entries[i].token < n && entries[i].recency < n
  }

  ghost predicate ValidState(s: State, n: nat) {
    s.entries != [] && Distinct(s.entries) && Below(s.entries, n) && Mirrors(s)
  }

  /** A registration with a key is in the exact index and in every projection index of that key. */
  predicate Indexed(projectors: seq<Projector>, r: Record) {
    r.entry.key.Some? ==>
      ExactKey(r.entry.key.value.Key()) in r.memberships && Partitions(projectors, r.entry.key.value) <= r.memberships
  }

  predicate AllIndexed(projectors: seq<Projector>, entries: seq<Record>) {
    forall i :: 0 <= i < |entries| ==> Indexed(projectors, entries[i])
  }

  // ---------------------------------------------------------------- changes to one scope

  function Put(entries: seq<Record>, i: nat, r: Record): seq<Record>
    requires i < |entries|
  {
    entries[i := r]
  }

  function Grown(partitions: map<Partition, set<nat>>, keys: set<Partition>, t: nat): map<Partition, set<nat>> {
    map k | k in partitions.Keys + keys ::
      (if k in partitions then partitions[k] else {}) + (if k in keys then {t} else {})
  }

  function Shrunk(partitions: map<Partition, set<nat>>, keys: set<Partition>, t: nat): map<Partition, set<nat>> {
    map k | k in partitions && !(k in keys && partitions[k] <= {t}) ::
      if k in keys then partitions[k] - {t} else partitions[k]
  }

  function Index(s: State, i: nat, keys: set<Partition>): State
    requires i < |s.entries|
  {
    var r := s.entries[i];
    State(Put(s.entries, i, r.(memberships := r.memberships + keys)), Grown(s.partitions, keys, r.token))
  }

  function Unindex(s: State, i: nat, keys: set<Partition>): State
    requires i < |s.entries|
  {
    var r := s.entries[i];
    State(Put(s.entries, i, r.(memberships := r.memberships - keys)), Shrunk(s.partitions, keys, r.token))
  }

  function Append(s: State, r: Record): State {
    State(s.entries + [r], Grown(s.partitions, r.memberships, r.token))
  }

  function Remove(s: State, i: nat): State
    requires i < |s.entries|
  {
    State(s.entries[..i] + s.entries[i + 1..], Shrunk(s.partitions, s.entries[i].memberships, s.entries[i].token))
  }

  lemma {:induction false} DistinctAt(entries: seq<Record>, i: nat, j: nat)
    requires Distinct(entries) && i < |entries| && j < |entries| && i != j
    ensures Apart(entries[i], entries[j])
  {
    assert Apart(entries[if i < j then i else j], entries[if i < j then j else i]);
  }

  lemma {:induction false} Witness(entries: seq<Record>, k: Partition, t: nat) returns (i: nat)
    requires Listed(entries, k, t)
    ensures i < |entries| && entries[i].token == t && k in entries[i].memberships
  {
    i :| 0 <= i < |entries| && entries[i].token == t && k in entries[i].memberships;
  }

  lemma {:induction false} IndexKeepsMirror(s: State, i: nat, keys: set<Partition>)
    requires i < |s.entries| && Distinct(s.entries) && Mirrors(s)
    ensures Mirrors(Index(s, i, keys))
  {
    var u, t := Index(s, i, keys), s.entries[i].token;
    forall k, x: nat | Listed(u.entries, k, x) ensures In(u, k, x) {
      var j := Witness(u.entries, k, x);
      if k !in keys || x != t { assert Listed(s.entries, k, s.entries[j].token); }
    }
    forall k, x: nat | In(u, k, x) ensures Listed(u.entries, k, x) {
      if k in keys && x == t {
        assert u.entries[i].token == x && k in u.entries[i].memberships;
      } else {
        assert In(s, k, x);
        var j := Witness(s.entries, k, x);
        assert u.entries[j].token == x && k in u.entries[j].memberships;
      }
    }
  }

  lemma {:induction false} UnindexKeepsMirror(s: State, i: nat, keys: set<Partition>)
    requires i < |s.entries| && Distinct(s.entries) && Mirrors(s)
    ensures Mirrors(Unindex(s, i, keys))
  {
    var u, t := Unindex(s, i, keys), s.entries[i].token;
    forall k, x: nat | Listed(u.entries, k, x) ensures In(u, k, x) {
      var j := Witness(u.entries, k, x);
      assert Listed(s.entries, k, s.entries[j].token);
      if j != i { DistinctAt(s.entries, i, j); }
    }
    forall k, x: nat | In(u, k, x) ensures Listed(u.entries, k, x) {
      assert In(s, k, x);
      var j := Witness(s.entries, k, x);
      assert u.entries[j].token == x && k in u.entries[j].memberships;
    }
  }

  lemma {:induction false} AppendKeepsMirror(s: State, r: Record)
    requires Mirrors(s) && forall i :: 0 <= i < |s.entries| ==> s.entries[i].token != r.token
    ensures Mirrors(Append(s, r))
  {
    var u, n := Append(s, r), |s.entries|;
    forall k, x: nat | Listed(u.entries, k, x) ensures In(u, k, x) {
      var j := Witness(u.entries, k, x);
      if j < n { assert Listed(s.entries, k, s.entries[j].token); }
    }
    forall k, x: nat | In(u, k, x) ensures Listed(u.entries, k, x) {
      if k in r.memberships && x == r.token {
        assert u.entries[n] == r;
      } else {
        assert In(s, k, x);
        var j := Witness(s.entries, k, x);
        assert u.entries[j] == s.entries[j];
      }
    }
  }

  lemma {:induction false} RemoveKeepsMirror(s: State, i: nat)
    requires i < |s.entries| && Distinct(s.entries) && Mirrors(s)
    ensures Mirrors(Remove(s, i))
  {
    var u, r := Remove(s, i), s.entries[i];
    forall k, x: nat | Listed(u.entries, k, x) ensures In(u, k, x) {
      var j := Witness(u.entries, k, x);
      var h := if j < i then j else j + 1;
      assert u.entries[j] == s.entries[h];
      assert Listed(s.entries, k, s.entries[h].token);
      DistinctAt(s.entries, i, h);
    }
    forall k, x: nat | In(u, k, x) ensures Listed(u.entries, k, x) {
      assert In(s, k, x);
      var h := Witness(s.entries, k, x);
      assert s.entries[h] == u.entries[if h < i then h else h - 1];
    }
  }

  /** The registrations once an entry is registered under its own projections, if its name is free. */
  function Registered(projectors: seq<Projector>, entries: seq<Record>, token: nat, entry: Entry): seq<Record> {
    if PlaceOfId(entries, entry.id) < |entries| then entries
    else entries + [Fresh(token, entry, if entry.key.Some? then Partitions(projectors, entry.key.value) else {})]
  }

  function Fresh(token: nat, entry: Entry, keys: set<Partition>): Record {
    Record(token, entry, {Pending} + (if entry.key.Some? then {ExactKey(entry.key.value.Key())} else {}) + keys, false,
      token, None)
  }

  lemma {:induction false} GrowthKeeps(scopes: map<nat, State>, n: nat)
    requires forall scope :: scope in scopes ==> ValidState(scopes[scope], n)
    ensures forall scope :: scope in scopes ==> ValidState(scopes[scope], n + 1)
  {
  }

  // ---------------------------------------------------------------- lookup

  datatype Found = Found(token: nat, entry: Entry, how: Match, recency: nat)

  /** How one registration answers an action, if it does. */
  function Answer(projectors: seq<Projector>, r: Record, action: Action, coverage: Entry -> bool): Option<Match> {
    if r.entry.key.None? then None else MatchOf(projectors, r.entry.key.value, action, coverage(r.entry))
  }

  function FoundAs(r: Record, how: Match): Found {
    Found(r.token, r.entry, how, r.recency)
  }

  /** What matching every registration finds. */
  function Scan(projectors: seq<Projector>, entries: seq<Record>, action: Action, coverage: Entry -> bool): set<Found> {
    set i | 0 <= i < |entries| && Answer(projectors, entries[i], action, coverage).Some? ::
      FoundAs(entries[i], Answer(projectors, entries[i], action, coverage).value)
  }

  /** The indexes a lookup consults. */
  function Keys(projectors: seq<Projector>, action: Action): set<Partition> {
    {ExactKey(action.Key())} + Partitions(projectors, action)
  }

  predicate Consulted(projectors: seq<Projector>, r: Record, action: Action) {
    r.memberships * Keys(projectors, action) != {}
  }

  /** What matching the registrations in the consulted indexes finds. */
  function Findable(projectors: seq<Projector>, entries: seq<Record>, action: Action,
                    coverage: Entry -> bool): set<Found> {
    set i | 0 <= i < |entries| && Answer(projectors, entries[i], action, coverage).Some? &&
      Consulted(projectors, entries[i], action) ::
      FoundAs(entries[i], Answer(projectors, entries[i], action, coverage).value)
  }

  /** Nearer, or as near and more recently used. */
  predicate Nearer(f: Found, g: Found) {
    f.how.Distance() < g.how.Distance() || (f.how.Distance() == g.how.Distance() && f.recency > g.recency)
  }

  /** Each find is nearer than all behind it, or as near and more recently used. */
  predicate NearestFirst(list: seq<Found>) {
    forall i, j :: 0 <= i < j < |list| ==> Nearer(list[i], list[j])
  }

  lemma {:induction false} RankedNearest(list: seq<Found>)
    requires Ranked(list, LookupRank)
    ensures NearestFirst(list)
  {
    forall i, j | 0 <= i < j < |list| ensures Nearer(list[i], list[j]) {
      assert LookupRank(list[i]).Below(LookupRank(list[j]));
    }
  }

  /** Nearest first, and among equals the most recently used. */
  function LookupRank(f: Found): Rank {
    Rank(f.how.Distance(), 0.0, -(f.recency as int))
  }

  /** Every projector accepts only pairs that share its partition. */
  ghost predicate Lawful(projectors: seq<Projector>) {
    forall j :: 0 <= j < |projectors| ==> Respects(projectors[j])
  }

  /** Any registration that matches an action is in one of the indexes the action leads to. */
  lemma {:induction false} MatchIsIndexed(projectors: seq<Projector>, r: Record, action: Action,
                                          coverage: Entry -> bool)
    requires Indexed(projectors, r)
    requires Lawful(projectors)
    requires Answer(projectors, r, action, coverage).Some?
    ensures Consulted(projectors, r, action)
  {
    var own := r.entry.key.value;
    if own.Key() == action.Key() {
      assert ExactKey(own.Key()) in r.memberships * Keys(projectors, action);
    } else {
      MatchSharesPartition(projectors, |projectors|, own, action, coverage(r.entry));
      var j :| 0 <= j < |projectors| && projectors[j].partition(own).Some? &&
               projectors[j].partition(own) == projectors[j].partition(action);
      var k := Projection(projectors[j].id, projectors[j].partition(own).value);
      assert k in Partitions(projectors, own) && k in Partitions(projectors, action);
      assert k in r.memberships * Keys(projectors, action);
    }
  }

  /** A lookup misses nothing exactly if every registration that matches is in a consulted index. */
  lemma {:induction false} MissesNothingExactly(projectors: seq<Projector>, entries: seq<Record>, action: Action,
                                                coverage: Entry -> bool)
    requires Distinct(entries)
    ensures Findable(projectors, entries, action, coverage) == Scan(projectors, entries, action, coverage) <==>
      forall i :: 0 <= i < |entries| && Answer(projectors, entries[i], action, coverage).Some? ==>
        Consulted(projectors, entries[i], action)
  {
    var findable, scan := Findable(projectors, entries, action, coverage), Scan(projectors, entries, action, coverage);
    if findable == scan {
      forall i | 0 <= i < |entries| && Answer(projectors, entries[i], action, coverage).Some?
        ensures Consulted(projectors, entries[i], action)
      {
        assert FoundAs(entries[i], Answer(projectors, entries[i], action, coverage).value) in scan;
        var j :| 0 <= j < |entries| && Answer(projectors, entries[j], action, coverage).Some? &&
          Consulted(projectors, entries[j], action)
          && FoundAs(entries[j], Answer(projectors, entries[j], action, coverage).value) ==
             FoundAs(entries[i], Answer(projectors, entries[i], action, coverage).value);
        assert i == j;
      }
    }
  }

  lemma {:induction false} CompleteFindsAll(projectors: seq<Projector>, entries: seq<Record>, action: Action,
                                            coverage: Entry -> bool)
    requires AllIndexed(projectors, entries) && Lawful(projectors)
    ensures Findable(projectors, entries, action, coverage) == Scan(projectors, entries, action, coverage)
  {
    forall i | 0 <= i < |entries| && Answer(projectors, entries[i], action, coverage).Some?
      ensures Consulted(projectors, entries[i], action)
    {
      MatchIsIndexed(projectors, entries[i], action, coverage);
    }
  }

  /** The tokens in any of these indexes. */
  function Candidates(s: State, keys: set<Partition>): set<nat> {
    set k, t | k in keys && k in s.partitions && t in s.partitions[k] :: t
  }

  function IndexOf(entries: seq<Record>, token: nat): (i: nat)
    ensures i <= |entries| && (i < |entries| ==> entries[i].token == token)
    ensures forall j :: 0 <= j < i ==> entries[j].token != token
  {
    if entries == [] || entries[0].token == token then 0 else 1 + IndexOf(entries[1..], token)
  }

  lemma {:induction false} CandidateIsListed(s: State, keys: set<Partition>, t: nat)
    requires Mirrors(s) && t in Candidates(s, keys)
    ensures IndexOf(s.entries, t) < |s.entries|
  {
    var k :| k in keys && In(s, k, t);
    assert Listed(s.entries, k, t);
  }

  /** The candidates are the tokens of the registrations in the indexes. */
  lemma {:induction false} CandidateExactly(s: State, keys: set<Partition>, i: nat)
    requires Mirrors(s) && Distinct(s.entries) && i < |s.entries|
    ensures s.entries[i].token in Candidates(s, keys) <==> s.entries[i].memberships * keys != {}
  {
    var r := s.entries[i];
    if r.token in Candidates(s, keys) {
      var k :| k in keys && In(s, k, r.token);
      assert Listed(s.entries, k, r.token);
      var j := Witness(s.entries, k, r.token);
      if i != j { DistinctAt(s.entries, i, j); }
      assert k in r.memberships * keys;
    }
    if r.memberships * keys != {} {
      var k :| k in r.memberships * keys;
      assert Listed(s.entries, k, r.token);
      assert In(s, k, r.token);
    }
  }

  lemma {:induction false} FindsCandidates(projectors: seq<Projector>, s: State, action: Action,
                                           coverage: Entry -> bool, list: seq<Found>)
    requires Mirrors(s) && Distinct(s.entries)
    requires FindsAmong(projectors, s.entries, action, coverage, Candidates(s, Keys(projectors, action)), list)
    ensures Elements(list) == Findable(projectors, s.entries, action, coverage)
  {
    var keys := Keys(projectors, action);
    forall f | f in Elements(list) ensures f in Findable(projectors, s.entries, action, coverage) {
      var i :| 0 <= i < |s.entries| && Answer(projectors, s.entries[i], action, coverage).Some? &&
               f == FoundAs(s.entries[i], Answer(projectors, s.entries[i], action, coverage).value);
      CandidateExactly(s, keys, i);
    }
    forall f | f in Findable(projectors, s.entries, action, coverage) ensures f in Elements(list) {
      var i :| 0 <= i < |s.entries| && Answer(projectors, s.entries[i], action, coverage).Some? &&
               Consulted(projectors, s.entries[i], action) &&
               f == FoundAs(s.entries[i], Answer(projectors, s.entries[i], action, coverage).value);
      CandidateExactly(s, keys, i);
      assert f in Scan(projectors, s.entries, action, coverage);
    }
  }

  /** What matching the registrations with these tokens finds, each once. */
  ghost predicate FindsAmong(projectors: seq<Projector>, entries: seq<Record>, action: Action, coverage: Entry -> bool,
                             seen: set<nat>, list: seq<Found>) {
    && RanksDiffer(list, LookupRank)
    && (forall f :: f in list ==> f in Scan(projectors, entries, action, coverage) && f.token in seen)
    && forall f :: f in Scan(projectors, entries, action, coverage) && f.token in seen ==> f in list
  }

  lemma {:induction false} FindsOneMore(projectors: seq<Projector>, entries: seq<Record>, action: Action,
                                        coverage: Entry -> bool, seen: set<nat>, list: seq<Found>, i: nat)
    requires i < |entries| && Distinct(entries) && entries[i].token !in seen
    requires FindsAmong(projectors, entries, action, coverage, seen, list)
    ensures var how := Answer(projectors, entries[i], action, coverage);
      FindsAmong(projectors, entries, action, coverage, seen + {entries[i].token},
                 if how.Some? then list + [FoundAs(entries[i], how.value)] else list)
  {
    var how := Answer(projectors, entries[i], action, coverage);
    forall f | f in Scan(projectors, entries, action, coverage)
      ensures f.token == entries[i].token ==> how.Some? && f == FoundAs(entries[i], how.value)
      ensures f.token != entries[i].token ==> f.recency != entries[i].recency
    {
      var j :| 0 <= j < |entries| && Answer(projectors, entries[j], action, coverage).Some? &&
               f == FoundAs(entries[j], Answer(projectors, entries[j], action, coverage).value);
      if j != i { DistinctAt(entries, i, j); }
    }
    if how.Some? {
      assert FoundAs(entries[i], how.value) in Scan(projectors, entries, action, coverage);
      assert forall j :: 0 <= j < |list| ==> list[j] in list;
    }
  }

  // ---------------------------------------------------------------- eviction

  function TotalBytes(records: seq<Record>): nat {
    if records == [] then 0 else TotalBytes(records[..|records| - 1]) + records[|records| - 1].entry.bytes
  }

  function HotRank(r: Record): real {
    if r.result.Some? && r.result.value.hot then 1.0 else 0.0
  }

  /** Cold before hot, low scores first, and among equals the order of arrival. */
  function EvictionRank(cached: seq<Record>, score: Record -> real): nat -> Rank {
    (i: nat) => if i < |cached| then Rank(HotRank(cached[i]), score(cached[i]), i) else Rank(0.0, 0.0, i)
  }

  /** The places of the records that may go. */
  function Evictable(cached: seq<Record>, may: Entry -> bool, n: nat): seq<nat>
    requires n <= |cached|
  {
    if n == 0 then []
    else Evictable(cached, may, n - 1) + if may(cached[n - 1].entry) then [n - 1] else []
  }

  lemma {:induction false} EvictablePlaces(cached: seq<Record>, may: Entry -> bool, n: nat)
    requires n <= |cached|
    ensures forall i: nat :: i in Evictable(cached, may, n) <==> i < n && may(cached[i].entry)
    ensures forall i, j :: 0 <= i < j < |Evictable(cached, may, n)| ==>
      Evictable(cached, may, n)[i] < Evictable(cached, may, n)[j]
    decreases n
  {
    if n > 0 {
      EvictablePlaces(cached, may, n - 1);
      var rest := Evictable(cached, may, n - 1);
      assert forall i :: 0 <= i < |rest| ==> rest[i] in rest;
    }
  }

  /** All that may go, in the order in which they go. */
  function EvictionOrder(cached: seq<Record>, may: Entry -> bool, score: Record -> real): seq<nat> {
    Sorted(Evictable(cached, may, |cached|), EvictionRank(cached, score))
  }

  lemma {:induction false} EvictionOrderRanks(cached: seq<Record>, may: Entry -> bool, score: Record -> real)
    ensures var order := EvictionOrder(cached, may, score);
      && Ranked(order, EvictionRank(cached, score))
      && forall i: nat :: i in order <==> i < |cached| && may(cached[i].entry)
  {
    var places, rank := Evictable(cached, may, |cached|), EvictionRank(cached, score);
    EvictablePlaces(cached, may, |cached|);
    assert RanksDiffer(places, rank) by {
      assert forall i :: 0 <= i < |places| ==> places[i] in places;
    }
    SortedRanks(places, rank);
    assert forall i: nat :: i in EvictionOrder(cached, may, score) <==> i in Elements(places);
  }

  /** Which of two results goes first: a cold one before a hot one, then the lower score, then the earlier arrival. */
  predicate GoesFirst(cached: seq<Record>, score: Record -> real, i: nat, j: nat)
    requires i < |cached| && j < |cached|
  {
    var a, b := cached[i], cached[j];
    || (!IsHot(a) && IsHot(b))
    || (IsHot(a) == IsHot(b) && (score(a) < score(b) || (score(a) == score(b) && i < j)))
  }

  /** `gone` may go and goes in order, before all else that may; no fewer meet both budgets; and these do, or nothing
      else may go. */
  ghost predicate Retires(cached: seq<Record>, may: Entry -> bool, score: Record -> real, gone: seq<nat>,
                          maxEntries: nat, maxBytes: nat) {
    && Places(cached, gone)
    && (forall k :: 0 <= k < |gone| ==> may(cached[gone[k]].entry))
    && (forall k, m :: 0 <= k < m < |gone| ==> GoesFirst(cached, score, gone[k], gone[m]))
    && (forall k: nat, p: nat :: k < |gone| && p < |cached| && may(cached[p].entry) && p !in gone ==>
         GoesFirst(cached, score, gone[k], p))
    && (forall k :: 0 <= k < |gone| ==> !FitsWithout(cached, gone, k, maxEntries, maxBytes))
    && (Fits(cached, gone, maxEntries, maxBytes) || NothingElse(cached, may, gone))
  }

  predicate NothingElse(cached: seq<Record>, may: Entry -> bool, gone: seq<nat>) {
    forall p: nat :: p < |cached| && may(cached[p].entry) ==> p in gone
  }

  /** The shortest sufficient prefix of the eviction order is what retires. */
  lemma {:induction false} ShortestRetires(cached: seq<Record>, may: Entry -> bool, score: Record -> real,
                                           gone: seq<nat>, maxEntries: nat, maxBytes: nat)
    requires var order := EvictionOrder(cached, may, score);
      Places(cached, order) && gone <= order && Shortest(cached, order, |gone|, maxEntries, maxBytes)
    ensures Retires(cached, may, score, gone, maxEntries, maxBytes)
  {
    var order := EvictionOrder(cached, may, score);
    EvictionOrderRanks(cached, may, score);
    assert gone == order[..|gone|] && forall k :: 0 <= k < |order| ==> order[k] in order;
    forall k | 0 <= k < |gone| ensures !FitsWithout(cached, gone, k, maxEntries, maxBytes) {
      assert gone[..k] == order[..k] && !FitsWithout(cached, order, k, maxEntries, maxBytes);
    }
    forall k, m | 0 <= k < m < |order| ensures GoesFirst(cached, score, order[k], order[m]) {
      assert EvictionRank(cached, score)(order[k]).Below(EvictionRank(cached, score)(order[m]));
    }
    assert forall m :: 0 <= m < |gone| ==> gone[m] == order[m];
    forall k: nat, p: nat | k < |gone| && p < |cached| && may(cached[p].entry) && p !in gone
      ensures GoesFirst(cached, score, gone[k], p)
    {
      assert p in order;
      var m :| 0 <= m < |order| && order[m] == p;
      assert GoesFirst(cached, score, order[k], order[m]);
    }
  }

  /** That says which go: there is only one such choice. */
  lemma {:induction false} RetiresOne(cached: seq<Record>, may: Entry -> bool, score: Record -> real, a: seq<nat>,
                                      b: seq<nat>, maxEntries: nat, maxBytes: nat)
    requires Retires(cached, may, score, a, maxEntries, maxBytes)
    requires Retires(cached, may, score, b, maxEntries, maxBytes)
    ensures a == b
  {
    if |a| <= |b| {
      RetireAlike(cached, may, score, a, b, maxEntries, maxBytes);
    } else {
      RetireAlike(cached, may, score, b, a, maxEntries, maxBytes);
    }
  }

  lemma {:induction false} RetireAlike(cached: seq<Record>, may: Entry -> bool, score: Record -> real, a: seq<nat>,
                                       b: seq<nat>, maxEntries: nat, maxBytes: nat)
    requires Retires(cached, may, score, a, maxEntries, maxBytes)
    requires Retires(cached, may, score, b, maxEntries, maxBytes)
    requires |a| <= |b|
    ensures a == b
  {
    for k := 0 to |a|
      invariant a[..k] == b[..k]
    {
      SamePlace(cached, may, score, a, b, k, maxEntries, maxBytes);
    }
    assert a[..|a|] == a == b[..|a|];
    if |a| < |b| { NoFewerRetire(cached, may, score, b, |a|, maxEntries, maxBytes); }
  }

  lemma {:induction false} NoFewerRetire(cached: seq<Record>, may: Entry -> bool, score: Record -> real, gone: seq<nat>,
                                         n: nat, maxEntries: nat, maxBytes: nat)
    requires Retires(cached, may, score, gone, maxEntries, maxBytes) && n < |gone|
    ensures !Retires(cached, may, score, gone[..n], maxEntries, maxBytes)
  {
    PlacesDiffer(cached, score, gone);
    assert !FitsWithout(cached, gone, n, maxEntries, maxBytes);
    assert gone[n] < |cached| && may(cached[gone[n]].entry) && gone[n] !in gone[..n];
  }

  lemma {:induction false} SamePlace(cached: seq<Record>, may: Entry -> bool, score: Record -> real, a: seq<nat>,
                                     b: seq<nat>, k: nat, maxEntries: nat, maxBytes: nat)
    requires Retires(cached, may, score, a, maxEntries, maxBytes)
    requires Retires(cached, may, score, b, maxEntries, maxBytes)
    requires k < |a| && k < |b| && a[..k] == b[..k]
    ensures a[..k + 1] == b[..k + 1]
  {
    assert forall i :: 0 <= i < k ==> a[i] == a[..k][i] == b[..k][i] == b[i];
    NotBefore(cached, may, score, a, b, k, maxEntries, maxBytes);
    NotBefore(cached, may, score, b, a, k, maxEntries, maxBytes);
  }

  lemma {:induction false} PlacesDiffer(cached: seq<Record>, score: Record -> real, gone: seq<nat>)
    requires Places(cached, gone)
    requires forall k, m :: 0 <= k < m < |gone| ==> GoesFirst(cached, score, gone[k], gone[m])
    ensures forall k, m :: 0 <= k < m < |gone| ==> gone[k] != gone[m]
  {
    forall k, m | 0 <= k < m < |gone| ensures gone[k] != gone[m] {
      assert GoesFirst(cached, score, gone[k], gone[m]);
    }
  }

  lemma {:induction false} NotBefore(cached: seq<Record>, may: Entry -> bool, score: Record -> real, a: seq<nat>,
                                     b: seq<nat>, k: nat, maxEntries: nat, maxBytes: nat)
    requires Retires(cached, may, score, a, maxEntries, maxBytes)
    requires Retires(cached, may, score, b, maxEntries, maxBytes)
    requires k < |a| && k < |b| && forall i :: 0 <= i < k ==> a[i] == b[i]
    ensures a[k] == b[k] || GoesFirst(cached, score, a[k], b[k])
  {
    PlacesDiffer(cached, score, b);
    if b[k] in a {
      var m :| 0 <= m < |a| && a[m] == b[k];
    }
  }

  predicate Places(cached: seq<Record>, places: seq<nat>) {
    forall i :: 0 <= i < |places| ==> places[i] < |cached|
  }

  /** The bytes of the records at these places. */
  function BytesAt(cached: seq<Record>, places: seq<nat>): nat
    requires Places(cached, places)
  {
    if places == [] then 0
    else
      assert Places(cached, places[..|places| - 1]);
      BytesAt(cached, places[..|places| - 1]) + cached[places[|places| - 1]].entry.bytes
  }

  /** Both budgets are met once these have gone; whatever may not go still counts. */
  predicate Fits(cached: seq<Record>, gone: seq<nat>, maxEntries: nat, maxBytes: nat)
    requires Places(cached, gone)
  {
    |cached| - |gone| <= maxEntries && TotalBytes(cached) - BytesAt(cached, gone) <= maxBytes
  }

  predicate FitsWithout(cached: seq<Record>, order: seq<nat>, n: nat, maxEntries: nat, maxBytes: nat)
    requires Places(cached, order) && n <= |order|
  {
    Fits(cached, order[..n], maxEntries, maxBytes)
  }

  /** `n` is the least length at which a prefix meets both budgets, or the whole length. */
  ghost predicate Shortest(cached: seq<Record>, order: seq<nat>, n: nat, maxEntries: nat, maxBytes: nat)
    requires Places(cached, order)
  {
    && n <= |order|
    && (n == |order| || FitsWithout(cached, order, n, maxEntries, maxBytes))
    && NoneFits(cached, order, n, maxEntries, maxBytes)
  }

  ghost predicate NoneFits(cached: seq<Record>, order: seq<nat>, n: nat, maxEntries: nat, maxBytes: nat)
    requires Places(cached, order) && n <= |order|
  {
    forall k :: 0 <= k < n ==> !FitsWithout(cached, order, k, maxEntries, maxBytes)
  }

  lemma {:induction false} BytesOneMore(cached: seq<Record>, order: seq<nat>, next: nat)
    requires Places(cached, order) && next < |order|
    ensures Places(cached, order[..next]) && Places(cached, order[..next + 1]) && order[next] < |cached|
    ensures BytesAt(cached, order[..next + 1]) == BytesAt(cached, order[..next]) + cached[order[next]].entry.bytes
  {
    assert order[..next + 1][..next] == order[..next];
  }

  lemma {:induction false} FitsByCounters(cached: seq<Record>, order: seq<nat>, n: nat, maxEntries: nat, maxBytes: nat)
    requires Places(cached, order) && n <= |order|
    ensures Places(cached, order[..n])
    ensures FitsWithout(cached, order, n, maxEntries, maxBytes) <==>
      |cached| - n <= maxEntries && TotalBytes(cached) - BytesAt(cached, order[..n]) <= maxBytes
  {
  }

  lemma {:induction false} NoneFitsOneMore(cached: seq<Record>, order: seq<nat>, n: nat, maxEntries: nat,
                                           maxBytes: nat)
    requires Places(cached, order) && n < |order| && NoneFits(cached, order, n, maxEntries, maxBytes)
    requires !FitsWithout(cached, order, n, maxEntries, maxBytes)
    ensures NoneFits(cached, order, n + 1, maxEntries, maxBytes)
  {
  }

  /** Takes the shortest prefix of the eviction order that meets both budgets, or all of it if none does. */
  method RetireExcess(cached: seq<Record>, maxEntries: nat, maxBytes: nat, may: Entry -> bool, score: Record -> real)
    returns (retired: seq<nat>)
    ensures Places(cached, EvictionOrder(cached, may, score))
    ensures retired <= EvictionOrder(cached, may, score)
    ensures Shortest(cached, EvictionOrder(cached, may, score), |retired|, maxEntries, maxBytes)
    ensures Retires(cached, may, score, retired, maxEntries, maxBytes)
  {
    var order := EvictionOrder(cached, may, score);
    EvictionOrderRanks(cached, may, score);
    assert forall k :: 0 <= k < |order| ==> order[k] in order;
    var count, bytes := |cached|, TotalBytes(cached);
    retired := [];
    var next := 0;
    while next < |order| && !(count <= maxEntries && bytes <= maxBytes)
      invariant 0 <= next <= |order| && retired == order[..next]
      invariant count == |cached| - next && bytes == TotalBytes(cached) - BytesAt(cached, order[..next])
      invariant NoneFits(cached, order, next, maxEntries, maxBytes)
    {
      FitsByCounters(cached, order, next, maxEntries, maxBytes);
      NoneFitsOneMore(cached, order, next, maxEntries, maxBytes);
      BytesOneMore(cached, order, next);
      retired := retired + [order[next]];
      count := count - 1;
      bytes := bytes - cached[order[next]].entry.bytes;
      next := next + 1;
    }
    FitsByCounters(cached, order, next, maxEntries, maxBytes);
    ShortestRetires(cached, may, score, retired, maxEntries, maxBytes);
  }

  // ---------------------------------------------------------------- filters over registrations

  function WithoutTokens(entries: seq<Record>, tokens: set<nat>): seq<Record> {
    if entries == [] then []
    else
      var last := entries[|entries| - 1];
      WithoutTokens(entries[..|entries| - 1], tokens) + if last.token in tokens then [] else [last]
  }

  function Cached(entries: seq<Record>): seq<Record> {
    if entries == [] then []
    else
      var last := entries[|entries| - 1];
      Cached(entries[..|entries| - 1]) + if last.result.Some? then [last] else []
  }

  predicate TokensDiffer(entries: seq<Record>) {
    forall i, j :: 0 <= i < j < |entries| ==> entries[i].token != entries[j].token
  }

  lemma {:induction false} WithoutNone(entries: seq<Record>, tokens: set<nat>)
    requires forall i :: 0 <= i < |entries| ==> entries[i].token !in tokens
    ensures WithoutTokens(entries, tokens) == entries
    decreases |entries|
  {
    if entries != [] { WithoutNone(entries[..|entries| - 1], tokens); }
  }

  /** Taking one more registration away takes away its bytes. */
  lemma {:induction false} WithoutOneMore(entries: seq<Record>, tokens: set<nat>, i: nat)
    requires TokensDiffer(entries) && i < |entries| && entries[i].token !in tokens
    ensures var less, more := WithoutTokens(entries, tokens + {entries[i].token}), WithoutTokens(entries, tokens);
      |less| == |more| - 1 && TotalBytes(less) == TotalBytes(more) - entries[i].entry.bytes
    decreases |entries|
  {
    var rest, last := entries[..|entries| - 1], entries[|entries| - 1];
    var fewer := tokens + {entries[i].token};
    WithoutLast(entries, tokens);
    WithoutLast(entries, fewer);
    if i < |rest| {
      assert rest[i] == entries[i] && last.token != entries[i].token;
      WithoutOneMore(rest, tokens, i);
    } else {
      assert forall j :: 0 <= j < |rest| ==> rest[j] == entries[j];
      WithoutSame(rest, tokens, fewer);
    }
  }

  lemma {:induction false} WithoutLast(entries: seq<Record>, tokens: set<nat>)
    requires entries != []
    ensures var all, most, last := WithoutTokens(entries, tokens), WithoutTokens(entries[..|entries| - 1], tokens),
      entries[|entries| - 1];
      && (last.token in tokens ==> all == most)
      && (last.token !in tokens ==> |all| == |most| + 1 && TotalBytes(all) == TotalBytes(most) + last.entry.bytes)
  {
    var most := WithoutTokens(entries[..|entries| - 1], tokens);
    assert most + [] == most;
    BytesAppend(most, entries[|entries| - 1]);
  }

  lemma {:induction false} BytesAppend(entries: seq<Record>, r: Record)
    ensures TotalBytes(entries + [r]) == TotalBytes(entries) + r.entry.bytes
  {
    assert (entries + [r])[..|entries|] == entries;
  }

  lemma {:induction false} WithoutSame(entries: seq<Record>, a: set<nat>, b: set<nat>)
    requires forall i :: 0 <= i < |entries| ==> (entries[i].token in a <==> entries[i].token in b)
    ensures WithoutTokens(entries, a) == WithoutTokens(entries, b)
    decreases |entries|
  {
    if entries != [] { WithoutSame(entries[..|entries| - 1], a, b); }
  }

  lemma {:induction false} WithoutTwice(entries: seq<Record>, a: set<nat>, b: set<nat>)
    ensures WithoutTokens(WithoutTokens(entries, a), b) == WithoutTokens(entries, a + b)
    decreases |entries|
  {
    if entries != [] {
      var rest, last := entries[..|entries| - 1], entries[|entries| - 1];
      WithoutTwice(rest, a, b);
      var kept := WithoutTokens(rest, a);
      assert kept + [] == kept && (kept + [last])[..|kept|] == kept;
    }
  }

  lemma {:induction false} CachedWithout(entries: seq<Record>, tokens: set<nat>)
    ensures Cached(WithoutTokens(entries, tokens)) == WithoutTokens(Cached(entries), tokens)
    decreases |entries|
  {
    if entries != [] {
      var rest, last := entries[..|entries| - 1], entries[|entries| - 1];
      CachedWithout(rest, tokens);
      var kept, held := WithoutTokens(rest, tokens), Cached(rest);
      assert kept + [] == kept && (kept + [last])[..|kept|] == kept;
      assert held + [] == held && (held + [last])[..|held|] == held;
    }
  }

  /** Each cached record is a registration, and they stay apart. */
  lemma {:induction false} CachedAreListed(entries: seq<Record>)
    requires Distinct(entries)
    ensures Distinct(Cached(entries))
    ensures forall r :: r in Cached(entries) <==> r in entries && r.result.Some?
    decreases |entries|
  {
    if entries != [] {
      var rest, last := entries[..|entries| - 1], entries[|entries| - 1];
      CachedAreListed(rest);
      var held := Cached(rest);
      assert entries == rest + [last];
      forall i | 0 <= i < |held| ensures Apart(held[i], last) {
        assert held[i] in held;
        var j :| 0 <= j < |rest| && rest[j] == held[i];
        assert Apart(entries[j], entries[|rest|]);
      }
    }
  }

  function TokensAt(cached: seq<Record>, places: seq<nat>): set<nat>
    requires Places(cached, places)
  {
    set k | 0 <= k < |places| :: cached[places[k]].token
  }

  /** What is left after the records at some places have gone: so many fewer, and so many bytes fewer. */
  lemma {:induction false} LeftOver(cached: seq<Record>, places: seq<nat>)
    requires Distinct(cached) && Places(cached, places) && forall i, j :: 0 <= i < j < |places| ==>
      places[i] != places[j]
    ensures var left := WithoutTokens(cached, TokensAt(cached, places));
      |left| == |cached| - |places| && TotalBytes(left) == TotalBytes(cached) - BytesAt(cached, places)
    decreases |places|
  {
    if places == [] {
      assert TokensAt(cached, places) == {};
      WithoutNone(cached, {});
    } else {
      var rest, last := places[..|places| - 1], places[|places| - 1];
      LeftOver(cached, rest);
      TokensOneMore(cached, rest, last);
      assert places == rest + [last];
      WithoutOneMore(cached, TokensAt(cached, rest), last);
    }
  }

  lemma {:induction false} TokensOneMore(cached: seq<Record>, places: seq<nat>, last: nat)
    requires Distinct(cached) && Places(cached, places) && last < |cached|
    requires forall i :: 0 <= i < |places| ==> places[i] != last
    ensures Places(cached, places + [last])
    ensures TokensAt(cached, places + [last]) == TokensAt(cached, places) + {cached[last].token}
    ensures cached[last].token !in TokensAt(cached, places) && TokensDiffer(cached)
  {
    var more := places + [last];
    assert more[|places|] == last && forall k :: 0 <= k < |places| ==> more[k] == places[k];
    forall t | t in TokensAt(cached, places) + {cached[last].token} ensures t in TokensAt(cached, more) {
      if t == cached[last].token {
        assert cached[more[|places|]].token == t;
      } else {
        var k :| 0 <= k < |places| && cached[places[k]].token == t;
        assert cached[more[k]].token == t;
      }
    }
    forall k | 0 <= k < |places| ensures cached[places[k]].token != cached[last].token {
      DistinctAt(cached, places[k], last);
    }
    assert forall i, j :: 0 <= i < j < |cached| ==> Apart(cached[i], cached[j]);
  }

  /** The place of the registration of this very entry, if it has one. */
  function PlaceOf(entries: seq<Record>, entry: Entry): (i: nat)
    ensures i <= |entries| && (i < |entries| ==> entries[i].entry == entry)
    ensures i == |entries| ==> forall j :: 0 <= j < |entries| ==> entries[j].entry != entry
  {
    if entries == [] || entries[0].entry == entry then 0 else 1 + PlaceOf(entries[1..], entry)
  }

  function PlaceOfId(entries: seq<Record>, id: string): (i: nat)
    ensures i <= |entries| && (i < |entries| ==> entries[i].entry.id == id)
    ensures i == |entries| ==> forall j :: 0 <= j < |entries| ==> entries[j].entry.id != id
  {
    if entries == [] || entries[0].entry.id == id then 0 else 1 + PlaceOfId(entries[1..], id)
  }

  lemma {:induction false} EditKeepsMirror(s: State, i: nat, r: Record)
    requires i < |s.entries| && Mirrors(s) && r.token == s.entries[i].token && r.memberships == s.entries[i].memberships
    ensures Mirrors(s.(entries := s.entries[i := r]))
  {
    var u := s.(entries := s.entries[i := r]);
    forall k, x: nat | Listed(u.entries, k, x) ensures In(u, k, x) {
      var j := Witness(u.entries, k, x);
      assert Listed(s.entries, k, s.entries[j].token);
    }
    forall k, x: nat | In(u, k, x) ensures Listed(u.entries, k, x) {
      assert In(s, k, x);
      var j := Witness(s.entries, k, x);
      assert u.entries[j].token == x && k in u.entries[j].memberships;
    }
  }

  /** A record may be put in another's place if it keeps its names; its recency may be a fresh one. */
  lemma {:induction false} PutKeepsDistinct(entries: seq<Record>, i: nat, r: Record, n: nat)
    requires i < |entries| && Distinct(entries) && Below(entries, n)
    requires r.token == entries[i].token && r.entry.id == entries[i].entry.id
    requires r.recency == entries[i].recency || r.recency == n
    ensures Distinct(entries[i := r]) && Below(entries[i := r], n + 1)
    ensures r.recency != n ==> Below(entries[i := r], n)
  {
    var u := entries[i := r];
    forall x, y | 0 <= x < y < |u| ensures Apart(u[x], u[y]) {
      DistinctAt(entries, x, y);
      assert entries[x].recency < n && entries[y].recency < n;
    }
  }

  lemma {:induction false} AppendKeepsDistinct(entries: seq<Record>, r: Record, n: nat)
    requires Distinct(entries) && Below(entries, n) && r.token == n && r.recency == n
    requires PlaceOfId(entries, r.entry.id) == |entries|
    ensures Distinct(entries + [r]) && Below(entries + [r], n + 1)
  {
    var u := entries + [r];
    forall x, y | 0 <= x < y < |u| ensures Apart(u[x], u[y]) {
      if y < |entries| { DistinctAt(entries, x, y); }
    }
  }

  lemma {:induction false} RemoveKeepsDistinct(entries: seq<Record>, i: nat, n: nat)
    requires i < |entries| && Distinct(entries) && Below(entries, n)
    ensures Distinct(entries[..i] + entries[i + 1..]) && Below(entries[..i] + entries[i + 1..], n)
    ensures entries[..i] + entries[i + 1..] == WithoutTokens(entries, {entries[i].token})
  {
    var u := entries[..i] + entries[i + 1..];
    forall x, y | 0 <= x < y < |u| ensures Apart(u[x], u[y]) {
      DistinctAt(entries, if x < i then x else x + 1, if y < i then y else y + 1);
    }
    RemoveIsWithout(entries, i);
  }

  lemma {:induction false} RemoveIsWithout(entries: seq<Record>, i: nat)
    requires i < |entries| && Distinct(entries)
    ensures entries[..i] + entries[i + 1..] == WithoutTokens(entries, {entries[i].token})
    decreases |entries|
  {
    var rest, last := entries[..|entries| - 1], entries[|entries| - 1];
    forall j | 0 <= j < |entries| && j != i ensures entries[j].token != entries[i].token {
      DistinctAt(entries, i, j);
    }
    if i < |rest| {
      RemoveIsWithout(rest, i);
      assert rest[i] == entries[i] && last.token != entries[i].token;
      assert rest[..i] == entries[..i] && entries[i + 1..] == rest[i + 1..] + [last];
    } else {
      WithoutNone(rest, {last.token});
      assert entries[i + 1..] == [];
    }
  }

  /** A result is recorded once; the inputs are indexed once. */
  function Settled(was: Record, lends: bool, shared: bool, inputs: set<Partition>, now: int): Record {
    var takes := shared && !was.inputs && lends;
    was.(memberships := was.memberships - {Pending} + (if takes then inputs else {}), inputs := was.inputs || takes,
         result := if was.result.None? then Some(Evidence(false, now, 0, None)) else was.result)
  }

  /** Settling again, in whatever way, keeps the evidence there is and never indexes inputs a second time; only the
      pending index is left, and other indexes only joined. */
  lemma {:induction false} SettleAgain(was: Record, lends: bool, shared: bool, inputs: set<Partition>, now: int)
    requires Pending !in inputs
    ensures var r := Settled(was, lends, shared, inputs, now);
      && r == was.(memberships := r.memberships, inputs := r.inputs, result := r.result)
      && r.result == Some(if was.result.Some? then was.result.value else Evidence(false, now, 0, None))
      && Pending !in r.memberships && was.memberships - {Pending} <= r.memberships
      && (r.inputs <==> was.inputs || (lends && shared))
      && (r.inputs && !was.inputs ==> inputs <= r.memberships)
      && (r.inputs == was.inputs ==> r.memberships == was.memberships - {Pending})
    ensures Settled(Settled(was, lends, shared, inputs, now), lends, shared, inputs, now) ==
      Settled(was, lends, shared, inputs, now)
  {
    var r := Settled(was, lends, shared, inputs, now);
    assert r.memberships - {Pending} == r.memberships;
  }

  lemma {:induction false} WithoutElements(entries: seq<Record>, tokens: set<nat>)
    ensures forall r :: r in WithoutTokens(entries, tokens) <==> r in entries && r.token !in tokens
    decreases |entries|
  {
    if entries != [] {
      WithoutElements(entries[..|entries| - 1], tokens);
      assert entries == entries[..|entries| - 1] + [entries[|entries| - 1]];
    }
  }

  lemma {:induction false} WithoutKeepsIndexed(projectors: seq<Projector>, entries: seq<Record>, tokens: set<nat>)
    requires AllIndexed(projectors, entries)
    ensures AllIndexed(projectors, WithoutTokens(entries, tokens))
  {
    WithoutElements(entries, tokens);
    var left := WithoutTokens(entries, tokens);
    assert forall i :: 0 <= i < |left| ==> left[i] in left;
  }

  predicate IsHot(r: Record) {
    r.result.Some? && r.result.value.hot
  }

  function Hot(entries: seq<Record>): seq<Record> {
    if entries == [] then []
    else
      var last := entries[|entries| - 1];
      Hot(entries[..|entries| - 1]) + if IsHot(last) then [last] else []
  }

  lemma {:induction false} HotAreListed(entries: seq<Record>)
    requires Distinct(entries)
    ensures Distinct(Hot(entries))
    ensures forall r :: r in Hot(entries) <==> r in entries && IsHot(r)
    decreases |entries|
  {
    if entries != [] {
      var rest, last := entries[..|entries| - 1], entries[|entries| - 1];
      HotAreListed(rest);
      var hot := Hot(rest);
      assert entries == rest + [last];
      forall i | 0 <= i < |hot| ensures Apart(hot[i], last) {
        assert hot[i] in hot;
        var j :| 0 <= j < |rest| && rest[j] == hot[i];
        assert Apart(entries[j], entries[|rest|]);
      }
    }
  }

  function Cooled(r: Record): Record {
    if r.result.Some? then r.(result := Some(r.result.value.(hot := false))) else r
  }

  /** The registrations with these tokens go back to the cold segment. */
  function Chilled(entries: seq<Record>, tokens: set<nat>): seq<Record> {
    seq(|entries|, i requires 0 <= i < |entries| => if entries[i].token in tokens then Cooled(entries[i])
      else entries[i])
  }

  lemma {:induction false} HotChilled(entries: seq<Record>, tokens: set<nat>)
    ensures Hot(Chilled(entries, tokens)) == WithoutTokens(Hot(entries), tokens)
    decreases |entries|
  {
    if entries != [] {
      var rest, last := entries[..|entries| - 1], entries[|entries| - 1];
      HotChilled(rest, tokens);
      var chilled, hot := Chilled(entries, tokens), Hot(rest);
      assert chilled[..|rest|] == Chilled(rest, tokens);
      assert hot + [] == hot && (hot + [last])[..|hot|] == hot;
    }
  }

  function AnyEntry(): Entry -> bool {
    (e: Entry) => true
  }

  /** The share of a budget that the hot segment may take. */
  function Fraction(share: Option<real>): real {
    match share
    case None => 0.8
    case Some(f) => if f < 0.0 then 0.0 else if f > 1.0 then 1.0 else f
  }

  function HotEntries(maxEntries: nat, share: Option<real>): nat {
    if maxEntries == 0 || Fraction(share) == 0.0 then 0
    else
      var n := (maxEntries as real * Fraction(share)).Floor;
      if n < 1 then 1 else n
  }

  function HotBytes(maxBytes: nat, share: Option<real>): nat {
    var n := (maxBytes as real * Fraction(share)).Floor;
    if n < 0 then 0 else n
  }

  /** The hot segment gets eight tenths unless another share, between none and all, is set. */
  lemma {:induction false} FractionExactly(share: Option<real>)
    ensures var f := Fraction(share);
      && 0.0 <= f <= 1.0 && (share.None? ==> f == 0.8)
      && (share.Some? ==> f == share.value || (f == 0.0 && share.value < 0.0) || (f == 1.0 && share.value > 1.0))
  {
  }

  lemma {:induction false} ShareBounds(m: real, f: real) returns (x: real)
    requires 0.0 <= m && 0.0 <= f <= 1.0
    ensures x == m * f && 0.0 <= x <= m && (m == 0.0 || f == 0.0 ==> x == 0.0)
  {
    x := m * f;
    assert m * (1.0 - f) >= 0.0;
  }

  lemma {:induction false} ShareFloor(max: nat, f: real)
    requires 0.0 <= f <= 1.0
    ensures var x := max as real * f; 0 <= x.Floor <= max && x.Floor as real <= x < x.Floor as real + 1.0
    ensures max == 0 || f == 0.0 ==> max as real * f == 0.0
  {
    var m := max as real;
    var x := ShareBounds(m, f);
    assert x == max as real * f;
    FloorBounds(x, max);
  }

  lemma {:induction false} FloorBounds(x: real, max: nat)
    requires 0.0 <= x <= max as real
    ensures 0 <= x.Floor <= max && x.Floor as real <= x < x.Floor as real + 1.0
  {
  }

  /** Of the entries it gets its share, rounded down, but at least one if it gets any share of any. */
  lemma {:induction false} HotEntriesExactly(maxEntries: nat, share: Option<real>)
    ensures var x, n := maxEntries as real * Fraction(share), HotEntries(maxEntries, share);
      && n <= maxEntries && (n == 0 <==> maxEntries == 0 || Fraction(share) == 0.0)
      && (n > 1 ==> n as real <= x) && x < n as real + 1.0
  {
    FractionExactly(share);
    ShareFloor(maxEntries, Fraction(share));
  }

  /** Of the bytes it gets its share, rounded down. */
  lemma {:induction false} HotBytesExactly(maxBytes: nat, share: Option<real>)
    ensures var x, n := maxBytes as real * Fraction(share), HotBytes(maxBytes, share);
      n <= maxBytes && n as real <= x < n as real + 1.0
  {
    FractionExactly(share);
    ShareFloor(maxBytes, Fraction(share));
  }

  /** If everything may go, the budgets are met in the end. */
  lemma {:induction false} EverythingMayGo(cached: seq<Record>, score: Record -> real, n: nat, maxEntries: nat,
                                           maxBytes: nat)
    requires Distinct(cached)
    requires var order := EvictionOrder(cached, AnyEntry(), score);
      Places(cached, order) && Shortest(cached, order, n, maxEntries, maxBytes)
    ensures Fits(cached, EvictionOrder(cached, AnyEntry(), score)[..n], maxEntries, maxBytes)
  {
    var order := EvictionOrder(cached, AnyEntry(), score);
    EvictionOrderRanks(cached, AnyEntry(), score);
    if n == |order| {
      assert order[..n] == order;
      RankedPlacesDiffer(cached, score, order);
      LeftOver(cached, order);
      EvictableAll(cached, |cached|);
      SortedCount(cached, score);
      assert WithoutTokens(cached, TokensAt(cached, order)) == [];
    }
  }

  lemma {:induction false} EvictableAll(cached: seq<Record>, n: nat)
    requires n <= |cached|
    ensures |Evictable(cached, AnyEntry(), n)| == n
    decreases n
  {
    if n > 0 { EvictableAll(cached, n - 1); }
  }

  lemma {:induction false} SortedCount(cached: seq<Record>, score: Record -> real)
    ensures |EvictionOrder(cached, AnyEntry(), score)| == |Evictable(cached, AnyEntry(), |cached|)|
  {
    var places, rank := Evictable(cached, AnyEntry(), |cached|), EvictionRank(cached, score);
    EvictablePlaces(cached, AnyEntry(), |cached|);
    assert forall i :: 0 <= i < |places| ==> places[i] in places;
    SortedRanks(places, rank);
  }

  lemma {:induction false} RankedPlacesDiffer(cached: seq<Record>, score: Record -> real, order: seq<nat>)
    requires Ranked(order, EvictionRank(cached, score))
    ensures forall i, j :: 0 <= i < j < |order| ==> order[i] != order[j]
  {
    forall i, j | 0 <= i < j < |order| ensures order[i] != order[j] {
      assert EvictionRank(cached, score)(order[i]).Below(EvictionRank(cached, score)(order[j]));
    }
  }

  /** `gone` is the shortest prefix of the eviction order that meets both budgets, when everything may go. */
  ghost predicate Excess(hot: seq<Record>, gone: seq<nat>, maxEntries: nat, maxBytes: nat, score: Record -> real) {
    var order := EvictionOrder(hot, AnyEntry(), score);
    Places(hot, order) && gone <= order && Shortest(hot, order, |gone|, maxEntries, maxBytes)
  }

  /** Everything hot may go, so what is left of it meets both budgets. */
  method RetireHot(hot: seq<Record>, maxEntries: nat, maxBytes: nat, score: Record -> real) returns (gone: seq<nat>)
    requires Distinct(hot)
    ensures Excess(hot, gone, maxEntries, maxBytes, score)
    ensures Retires(hot, AnyEntry(), score, gone, maxEntries, maxBytes)
    ensures Places(hot, gone) && forall i, j :: 0 <= i < j < |gone| ==> gone[i] != gone[j]
    ensures var left := WithoutTokens(hot, TokensAt(hot, gone)); |left| <= maxEntries && TotalBytes(left) <= maxBytes
  {
    gone := RetireExcess(hot, maxEntries, maxBytes, AnyEntry(), score);
    EvictionOrderRanks(hot, AnyEntry(), score);
    RankedPlacesDiffer(hot, score, EvictionOrder(hot, AnyEntry(), score));
    EverythingMayGo(hot, score, |gone|, maxEntries, maxBytes);
    assert gone == EvictionOrder(hot, AnyEntry(), score)[..|gone|];
    LeftOver(hot, gone);
  }

  function Hit(was: Record, n: nat, now: int): Record {
    if was.result.None? then was
    else was.(recency := n,
      result := Some(was.result.value.(hot := true, actorHits := was.result.value.actorHits + 1,
        lastActorHitAt := Some(now))))
  }

  /** A hit makes a result hot and the most recent, counts once and is remembered; all else stays. */
  lemma {:induction false} HitWarms(entries: seq<Record>, i: nat, n: nat, now: int)
    requires i < |entries| && Below(entries, n) && entries[i].result.Some?
    ensures var was, hit := entries[i], Hit(entries[i], n, now);
      && hit == was.(recency := hit.recency, result := hit.result)
      && IsHot(hit) && hit.result.value.insertedAt == was.result.value.insertedAt
      && hit.result.value.actorHits == was.result.value.actorHits + 1 && hit.result.value.lastActorHitAt == Some(now)
      && forall j :: 0 <= j < |entries| ==> entries[j].recency < hit.recency
  {
  }

  lemma {:induction false} HitStaysIndexed(projectors: seq<Projector>, entries: seq<Record>, i: nat, n: nat, now: int)
    requires i < |entries|
    ensures AllIndexed(projectors, entries) ==> AllIndexed(projectors, entries[i := Hit(entries[i], n, now)])
  {
    var hit := Hit(entries[i], n, now);
    assert hit.memberships == entries[i].memberships && hit.entry == entries[i].entry;
  }

  lemma {:induction false} TokensPrefix(cached: seq<Record>, gone: seq<nat>, k: nat)
    requires Distinct(cached) && Places(cached, gone) && k < |gone|
    requires forall i, j :: 0 <= i < j < |gone| ==> gone[i] != gone[j]
    ensures TokensAt(cached, gone[..k + 1]) == TokensAt(cached, gone[..k]) + {cached[gone[k]].token}
    ensures cached[gone[k]].token !in TokensAt(cached, gone[..k])
  {
    assert gone[..k + 1] == gone[..k] + [gone[k]];
    TokensOneMore(cached, gone[..k], gone[k]);
  }

  /** The next record to be evicted is still registered, and its eviction takes away just it. */
  lemma {:induction false} EvictedOneMore(entries: seq<Record>, cached: seq<Record>, gone: seq<nat>, k: nat)
    requires Distinct(entries) && cached == Cached(entries) && Places(cached, gone) && k < |gone|
    requires forall i, j :: 0 <= i < j < |gone| ==> gone[i] != gone[j]
    ensures var left := WithoutTokens(entries, TokensAt(cached, gone[..k]));
      var at := PlaceOf(left, cached[gone[k]].entry);
      && at < |left| && left[at].token == cached[gone[k]].token
      && WithoutTokens(left, {left[at].token}) == WithoutTokens(entries, TokensAt(cached, gone[..k + 1]))
  {
    var r, tokens := cached[gone[k]], TokensAt(cached, gone[..k]);
    var left := WithoutTokens(entries, tokens);
    CachedAreListed(entries);
    TokensPrefix(cached, gone, k);
    WithoutElements(entries, tokens);
    assert r in cached && r in left;
    var at := PlaceOf(left, r.entry);
    assert left[at] in left && left[at] in entries;
    var x :| 0 <= x < |entries| && entries[x] == left[at];
    var y :| 0 <= y < |entries| && entries[y] == r;
    forall i, j | 0 <= i < j < |entries| ensures entries[i].entry.id != entries[j].entry.id {
      DistinctAt(entries, i, j);
    }
    assert x == y;
    WithoutTwice(entries, tokens, {r.token});
  }

  lemma {:induction false} ChilledOneMore(entries: seq<Record>, hot: seq<Record>, gone: seq<nat>, k: nat)
    requires Distinct(entries) && hot == Hot(entries) && Places(hot, gone) && k < |gone|
    requires forall i, j :: 0 <= i < j < |gone| ==> gone[i] != gone[j]
    ensures var now := Chilled(entries, TokensAt(hot, gone[..k])); var at := IndexOf(now, hot[gone[k]].token);
      at < |now| && now[at := Cooled(now[at])] == Chilled(entries, TokensAt(hot, gone[..k + 1]))
  {
    var r, tokens := hot[gone[k]], TokensAt(hot, gone[..k]);
    var now := Chilled(entries, tokens);
    HotAreListed(entries);
    TokensPrefix(hot, gone, k);
    assert r in hot;
    var y :| 0 <= y < |entries| && entries[y] == r;
    assert now[y].token == r.token;
    var at := IndexOf(now, r.token);
    forall j | 0 <= j < |entries| && j != at ensures entries[j].token != r.token {
      DistinctAt(entries, j, at);
      assert now[at].token == entries[at].token;
    }
  }

  function Moved(r: Record, drop: set<Partition>, gain: set<Partition>): Record {
    r.(memberships := r.memberships - drop + gain)
  }

  lemma {:induction false} InputKeysAreInputs(resources: set<string>)
    ensures forall k :: k in InputKeys(resources) ==> k.InputPath?
  {
  }

  lemma {:induction false} NothingRevoked(entries: seq<Record>, i: nat, resources: set<string>)
    requires i < |entries| && resources == {}
    ensures entries[i := Moved(entries[i], InputKeys(resources), {})] == entries
  {
    assert InputKeys(resources) == {};
    assert Moved(entries[i], {}, {}).memberships == entries[i].memberships;
  }

  function InputKeys(resources: set<string>): set<Partition> {
    (set r | r in resources :: InputPath(r, false)) + (set r | r in resources :: InputPath(r, true))
  }

  lemma {:induction false} ExactlySequence(entries: seq<Record>, i: nat, n: nat)
    requires i < |entries| && Below(entries, n)
    ensures entries[i].recency != n
  {
  }

  lemma {:induction false} PlaceStays(before: seq<Record>, i: nat, after: seq<Record>, entry: Entry)
    requires i == PlaceOf(before, entry) < |before| && |after| == |before|
    requires forall j :: 0 <= j < |before| ==> after[j].entry == before[j].entry
    ensures PlaceOf(after, entry) == i
    decreases |before|
  {
    if before[0].entry != entry { PlaceStays(before[1..], i - 1, after[1..], entry); }
  }

  class Store {
    var scopes: map<nat, State>
    var sequence: nat
    const projectors: seq<Projector>

    ghost predicate Valid()
      reads this
    {
      forall scope :: scope in scopes ==> ValidState(scopes[scope], sequence)
    }

    ghost predicate Indexed(scope: nat)
      reads this
    {
      AllIndexed(projectors, Entries(scope))
    }

    /** The indexes of every scope hold all they should. */
    ghost predicate Complete()
      reads this
    {
      forall scope :: Indexed(scope)
    }

    /** A change to one scope that keeps its indexes complete keeps all complete. */
    twostate lemma StaysComplete(scope: nat)
      requires old(Indexed(scope)) ==> Indexed(scope)
      requires forall other :: other != scope ==> Entries(other) == old(Entries(other))
      ensures old(Complete()) ==> Complete()
    {
      if old(Complete()) {
        forall other ensures Indexed(other) {
          assert old(Indexed(other)) && (other == scope || Entries(other) == old(Entries(other)));
        }
      }
    }

    constructor (projectors: seq<Projector>)
      ensures Valid() && Complete() && scopes == map[] && this.projectors == projectors
    {
      this.projectors := projectors;
      scopes := map[];
      sequence := 0;
    }

    ghost function Entries(scope: nat): seq<Record>
      reads this
    {
      if scope in scopes then scopes[scope].entries else []
    }

    /** Registers an entry under the indexes given; an entry of that name that is there already stays. */
    method Add(scope: nat, entry: Entry, keys: set<Partition>) returns (existing: Option<Entry>)
      requires Valid()
      modifies this
      ensures Valid() && forall other :: other != scope ==> Entries(other) == old(Entries(other))
      ensures var old_ := old(Entries(scope)); var i := PlaceOfId(old_, entry.id);
        if i < |old_| then existing == Some(old_[i].entry) && scopes == old(scopes) && sequence == old(sequence)
        else
          && existing == None && Entries(scope) == old_ + [Fresh(old(sequence), entry, keys)]
          && sequence == old(sequence) + 1
    {
      var state := if scope in scopes then scopes[scope] else EMPTY;
      var i := PlaceOfId(state.entries, entry.id);
      if i < |state.entries| { return Some(state.entries[i].entry); }
      var r := Fresh(sequence, entry, keys);
      AppendKeepsDistinct(state.entries, r, sequence);
      AppendKeepsMirror(state, r);
      GrowthKeeps(scopes, sequence);
      scopes := scopes[scope := Append(state, r)];
      sequence := sequence + 1;
      existing := None;
    }

    method Insert(scope: nat, entry: Entry) returns (existing: Option<Entry>)
      requires Valid()
      modifies this
      ensures Valid() && forall other :: other != scope ==> Entries(other) == old(Entries(other))
      ensures (old(Indexed(scope)) ==> Indexed(scope)) && (old(Complete()) ==> Complete())
      ensures (existing == None) == (PlaceOfId(old(Entries(scope)), entry.id) == |old(Entries(scope))|)
      ensures Entries(scope) == Registered(projectors, old(Entries(scope)), old(sequence), entry)
      ensures existing == None || scopes == old(scopes)
      ensures scope in scopes
    {
      existing := Add(scope, entry, if entry.key.Some? then Partitions(projectors, entry.key.value) else {});
      StaysComplete(scope);
    }

    /** Removes a registration of this very entry from the list and from every index. */
    method Delete(scope: nat, entry: Entry) returns (deleted: bool)
      requires Valid()
      modifies this`scopes
      ensures Valid() && forall other :: other != scope ==> Entries(other) == old(Entries(other))
      ensures (old(Indexed(scope)) ==> Indexed(scope)) && (old(Complete()) ==> Complete())
      ensures var old_ := old(Entries(scope)); var i := PlaceOf(old_, entry);
        && deleted == (i < |old_|)
        && Entries(scope) == if deleted then WithoutTokens(old_, {old_[i].token}) else old_
    {
      if scope !in scopes { return false; }
      var state := scopes[scope];
      var i := PlaceOf(state.entries, entry);
      if i == |state.entries| { return false; }
      RemoveKeepsDistinct(state.entries, i, sequence);
      RemoveKeepsMirror(state, i);
      if AllIndexed(projectors, state.entries) {
        WithoutKeepsIndexed(projectors, state.entries, {state.entries[i].token});
      }
      var next := Remove(state, i);
      scopes := if next.entries == [] then scopes - {scope} else scopes[scope := next];
      StaysComplete(scope);
      deleted := true;
    }

    /** Takes one registration out of some indexes and into others, and replaces what it records. */
    method Rewrite(scope: nat, i: nat, drop: set<Partition>, gain: set<Partition>, r: Record)
      requires Valid() && scope in scopes && i < |scopes[scope].entries| && drop !! gain
      requires var was := scopes[scope].entries[i];
        && r.token == was.token && r.entry == was.entry && (r.recency == was.recency || r.recency == sequence)
        && r.memberships == was.memberships - drop + gain
      modifies this
      ensures Valid() && sequence == old(sequence) + (if r.recency == old(sequence) then 1 else 0)
      ensures scope in scopes && scopes[scope].entries == old(scopes[scope].entries)[i := r]
      ensures forall other :: other != scope ==>
        (other in scopes <==> other in old(scopes)) && Entries(other) == old(Entries(other))
    {
      var state := scopes[scope];
      var dropped := Unindex(state, i, drop);
      UnindexKeepsMirror(state, i, drop);
      PutKeepsDistinct(state.entries, i, dropped.entries[i], sequence);
      var gained := Index(dropped, i, gain);
      IndexKeepsMirror(dropped, i, gain);
      PutKeepsDistinct(dropped.entries, i, gained.entries[i], sequence);
      EditKeepsMirror(gained, i, r);
      PutKeepsDistinct(gained.entries, i, r, sequence);
      GrowthKeeps(scopes, sequence);
      assert gained.entries[i := r] == state.entries[i := r];
      scopes := scopes[scope := gained.(entries := gained.entries[i := r])];
      if r.recency == sequence { sequence := sequence + 1; }
    }

    method SettleAt(scope: nat, i: nat, lends: bool, shared: bool, inputs: set<Partition>, now: int)
      requires Valid() && scope in scopes && i < |scopes[scope].entries| && (forall k :: k in inputs ==> k.InputPath?)
      modifies this
      ensures Valid() && forall other :: other != scope ==> Entries(other) == old(Entries(other))
      ensures (old(Indexed(scope)) ==> Indexed(scope)) && (old(Complete()) ==> Complete())
      ensures scope in scopes && scopes[scope].entries ==
        old(scopes[scope].entries)[i := Settled(old(scopes[scope].entries)[i], lends, shared, inputs, now)]
    {
      var was := scopes[scope].entries[i];
      var takes := shared && !was.inputs && lends;
      Rewrite(scope, i, {Pending}, if takes then inputs else {}, Settled(was, lends, shared, inputs, now));
      StaysComplete(scope);
    }

    /** Registers the entry unless its name is taken.  Settled work then leaves the pending index and has a result, and
        a branch that lends inputs is found by them; a name taken by another entry changes nothing. */
    method Settle(scope: nat, entry: Entry, lends: bool, shared: bool, inputs: set<Partition>, now: int)
      requires Valid() && (forall k :: k in inputs ==> k.InputPath?)
      modifies this
      ensures Valid() && forall other :: other != scope ==> Entries(other) == old(Entries(other))
      ensures (old(Indexed(scope)) ==> Indexed(scope)) && (old(Complete()) ==> Complete())
      ensures var there := Registered(projectors, old(Entries(scope)), old(sequence), entry);
        var i := PlaceOf(there, entry);
        && Entries(scope) == (if i < |there| then there[i := Settled(there[i], lends, shared, inputs, now)] else there)
        && (i < |there| ==>
             Entries(scope)[i].result ==
             Some(if there[i].result.Some? then there[i].result.value else Evidence(false, now, 0, None)))
    {
      var existing := Insert(scope, entry);
      var i := PlaceOf(scopes[scope].entries, entry);
      if i == |scopes[scope].entries| { return; }
      SettleAt(scope, i, lends, shared, inputs, now);
      StaysComplete(scope);
    }

    /** Takes one registration out of and into indexes that no lookup by match uses. */
    method Reindex(scope: nat, i: nat, drop: set<Partition>, gain: set<Partition>)
      requires Valid() && scope in scopes && i < |scopes[scope].entries| && drop !! gain
      requires forall k :: k in drop ==> !k.ExactKey? && !k.Projection?
      modifies this
      ensures Valid() && forall other :: other != scope ==> Entries(other) == old(Entries(other))
      ensures (old(Indexed(scope)) ==> Indexed(scope)) && (old(Complete()) ==> Complete())
      ensures scope in scopes
      ensures scopes[scope].entries == old(scopes[scope].entries)[i := Moved(old(scopes[scope].entries)[i], drop, gain)]
    {
      ExactlySequence(scopes[scope].entries, i, sequence);
      Rewrite(scope, i, drop, gain, Moved(scopes[scope].entries[i], drop, gain));
      StaysComplete(scope);
    }

    /** Revoked names leave the indexes of one registration's inputs, and nothing else. */
    method InvalidateInputs(scope: nat, entry: Entry, resources: set<string>)
      requires Valid()
      modifies this
      ensures Valid() && forall other :: other != scope ==> Entries(other) == old(Entries(other))
      ensures (old(Indexed(scope)) ==> Indexed(scope)) && (old(Complete()) ==> Complete())
      ensures var old_ := old(Entries(scope)); var i := PlaceOf(old_, entry);
        Entries(scope) == if i < |old_| then old_[i := Moved(old_[i], InputKeys(resources), {})] else old_
    {
      if scope !in scopes { return; }
      var i := PlaceOf(scopes[scope].entries, entry);
      if i == |scopes[scope].entries| { return; }
      if resources == {} {
        NothingRevoked(scopes[scope].entries, i, resources);
        return;
      }
      InputKeysAreInputs(resources);
      Reindex(scope, i, InputKeys(resources), {});
    }

    method IndexView(scope: nat, entry: Entry, key: Key, retained: bool)
      requires Valid()
      modifies this
      ensures Valid() && forall other :: other != scope ==> Entries(other) == old(Entries(other))
      ensures (old(Indexed(scope)) ==> Indexed(scope)) && (old(Complete()) ==> Complete())
      ensures var old_ := old(Entries(scope)); var i := PlaceOf(old_, entry);
        Entries(scope) ==
          if i == |old_| then old_
          else old_[i := Moved(old_[i], if retained then {} else {View(key)}, if retained then {View(key)} else {})]
    {
      if scope !in scopes { return; }
      var i := PlaceOf(scopes[scope].entries, entry);
      if i == |scopes[scope].entries| { return; }
      Reindex(scope, i, if retained then {} else {View(key)}, if retained then {View(key)} else {});
    }

    method Consider(entries: seq<Record>, i: nat, action: Action, coverage: Entry -> bool, ghost seen: set<nat>,
                    found: seq<Found>)
      returns (more: seq<Found>)
      requires i < |entries| && Distinct(entries) && entries[i].token !in seen
      requires FindsAmong(projectors, entries, action, coverage, seen, found)
      ensures FindsAmong(projectors, entries, action, coverage, seen + {entries[i].token}, more)
    {
      var r := entries[i];
      more := found;
      FindsOneMore(projectors, entries, action, coverage, seen, found, i);
      if r.entry.key.Some? {
        var how := FindMatch(projectors, r.entry.key.value, action, coverage(r.entry));
        if how.Some? { more := found + [FoundAs(r, how.value)]; }
      }
    }

    /** Finds by index, without input capabilities, what matching the registrations in the consulted indexes would find.
        As long as the indexes are complete that is what matching every registration would find. */
    method Lookup(scope: nat, action: Action, coverage: Entry -> bool) returns (list: seq<Found>)
      requires Valid()
      ensures Ranked(list, LookupRank) && Elements(list) == Findable(projectors, Entries(scope), action, coverage)
      ensures NearestFirst(list)
      ensures Indexed(scope) && Lawful(projectors) ==>
        Elements(list) == Scan(projectors, Entries(scope), action, coverage)
    {
      if scope !in scopes { return []; }
      var state := scopes[scope];
      var keys := Keys(projectors, action);
      var candidates := Candidates(state, keys);
      var found, rest := [], candidates;
      while rest != {}
        invariant rest <= candidates
        invariant FindsAmong(projectors, state.entries, action, coverage, candidates - rest, found)
        decreases |rest|
      {
        var t :| t in rest;
        CandidateIsListed(state, keys, t);
        found := Consider(state.entries, IndexOf(state.entries, t), action, coverage, candidates - rest, found);
        assert candidates - (rest - {t}) == candidates - rest + {t};
        rest := rest - {t};
      }
      SortedRanks(found, LookupRank);
      list := Sorted(found, LookupRank);
      RankedNearest(list);
      FindsCandidates(projectors, state, action, coverage, found);
      if AllIndexed(projectors, state.entries) && Lawful(projectors) {
        CompleteFindsAll(projectors, state.entries, action, coverage);
      }
    }

    /** Evicts results until both budgets are met: the first of the eviction order, and no more than needed. */
    method Trim(scope: nat, maxEntries: nat, maxBytes: nat, may: Entry -> bool, score: Record -> real)
      returns (gone: seq<nat>)
      requires Valid()
      modifies this`scopes
      ensures Valid() && forall other :: other != scope ==> Entries(other) == old(Entries(other))
      ensures (old(Indexed(scope)) ==> Indexed(scope)) && (old(Complete()) ==> Complete())
      ensures var cached := Cached(old(Entries(scope))); var order := EvictionOrder(cached, may, score);
        && Places(cached, order) && Shortest(cached, order, |gone|, maxEntries, maxBytes) && gone == order[..|gone|]
        && Entries(scope) == WithoutTokens(old(Entries(scope)), TokensAt(cached, gone))
        && (|gone| == |order| ||
           (|Cached(Entries(scope))| <= maxEntries && TotalBytes(Cached(Entries(scope))) <= maxBytes))
        && Retires(cached, may, score, gone, maxEntries, maxBytes)
    {
      var entries := if scope in scopes then scopes[scope].entries else [];
      var cached := Cached(entries);
      CachedAreListed(entries);
      gone := RetireExcess(cached, maxEntries, maxBytes, may, score);
      EvictionOrderRanks(cached, may, score);
      RankedPlacesDiffer(cached, score, EvictionOrder(cached, may, score));
      EvictAll(scope, cached, gone);
      LeftOver(cached, gone);
      CachedWithout(entries, TokensAt(cached, gone));
    }

    method EvictAll(scope: nat, cached: seq<Record>, gone: seq<nat>)
      requires Valid() && cached == Cached(Entries(scope)) && Places(cached, gone)
      requires forall i, j :: 0 <= i < j < |gone| ==> gone[i] != gone[j]
      modifies this`scopes
      ensures Valid() && forall other :: other != scope ==> Entries(other) == old(Entries(other))
      ensures (old(Indexed(scope)) ==> Indexed(scope)) && (old(Complete()) ==> Complete())
      ensures Entries(scope) == WithoutTokens(old(Entries(scope)), TokensAt(cached, gone))
    {
      ghost var entries := Entries(scope);
      WithoutNone(entries, {});
      assert TokensAt(cached, gone[..0]) == {};
      for k := 0 to |gone|
        invariant Valid() && forall other :: other != scope ==> Entries(other) == old(Entries(other))
        invariant old(Indexed(scope)) ==> Indexed(scope)
        invariant Entries(scope) == WithoutTokens(entries, TokensAt(cached, gone[..k]))
      {
        EvictedOneMore(entries, cached, gone, k);
        var _ := Delete(scope, cached[gone[k]].entry);
      }
      assert gone[..|gone|] == gone;
      StaysComplete(scope);
    }

    /** Makes a result hot and the most recent.  With limits, what exceeds the hot share of the budgets goes back to the
        cold segment, low scores first and no more than needed. */
    method RecordActorHit(scope: nat, entry: Entry, now: int, limited: bool, maxEntries: nat, maxBytes: nat,
                          share: Option<real>, score: Record -> real) returns (gone: seq<nat>)
      requires Valid()
      modifies this
      ensures Valid() && forall other :: other != scope ==> Entries(other) == old(Entries(other))
      ensures (old(Indexed(scope)) ==> Indexed(scope)) && (old(Complete()) ==> Complete())
      ensures var old_ := old(Entries(scope)); var i := PlaceOf(old_, entry);
        if i == |old_| || old_[i].result.None? then Entries(scope) == old_ && gone == []
        else
          var warm := old_[i := Hit(old_[i], old(sequence), now)];
          if !limited then Entries(scope) == warm && gone == []
          else
            && Excess(Hot(warm), gone, HotEntries(maxEntries, share), HotBytes(maxBytes, share), score)
            && Retires(Hot(warm), AnyEntry(), score, gone, HotEntries(maxEntries, share), HotBytes(maxBytes, share))
            && Places(Hot(warm), gone) && Entries(scope) == Chilled(warm, TokensAt(Hot(warm), gone))
            && |Hot(Entries(scope))| <= HotEntries(maxEntries, share) &&
               TotalBytes(Hot(Entries(scope))) <= HotBytes(maxBytes, share)
    {
      gone := [];
      if scope !in scopes { return; }
      var i := PlaceOf(scopes[scope].entries, entry);
      if i == |scopes[scope].entries| || scopes[scope].entries[i].result.None? { return; }
      var was := scopes[scope].entries[i];
      ghost var warm := scopes[scope].entries[i := Hit(was, sequence, now)];
      assert was.memberships - {} + {} == was.memberships;
      Rewrite(scope, i, {}, {}, Hit(was, sequence, now));
      HitStaysIndexed(projectors, old(Entries(scope)), i, old(sequence), now);
      if limited { gone := Cool(scope, HotEntries(maxEntries, share), HotBytes(maxBytes, share), score); }
      StaysComplete(scope);
    }

    method Cool(scope: nat, maxEntries: nat, maxBytes: nat, score: Record -> real) returns (gone: seq<nat>)
      requires Valid() && scope in scopes
      modifies this
      ensures Valid() && forall other :: other != scope ==> Entries(other) == old(Entries(other))
      ensures (old(Indexed(scope)) ==> Indexed(scope)) && (old(Complete()) ==> Complete())
      ensures Excess(Hot(old(Entries(scope))), gone, maxEntries, maxBytes, score)
      ensures Retires(Hot(old(Entries(scope))), AnyEntry(), score, gone, maxEntries, maxBytes)
      ensures Places(Hot(old(Entries(scope))), gone)
      ensures Entries(scope) == Chilled(old(Entries(scope)), TokensAt(Hot(old(Entries(scope))), gone))
      ensures |Hot(Entries(scope))| <= maxEntries && TotalBytes(Hot(Entries(scope))) <= maxBytes
    {
      var entries := scopes[scope].entries;
      var hot := Hot(entries);
      HotAreListed(entries);
      gone := RetireHot(hot, maxEntries, maxBytes, score);
      CoolAll(scope, hot, gone);
      HotChilled(entries, TokensAt(hot, gone));
    }

    method CoolAll(scope: nat, hot: seq<Record>, gone: seq<nat>)
      requires Valid() && scope in scopes && hot == Hot(scopes[scope].entries) && Places(hot, gone)
      requires forall i, j :: 0 <= i < j < |gone| ==> gone[i] != gone[j]
      modifies this
      ensures Valid() && forall other :: other != scope ==> Entries(other) == old(Entries(other))
      ensures (old(Indexed(scope)) ==> Indexed(scope)) && (old(Complete()) ==> Complete())
      ensures Entries(scope) == Chilled(old(Entries(scope)), TokensAt(hot, gone))
    {
      ghost var entries := scopes[scope].entries;
      assert TokensAt(hot, gone[..0]) == {} && Chilled(entries, {}) == entries;
      for k := 0 to |gone|
        invariant Valid() && scope in scopes
        invariant old(Indexed(scope)) ==> Indexed(scope)
        invariant forall other :: other != scope ==> Entries(other) == old(Entries(other))
        invariant scopes[scope].entries == Chilled(entries, TokensAt(hot, gone[..k]))
      {
        ChilledOneMore(entries, hot, gone, k);
        CoolOne(scope, IndexOf(scopes[scope].entries, hot[gone[k]].token));
      }
      assert gone[..|gone|] == gone;
      StaysComplete(scope);
    }

    method CoolOne(scope: nat, at: nat)
      requires Valid() && scope in scopes && at < |scopes[scope].entries|
      modifies this
      ensures Valid() && scope in scopes && forall other :: other != scope ==> Entries(other) == old(Entries(other))
      ensures (old(Indexed(scope)) ==> Indexed(scope)) && (old(Complete()) ==> Complete())
      ensures scopes[scope].entries == old(scopes[scope].entries)[at := Cooled(old(scopes[scope].entries)[at])]
    {
      var r := scopes[scope].entries[at];
      assert r.memberships - {} + {} == r.memberships;
      ExactlySequence(scopes[scope].entries, at, sequence);
      Rewrite(scope, at, {}, {}, Cooled(r));
      StaysComplete(scope);
    }

    /** Joins the best find the caller accepts, exact ones first; otherwise registers a new entry under the action's
        own projections.  The indexes stay complete exactly when the new entry's key has no projections beyond those. */
    method GetOrCreate(scope: nat, action: Action, created: Entry, canReuse: (Entry, Match) -> bool)
      returns (entry: Entry, how: Match, inserted: bool)
      requires Valid()
      modifies this
      ensures Valid() && forall other :: other != scope ==> Entries(other) == old(Entries(other))
      ensures var old_ := old(Entries(scope)); var matches := Findable(projectors, old_, action, NoCoverage);
        (exists f :: f in matches && canReuse(f.entry, f.how)) ==>
          !inserted && scopes == old(scopes) &&
          exists f :: f in matches && canReuse(f.entry, f.how) && entry == f.entry && how == f.how &&
            forall g :: g in matches && canReuse(g.entry, g.how) ==> g == f || JoinsFirst(f, g)
      ensures var old_ := old(Entries(scope)); var matches := Findable(projectors, old_, action, NoCoverage);
        !(exists f :: f in matches && canReuse(f.entry, f.how)) ==>
          var i := PlaceOfId(old_, created.id);
          && how == Exact && inserted == (i == |old_|)
          && entry == (if inserted then created else old_[i].entry)
          && Entries(scope) == if inserted then old_ + [Fresh(old(sequence), created, Partitions(projectors, action))]
             else old_
      ensures Indexed(scope) <==> old(Indexed(scope)) && (inserted ==> FilesWell(projectors, action, created))
      ensures old(Complete()) && FilesWell(projectors, action, created) ==> Complete()
    {
      ghost var before := Entries(scope);
      var list := Lookup(scope, action, NoCoverage);
      var accepted := FirstJoin(list, canReuse);
      if accepted.Some? { return accepted.value.entry, accepted.value.how, false; }
      var existing := Add(scope, created, Partitions(projectors, action));
      entry := if existing.Some? then existing.value else created;
      how, inserted := Exact, existing.None?;
      if inserted { FiledWell(projectors, before, old(sequence), action, created); }
      if FilesWell(projectors, action, created) { StaysComplete(scope); }
    }
  }

  // ---------------------------------------------------------------- joining

  /** The first find, in the order of joining, that the caller accepts. */
  method FirstJoin(list: seq<Found>, canReuse: (Entry, Match) -> bool) returns (accepted: Option<Found>)
    requires Ranked(list, LookupRank)
    ensures accepted.None? ==> forall f :: f in Elements(list) ==> !canReuse(f.entry, f.how)
    ensures accepted.Some? ==> accepted.value in Elements(list) && canReuse(accepted.value.entry, accepted.value.how)
    ensures accepted.Some? ==> forall g :: g in Elements(list) && canReuse(g.entry, g.how) ==>
      g == accepted.value || JoinsFirst(accepted.value, g)
  {
    JoinOrder(list);
    var order := Sorted(list, JoinRank);
    assert forall i :: 0 <= i < |order| ==> order[i] in Elements(order);
    var next := 0;
    while next < |order|
      invariant 0 <= next <= |order| && forall i :: 0 <= i < next ==> !canReuse(order[i].entry, order[i].how)
    {
      if canReuse(order[next].entry, order[next].how) {
        FirstAccepted(order, next, canReuse);
        return Some(order[next]);
      }
      next := next + 1;
    }
    assert forall f :: f in Elements(order) ==> !canReuse(f.entry, f.how);
    accepted := None;
  }

  /** The new entry's own projections are among those of the action it is registered under. */
  predicate FilesWell(projectors: seq<Projector>, action: Action, created: Entry) {
    created.key.Some? ==> Partitions(projectors, created.key.value) <= Partitions(projectors, action)
  }

  lemma {:induction false} FiledWell(projectors: seq<Projector>, entries: seq<Record>, token: nat, action: Action,
                                     created: Entry)
    ensures var r := Fresh(token, created, Partitions(projectors, action));
      AllIndexed(projectors, entries + [r]) <==>
        AllIndexed(projectors, entries) && FilesWell(projectors, action, created)
  {
    var r := Fresh(token, created, Partitions(projectors, action));
    var more := entries + [r];
    assert more[|entries|] == r && forall i :: 0 <= i < |entries| ==> more[i] == entries[i];
    assert Indexed(projectors, r) <==> FilesWell(projectors, action, created);
  }

  predicate NoCoverage(e: Entry) {
    false
  }

  /** An exact match comes before any other, then the nearer one, then the more recently used. */
  predicate JoinsFirst(f: Found, g: Found) {
    (f.how.Exact? && !g.how.Exact?) || (f.how.Exact? == g.how.Exact? && Nearer(f, g))
  }

  /** Exact matches first, then as in a lookup. */
  function JoinRank(f: Found): Rank {
    Rank(if f.how.Exact? then 0.0 else 1.0, f.how.Distance(), -(f.recency as int))
  }

  lemma {:induction false} JoinOrder(list: seq<Found>)
    requires Ranked(list, LookupRank)
    ensures Ranked(Sorted(list, JoinRank), JoinRank) && Elements(Sorted(list, JoinRank)) == Elements(list)
  {
    assert RanksDiffer(list, JoinRank) by {
      forall i, j | 0 <= i < j < |list| ensures JoinRank(list[i]) != JoinRank(list[j]) {
        assert LookupRank(list[i]).Below(LookupRank(list[j]));
      }
    }
    SortedRanks(list, JoinRank);
  }

  lemma {:induction false} FirstAccepted(order: seq<Found>, next: nat, canReuse: (Entry, Match) -> bool)
    requires Ranked(order, JoinRank) && next < |order|
    requires forall i :: 0 <= i < next ==> !canReuse(order[i].entry, order[i].how)
    ensures forall g :: g in Elements(order) && canReuse(g.entry, g.how) ==>
              g == order[next] || JoinsFirst(order[next], g)
  {
    forall g | g in Elements(order) && canReuse(g.entry, g.how) ensures g == order[next] || JoinsFirst(order[next], g) {
      var i :| 0 <= i < |order| && order[i] == g;
      if i > next { assert JoinRank(order[next]).Below(JoinRank(g)); }
    }
  }

  /** Why the condition on a created entry matters: registered under another command's projection, a result that a plain
      scan would find is in none of the indexes the lookup consults. */
  lemma {:induction false} MisfiledEntryIsMissed()
    ensures exists entry: Entry, asked, sought: Action ::
      var projectors := [BashProjector()];
      var r := Fresh(0, entry, Partitions(projectors, asked));
      && entry.key.Some? && entry.key.value != asked
      && Answer(projectors, r, sought, NoCoverage).Some?
      && !Consulted(projectors, r, sought)
  {
    var asked := Action("bash", "", "", "", map["command" := Text("a")], []);
    var own := Action("bash", "", "", "", map["command" := Text("b"), "timeout" := Number(1.0)], []);
    var sought := Action("bash", "", "", "", map["command" := Text("b"), "timeout" := Number(2.0)], []);
    var entry := Entry(0, "e", Some(own), 0);
    var projectors := [BashProjector()];
    var r := Fresh(0, entry, Partitions(projectors, asked));
    assert own.input["timeout"] != sought.input["timeout"];
    assert Without(own.input, {"timeout"}) == Without(sought.input, {"timeout"});
    assert BashCovers(own, sought);
    assert Accepts(projectors[0], own, sought, false) == Some(1.0);
    assert Nearest(projectors, 0, own, sought, false).None?;
    assert Answer(projectors, r, sought, NoCoverage).Some?;
    assert Without(asked.input, {"timeout"})["command"] == Text("a");
    assert Without(sought.input, {"timeout"})["command"] == Text("b");
    assert Partitions(projectors, asked) == {Projection("bash.timeout", BashPartition(asked).value)};
    assert Partitions(projectors, sought) == {Projection("bash.timeout", BashPartition(sought).value)};
    assert BashPartition(asked) != BashPartition(sought);
  }
}

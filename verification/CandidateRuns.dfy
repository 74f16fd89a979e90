/** Runs of operations on a store, in any scopes, with deletions and evictions among them: exactly when a lookup
    afterwards finds what matching every registration would find. */
module CandidateRuns {
  import opened Basics
  import opened ActionKeys
  import opened Ranking
  import opened CandidateStore

  datatype Operation =
    | Inserting(scope: nat, entry: Entry)
    | Joining(scope: nat, action: Action, created: Entry, canReuse: (Entry, Match) -> bool)
    | Settling(scope: nat, entry: Entry, lends: bool, shared: bool, inputs: set<(string, bool)>, now: int)
    | Revoking(scope: nat, entry: Entry, resources: set<string>)
    | Viewing(scope: nat, entry: Entry, key: Key, retained: bool)
    | Deleting(scope: nat, entry: Entry)
    | Hitting(scope: nat, entry: Entry, now: int, limited: bool, maxEntries: nat, maxBytes: nat, share: Option<real>,
              score: Record -> real)
    | Trimming(scope: nat, maxEntries: nat, maxBytes: nat, may: Entry -> bool, score: Record -> real)

  /** The one way an operation can leave an index incomplete. */
  predicate Misfiles(projectors: seq<Projector>, op: Operation) {
    op.Joining? && !FilesWell(projectors, op.action, op.created)
  }

  // ---------------------------------------------------------------- where a registration comes from

  /** The memberships that lookups by match go by. */
  function Filing(r: Record): set<Partition> {
    set k | k in r.memberships && (k.ExactKey? || k.Projection?)
  }

  predicate SameFiling(a: Record, b: Record) {
    a.entry == b.entry && Filing(a) == Filing(b)
  }

  /** The registration an operation makes, if it makes one. */
  function Made(projectors: seq<Projector>, op: Operation): Option<Record> {
    match op
    case Inserting(_, entry) => Some(Fresh(0, entry, OwnPartitions(projectors, entry)))
    case Settling(_, entry, _, _, _, _) => Some(Fresh(0, entry, OwnPartitions(projectors, entry)))
    case Joining(_, action, created, _) => Some(Fresh(0, created, Partitions(projectors, action)))
    case _ => None
  }

  function OwnPartitions(projectors: seq<Projector>, entry: Entry): set<Partition> {
    if entry.key.Some? then Partitions(projectors, entry.key.value) else {}
  }

  /** The operation made the registration, if it was made in the scope of the operation. */
  predicate ComesFrom(projectors: seq<Projector>, op: Operation, r: Record) {
    Made(projectors, op).Some? && SameFiling(Made(projectors, op).value, r)
  }

  ghost predicate Known(before: seq<Record>, r: Record) {
    exists b :: b in before && SameFiling(b, r)
  }

  /** Every registration was there before, filed as it is, or the operation made it. */
  ghost predicate Grows(projectors: seq<Projector>, op: Operation, scope: nat, before: seq<Record>,
                        after: seq<Record>) {
    forall r :: r in after ==> Known(before, r) || (op.scope == scope && ComesFrom(projectors, op, r))
  }

  lemma {:induction false} SameGrows(projectors: seq<Projector>, op: Operation, scope: nat, before: seq<Record>)
    ensures Grows(projectors, op, scope, before, before)
  {
    forall r | r in before ensures Known(before, r) { assert SameFiling(r, r); }
  }

  lemma {:induction false} GrowsTwice(projectors: seq<Projector>, op: Operation, scope: nat, a: seq<Record>,
                                      b: seq<Record>, c: seq<Record>)
    requires Grows(projectors, op, scope, a, b) && Grows(projectors, op, scope, b, c)
    ensures Grows(projectors, op, scope, a, c)
  {
    forall r | r in c ensures Known(a, r) || (op.scope == scope && ComesFrom(projectors, op, r)) {
      if Known(b, r) {
        var m :| m in b && SameFiling(m, r);
        if Known(a, m) {
          var o :| o in a && SameFiling(o, m);
          assert SameFiling(o, r);
        }
      }
    }
  }

  lemma {:induction false} PutGrows(projectors: seq<Projector>, op: Operation, scope: nat, before: seq<Record>,
                                    i: nat, r: Record)
    requires i < |before| && SameFiling(before[i], r)
    ensures Grows(projectors, op, scope, before, before[i := r])
  {
    forall x | x in before[i := r] ensures Known(before, x) {
      if x == r { assert before[i] in before && SameFiling(before[i], x); } else { assert SameFiling(x, x); }
    }
  }

  lemma {:induction false} WithoutGrows(projectors: seq<Projector>, op: Operation, scope: nat, before: seq<Record>,
                                        tokens: set<nat>)
    ensures Grows(projectors, op, scope, before, WithoutTokens(before, tokens))
  {
    WithoutElements(before, tokens);
    forall x | x in WithoutTokens(before, tokens) ensures Known(before, x) { assert SameFiling(x, x); }
  }

  lemma {:induction false} ChilledGrows(projectors: seq<Projector>, op: Operation, scope: nat, before: seq<Record>,
                                        tokens: set<nat>)
    ensures Grows(projectors, op, scope, before, Chilled(before, tokens))
  {
    var after := Chilled(before, tokens);
    forall x | x in after ensures Known(before, x) {
      var i :| 0 <= i < |after| && after[i] == x;
      assert before[i] in before && SameFiling(before[i], x);
    }
  }

  lemma {:induction false} FreshGrows(projectors: seq<Projector>, op: Operation, scope: nat, before: seq<Record>,
                                      r: Record)
    requires op.scope == scope && ComesFrom(projectors, op, r)
    ensures Grows(projectors, op, scope, before, before + [r])
  {
    forall x | x in before + [r] && x != r ensures Known(before, x) { assert x in before && SameFiling(x, x); }
  }

  /** Registering under the entry's own projections. */
  lemma {:induction false} RegisteredGrows(projectors: seq<Projector>, op: Operation, scope: nat,
                                           before: seq<Record>, token: nat, entry: Entry)
    requires op.scope == scope && Made(projectors, op) == Some(Fresh(0, entry, OwnPartitions(projectors, entry)))
    ensures Grows(projectors, op, scope, before, Registered(projectors, before, token, entry))
  {
    if PlaceOfId(before, entry.id) < |before| { SameGrows(projectors, op, scope, before); } else {
      FreshGrows(projectors, op, scope, before, Fresh(token, entry, OwnPartitions(projectors, entry)));
    }
  }

  lemma {:induction false} MovedGrows(projectors: seq<Projector>, op: Operation, before: seq<Record>, entry: Entry,
                                      drop: set<Partition>, gain: set<Partition>)
    requires forall k :: k in drop ==> k.InputPath? || k.View?
    requires forall k :: k in gain ==> k.InputPath? || k.View?
    ensures var i := PlaceOf(before, entry);
      Grows(projectors, op, op.scope, before,
        if i < |before| then before[i := Moved(before[i], drop, gain)] else before)
  {
    var i := PlaceOf(before, entry);
    if i < |before| {
      assert Filing(Moved(before[i], drop, gain)) == Filing(before[i]);
      PutGrows(projectors, op, op.scope, before, i, Moved(before[i], drop, gain));
    } else {
      SameGrows(projectors, op, op.scope, before);
    }
  }

  lemma {:induction false} SettledGrows(projectors: seq<Projector>, op: Operation, there: seq<Record>, lends: bool,
                                        shared: bool, paths: set<Partition>, now: int)
    requires op.Settling? && forall k :: k in paths ==> k.InputPath?
    ensures var i := PlaceOf(there, op.entry);
      Grows(projectors, op, op.scope, there,
        if i < |there| then there[i := Settled(there[i], lends, shared, paths, now)] else there)
  {
    var i := PlaceOf(there, op.entry);
    if i < |there| {
      var r := Settled(there[i], lends, shared, paths, now);
      assert Filing(r) == Filing(there[i]);
      PutGrows(projectors, op, op.scope, there, i, r);
    } else {
      SameGrows(projectors, op, op.scope, there);
    }
  }

  lemma {:induction false} HitGrows(projectors: seq<Projector>, op: Operation, before: seq<Record>, i: nat, n: nat,
                                    now: int, tokens: set<nat>)
    requires i < |before|
    ensures var warm := before[i := Hit(before[i], n, now)];
      && Grows(projectors, op, op.scope, before, warm)
      && Grows(projectors, op, op.scope, before, Chilled(warm, tokens))
  {
    var warm := before[i := Hit(before[i], n, now)];
    PutGrows(projectors, op, op.scope, before, i, Hit(before[i], n, now));
    ChilledGrows(projectors, op, op.scope, warm, tokens);
    GrowsTwice(projectors, op, op.scope, before, warm, Chilled(warm, tokens));
  }

  // ---------------------------------------------------------------- performing

  method Make(store: Store, op: Operation)
    requires store.Valid() && (op.Inserting? || op.Settling?)
    modifies store
    ensures store.Valid() && forall other :: other != op.scope ==> store.Entries(other) == old(store.Entries(other))
    ensures old(store.Complete()) ==> store.Complete()
    ensures Grows(store.projectors, op, op.scope, old(store.Entries(op.scope)), store.Entries(op.scope))
  {
    ghost var before, projectors, token := store.Entries(op.scope), store.projectors, store.sequence;
    RegisteredGrows(projectors, op, op.scope, before, token, op.entry);
    match op {
    case Inserting(scope, entry) => var _ := store.Insert(scope, entry);
    case Settling(scope, entry, lends, shared, inputs, now) =>
      var paths := set path | path in inputs :: InputPath(path.0, path.1);
      store.Settle(scope, entry, lends, shared, paths, now);
      ghost var there := Registered(projectors, before, token, entry);
      SettledGrows(projectors, op, there, lends, shared, paths, now);
      GrowsTwice(projectors, op, scope, before, there, store.Entries(scope));
    }
  }

  method Join(store: Store, op: Operation)
    requires store.Valid() && op.Joining?
    modifies store
    ensures store.Valid() && forall other :: other != op.scope ==> store.Entries(other) == old(store.Entries(other))
    ensures old(store.Complete()) && !Misfiles(store.projectors, op) ==> store.Complete()
    ensures Grows(store.projectors, op, op.scope, old(store.Entries(op.scope)), store.Entries(op.scope))
  {
    ghost var before, projectors, token := store.Entries(op.scope), store.projectors, store.sequence;
    var _, _, inserted := store.GetOrCreate(op.scope, op.action, op.created, op.canReuse);
    if inserted {
      FreshGrows(projectors, op, op.scope, before, Fresh(token, op.created, Partitions(projectors, op.action)));
    } else {
      SameGrows(projectors, op, op.scope, before);
    }
  }

  method Move(store: Store, op: Operation)
    requires store.Valid() && (op.Revoking? || op.Viewing?)
    modifies store
    ensures store.Valid() && forall other :: other != op.scope ==> store.Entries(other) == old(store.Entries(other))
    ensures old(store.Complete()) ==> store.Complete()
    ensures Grows(store.projectors, op, op.scope, old(store.Entries(op.scope)), store.Entries(op.scope))
  {
    ghost var before, projectors := store.Entries(op.scope), store.projectors;
    match op {
    case Revoking(scope, entry, resources) =>
      store.InvalidateInputs(scope, entry, resources);
      MovedGrows(projectors, op, before, entry, InputKeys(resources), {});
    case Viewing(scope, entry, key, retained) =>
      store.IndexView(scope, entry, key, retained);
      MovedGrows(projectors, op, before, entry, if retained then {} else {View(key)},
        if retained then {View(key)} else {});
    }
  }

  method Shed(store: Store, op: Operation)
    requires store.Valid() && (op.Deleting? || op.Trimming?)
    modifies store
    ensures store.Valid() && forall other :: other != op.scope ==> store.Entries(other) == old(store.Entries(other))
    ensures old(store.Complete()) ==> store.Complete()
    ensures Grows(store.projectors, op, op.scope, old(store.Entries(op.scope)), store.Entries(op.scope))
  {
    ghost var before, projectors := store.Entries(op.scope), store.projectors;
    SameGrows(projectors, op, op.scope, before);
    match op {
    case Deleting(scope, entry) =>
      var deleted := store.Delete(scope, entry);
      if deleted { WithoutGrows(projectors, op, scope, before, {before[PlaceOf(before, entry)].token}); }
    case Trimming(scope, maxEntries, maxBytes, may, score) =>
      var gone := store.Trim(scope, maxEntries, maxBytes, may, score);
      WithoutGrows(projectors, op, scope, before, TokensAt(Cached(before), gone));
    }
  }

  method Warm(store: Store, op: Operation)
    requires store.Valid() && op.Hitting?
    modifies store
    ensures store.Valid() && forall other :: other != op.scope ==> store.Entries(other) == old(store.Entries(other))
    ensures old(store.Complete()) ==> store.Complete()
    ensures Grows(store.projectors, op, op.scope, old(store.Entries(op.scope)), store.Entries(op.scope))
  {
    ghost var before, projectors, token := store.Entries(op.scope), store.projectors, store.sequence;
    SameGrows(projectors, op, op.scope, before);
    var gone := store.RecordActorHit(op.scope, op.entry, op.now, op.limited, op.maxEntries, op.maxBytes, op.share,
      op.score);
    ghost var i := PlaceOf(before, op.entry);
    if i < |before| && before[i].result.Some? {
      ghost var warm := before[i := Hit(before[i], token, op.now)];
      HitGrows(projectors, op, before, i, token, op.now, if op.limited then TokensAt(Hot(warm), gone) else {});
    }
  }

  method Perform(store: Store, op: Operation)
    requires store.Valid()
    modifies store
    ensures store.Valid()
    ensures old(store.Complete()) && !Misfiles(store.projectors, op) ==> store.Complete()
    ensures forall scope ::
      Grows(store.projectors, op, scope, old(store.Entries(scope)), store.Entries(scope))
  {
    if op.Joining? { Join(store, op); }
    else if op.Inserting? || op.Settling? { Make(store, op); }
    else if op.Revoking? || op.Viewing? { Move(store, op); }
    else if op.Hitting? { Warm(store, op); }
    else { Shed(store, op); }
    forall scope | scope != op.scope
      ensures Grows(store.projectors, op, scope, old(store.Entries(scope)), store.Entries(scope))
    {
      SameGrows(store.projectors, op, scope, old(store.Entries(scope)));
    }
  }

  /** Every registration of the scope was made by an operation of the run. */
  ghost predicate AllCome(projectors: seq<Projector>, ops: seq<Operation>, scope: nat, entries: seq<Record>) {
    forall r :: r in entries ==> Comes(projectors, ops, scope, r)
  }

  ghost predicate Comes(projectors: seq<Projector>, ops: seq<Operation>, scope: nat, r: Record) {
    exists op :: op in ops && op.scope == scope && ComesFrom(projectors, op, r)
  }

  lemma {:induction false} StillCome(projectors: seq<Projector>, ops: seq<Operation>, op: Operation, scope: nat,
                                     before: seq<Record>, after: seq<Record>)
    requires AllCome(projectors, ops, scope, before) && Grows(projectors, op, scope, before, after)
    ensures AllCome(projectors, ops + [op], scope, after)
  {
    forall r | r in after ensures Comes(projectors, ops + [op], scope, r) {
      if Known(before, r) {
        var b :| b in before && SameFiling(b, r);
        assert Comes(projectors, ops, scope, b);
        var o :| o in ops && o.scope == scope && ComesFrom(projectors, o, b);
        assert o in ops + [op] && ComesFrom(projectors, o, r);
      } else {
        assert op in ops + [op];
      }
    }
  }

  method PerformAll(store: Store, ops: seq<Operation>)
    requires store.Valid()
    modifies store
    ensures store.Valid()
    ensures old(store.Complete()) && (forall op :: op in ops ==> !Misfiles(store.projectors, op)) ==> store.Complete()
    ensures old(store.scopes) == map[] ==> forall scope :: AllCome(store.projectors, ops, scope, store.Entries(scope))
  {
    for k := 0 to |ops|
      invariant store.Valid()
      invariant old(store.Complete()) && (forall op :: op in ops ==> !Misfiles(store.projectors, op)) ==>
        store.Complete()
      invariant old(store.scopes) == map[] ==>
        forall scope :: AllCome(store.projectors, ops[..k], scope, store.Entries(scope))
    {
      label Before:
      Perform(store, ops[k]);
      assert ops[..k + 1] == ops[..k] + [ops[k]];
      forall scope | AllCome(store.projectors, ops[..k], scope, old@Before(store.Entries(scope)))
        ensures AllCome(store.projectors, ops[..k + 1], scope, store.Entries(scope))
      {
        StillCome(store.projectors, ops[..k], ops[k], scope, old@Before(store.Entries(scope)), store.Entries(scope));
      }
    }
    assert ops[..|ops|] == ops;
  }

  // ---------------------------------------------------------------- what a lookup misses

  /** By some projection the entry answers another action. */
  predicate Answers(projectors: seq<Projector>, own: Action, sought: Action) {
    own.Key() != sought.Key() && MatchOf(projectors, own, sought, false).Some?
  }

  /** The operation files its new entry where some action that the entry answers does not look. */
  ghost predicate Strays(projectors: seq<Projector>, op: Operation) {
    && op.Joining? && op.created.key.Some?
    && exists sought :: Answers(projectors, op.created.key.value, sought) &&
         Partitions(projectors, op.action) !! Partitions(projectors, sought)
  }

  /** No registration that is left was made by an operation that strays. */
  ghost predicate NoneStrays(projectors: seq<Projector>, ops: seq<Operation>, scope: nat, entries: seq<Record>) {
    forall r, op :: r in entries && op in ops && op.scope == scope && ComesFrom(projectors, op, r) ==>
      !Strays(projectors, op)
  }

  /** Only an operation that misfiles can stray. */
  lemma {:induction false} StrayIsMisfiled(projectors: seq<Projector>, op: Operation)
    requires Lawful(projectors) && Strays(projectors, op)
    ensures Misfiles(projectors, op)
  {
    var own := op.created.key.value;
    var sought :| Answers(projectors, own, sought) &&
      Partitions(projectors, op.action) !! Partitions(projectors, sought);
    MatchSharesPartition(projectors, |projectors|, own, sought, false);
    var j :| 0 <= j < |projectors| && projectors[j].partition(own).Some? &&
             projectors[j].partition(own) == projectors[j].partition(sought);
    var k := Projection(projectors[j].id, projectors[j].partition(own).value);
    assert k in Partitions(projectors, own) && k in Partitions(projectors, sought);
  }

  /** Asking for coverage only refuses more. */
  lemma {:induction false} CoverageRefuses(projectors: seq<Projector>, n: nat, own: Action, sought: Action)
    requires n <= |projectors| && Nearest(projectors, n, own, sought, true).Some?
    ensures Nearest(projectors, n, own, sought, false).Some?
    decreases n
  {
    if Nearest(projectors, n - 1, own, sought, true).Some? { CoverageRefuses(projectors, n - 1, own, sought); }
  }

  lemma {:induction false} StrayIsMissed(projectors: seq<Projector>, op: Operation, r: Record) returns (sought: Action)
    requires Strays(projectors, op) && ComesFrom(projectors, op, r)
    ensures Answer(projectors, r, sought, NoCoverage).Some? && !Consulted(projectors, r, sought)
  {
    var own := op.created.key.value;
    sought :| Answers(projectors, own, sought) && Partitions(projectors, op.action) !! Partitions(projectors, sought);
    var made, keys := Made(projectors, op).value, {ExactKey(own.Key())} + Partitions(projectors, op.action);
    assert Filing(made) <= keys && keys !! Keys(projectors, sought);
    assert forall k :: k in r.memberships && k in Keys(projectors, sought) ==> k in Filing(r);
  }

  lemma {:induction false} StrayMisses(projectors: seq<Projector>, op: Operation, entries: seq<Record>, r: Record)
    requires Strays(projectors, op) && ComesFrom(projectors, op, r) && r in entries && Distinct(entries)
    ensures !NothingMissed(projectors, entries)
  {
    var sought := StrayIsMissed(projectors, op, r);
    var i :| 0 <= i < |entries| && entries[i] == r;
    MissesNothingExactly(projectors, entries, sought, NoCoverage);
    assert !FindsAll(projectors, entries, sought, NoCoverage);
  }

  lemma {:induction false} OthersAreFound(projectors: seq<Projector>, op: Operation, r: Record, sought: Action,
                                          coverage: Entry -> bool)
    requires Lawful(projectors) && ComesFrom(projectors, op, r) && !Strays(projectors, op)
    requires Answer(projectors, r, sought, coverage).Some?
    ensures Consulted(projectors, r, sought)
  {
    var own, made := r.entry.key.value, Made(projectors, op).value;
    assert ExactKey(own.Key()) in Filing(made);
    if own.Key() == sought.Key() {
      assert ExactKey(own.Key()) in r.memberships * Keys(projectors, sought);
    } else if op.Joining? {
      if coverage(r.entry) { CoverageRefuses(projectors, |projectors|, own, sought); }
      assert Answers(projectors, own, sought);
      var k :| k in Partitions(projectors, op.action) && k in Partitions(projectors, sought);
      assert k in Filing(made);
      assert k in r.memberships * Keys(projectors, sought);
    } else {
      OwnIsIndexed(projectors, op, r);
      MatchIsIndexed(projectors, r, sought, coverage);
    }
  }

  lemma {:induction false} OwnIsIndexed(projectors: seq<Projector>, op: Operation, r: Record)
    requires ComesFrom(projectors, op, r) && !op.Joining?
    ensures Indexed(projectors, r)
  {
    var made := Made(projectors, op).value;
    if r.entry.key.Some? {
      var own := r.entry.key.value;
      assert ExactKey(own.Key()) in Filing(made);
      forall k | k in Partitions(projectors, own) ensures k in r.memberships {
        assert k in Filing(made);
      }
    }
  }

  /** Lookups miss nothing, for any action and any coverage asked for, if and only if no registration that is left was
      filed where some action that it answers does not look. */
  lemma {:induction false} NothingMissedExactly(projectors: seq<Projector>, ops: seq<Operation>, scope: nat,
                                                entries: seq<Record>)
    requires Lawful(projectors) && Distinct(entries) && AllCome(projectors, ops, scope, entries)
    ensures NothingMissed(projectors, entries) <==> NoneStrays(projectors, ops, scope, entries)
  {
    if !NoneStrays(projectors, ops, scope, entries) {
      var r, op :| r in entries && op in ops && op.scope == scope && ComesFrom(projectors, op, r) &&
        Strays(projectors, op);
      StrayMisses(projectors, op, entries, r);
    } else {
      forall action, coverage: Entry -> bool ensures FindsAll(projectors, entries, action, coverage) {
        NoneStraysFinds(projectors, ops, scope, entries, action, coverage);
      }
    }
  }

  lemma {:induction false} NoneStraysFinds(projectors: seq<Projector>, ops: seq<Operation>, scope: nat,
                                           entries: seq<Record>, action: Action, coverage: Entry -> bool)
    requires Lawful(projectors) && Distinct(entries) && AllCome(projectors, ops, scope, entries)
    requires NoneStrays(projectors, ops, scope, entries)
    ensures FindsAll(projectors, entries, action, coverage)
  {
    forall i | 0 <= i < |entries| && Answer(projectors, entries[i], action, coverage).Some?
      ensures Consulted(projectors, entries[i], action)
    {
      assert Comes(projectors, ops, scope, entries[i]);
      var op :| op in ops && op.scope == scope && ComesFrom(projectors, op, entries[i]);
      OthersAreFound(projectors, op, entries[i], action, coverage);
    }
    MissesNothingExactly(projectors, entries, action, coverage);
  }

  predicate FindsAll(projectors: seq<Projector>, entries: seq<Record>, action: Action, coverage: Entry -> bool) {
    Findable(projectors, entries, action, coverage) == Scan(projectors, entries, action, coverage)
  }

  ghost predicate NothingMissed(projectors: seq<Projector>, entries: seq<Record>) {
    forall action, coverage: Entry -> bool :: FindsAll(projectors, entries, action, coverage)
  }

  /** A lookup after a run of operations, in whatever scopes, with deletions and evictions among them.  Whatever it is
      for, it finds exactly what matching every registration left there would find, if and only if none of them was
      filed astray; and that is so if no operation misfiles an entry. */
  method LookupAfter(projectors: seq<Projector>, ops: seq<Operation>, scope: nat, action: Action,
                     coverage: Entry -> bool)
    returns (store: Store, list: seq<Found>)
    requires Lawful(projectors)
    ensures fresh(store) && store.Valid() && store.projectors == projectors && NearestFirst(list)
    ensures AllCome(projectors, ops, scope, store.Entries(scope))
    ensures Elements(list) == Findable(projectors, store.Entries(scope), action, coverage)
    ensures NothingMissed(projectors, store.Entries(scope)) <==>
      NoneStrays(projectors, ops, scope, store.Entries(scope))
    ensures NoneStrays(projectors, ops, scope, store.Entries(scope)) ==>
      Elements(list) == Scan(projectors, store.Entries(scope), action, coverage)
    ensures (forall op :: op in ops ==> !Misfiles(projectors, op)) ==>
      NoneStrays(projectors, ops, scope, store.Entries(scope))
  {
    store := new Store(projectors);
    PerformAll(store, ops);
    list := store.Lookup(scope, action, coverage);
    ghost var entries := store.Entries(scope);
    NothingMissedExactly(projectors, ops, scope, entries);
    if NoneStrays(projectors, ops, scope, entries) { assert FindsAll(projectors, entries, action, coverage); }
    forall op | op in ops && Strays(projectors, op) ensures Misfiles(projectors, op) {
      StrayIsMisfiled(projectors, op);
    }
  }
}

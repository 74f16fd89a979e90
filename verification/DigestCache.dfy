/** Digests cached under a file's identity and change times.  The kernel stamps a write when it starts, with a time
    that lags the clock by no more than the device's granularity, and the bytes follow piece by piece; the cache trusts
    a digest only if its read began long enough after the file's stamps.  Reads, writes and lookups interleave in any
    order, so a read may see half of a write.  A digest stands for the bytes it was taken of. */
module DigestCache {
  import opened Basics

  datatype FileId = FileId(dev: nat, ino: nat)

  /** Times in nanoseconds.  The rest is history: when the last write was stamped, and the step and the time of the last
      change of the content. */
  datatype File = File(content: Bytes, mtime: nat, ctime: nat, stampedAt: nat, changed: nat, changedAt: nat)

  /** What `stat` tells, and the key of the cache. */
  datatype Identity = Identity(file: FileId, size: nat, mtime: nat, ctime: nat)

  /** A capture in progress: the clock is read first, then the file is opened, read piece by piece, and stat'ed again.
      `begun` and `begunAt` are history. */
  datatype Session = Session(takenAtMs: nat, before: Option<Identity>, read: Bytes, atEnd: bool, begun: nat,
    begunAt: nat)

  datatype Entry = Entry(hash: Bytes, takenAtMs: nat, begun: nat, begunAt: nat)

  datatype State = State(step: nat, now: nat, files: map<FileId, File>, sessions: map<nat, Session>,
    cache: map<Identity, Entry>)

  /** `fast` are the devices known to stamp with the kernel's tick; `lag` is how far a device's stamps really lag the
      clock at most, and `span` how long at most the bytes of a write keep coming after its stamp. */
  datatype Setting = Setting(fast: nat -> bool, lag: nat -> nat, span: nat -> nat)

  datatype Event =
    | Pass(nanoseconds: nat)
    | Create(file: FileId, stamp: nat)                          // an empty file, perhaps under an old number
    | StartWrite(file: FileId, stamp: nat)                      // puts the stamp
    | Data(file: FileId, content: Bytes)                        // brings some of the bytes
    | Touch(file: FileId, mtime: nat, stamp: nat)               // mtime at the caller's choice
    | Begin(session: nat)
    | OpenFile(session: nat, file: FileId)
    | ReadSome(session: nat, count: nat)
    | SeeEnd(session: nat)
    | Finish(session: nat)
    | Abandon(session: nat)
    | Forget(key: Identity)

  const MILLISECOND: nat := 1000000

  function Threshold(w: Setting, dev: nat): nat {
    if w.fast(dev) then 100 else 2000
  }

  function Later(a: nat, b: nat): nat {
    if a > b then a else b
  }

  function Stat(s: State, f: FileId): Identity
    requires f in s.files
  {
    Identity(f, |s.files[f].content|, s.files[f].mtime, s.files[f].ctime)
  }

  /** The digest was begun long enough after the file's last stamp, by whole milliseconds. */
  predicate Settled(w: Setting, i: Identity, takenAtMs: nat) {
    takenAtMs - Later(i.mtime, i.ctime) / MILLISECOND >= Threshold(w, i.file.dev)
  }

  /** The digest the cache offers for a file, if any. */
  function CachedCapture(w: Setting, s: State, f: FileId): Option<Bytes>
    requires f in s.files
  {
    var key := Stat(s, f);
    if key in s.cache && Settled(w, key, s.cache[key].takenAtMs) then Some(s.cache[key].hash) else None
  }

  /** A stamp the device may put on a change now. */
  predicate Stamps(w: Setting, s: State, f: FileId, stamp: nat) {
    stamp <= s.now <= stamp + w.lag(f.dev) && (f in s.files ==> s.files[f].ctime <= stamp)
  }

  predicate Enabled(w: Setting, s: State, e: Event) {
    match e
    case Pass(_) => true
    case Create(f, stamp) => Stamps(w, s, f, stamp)
    case StartWrite(f, stamp) => f in s.files && Stamps(w, s, f, stamp)
    case Data(f, _) => f in s.files && s.now <= s.files[f].stampedAt + w.span(f.dev)
    case Touch(f, _, stamp) => f in s.files && Stamps(w, s, f, stamp)
    case Begin(k) => k !in s.sessions
    case OpenFile(k, f) => k in s.sessions && s.sessions[k].before.None? && f in s.files
    case ReadSome(k, n) =>
      && k in s.sessions && s.sessions[k].before.Some? && !s.sessions[k].atEnd &&
         s.sessions[k].before.value.file in s.files
      && n > 0 && |s.sessions[k].read| + n <= |s.files[s.sessions[k].before.value.file].content|
    case SeeEnd(k) =>
      && k in s.sessions && s.sessions[k].before.Some? && s.sessions[k].before.value.file in s.files
      && |s.sessions[k].read| >= |s.files[s.sessions[k].before.value.file].content|
    case Finish(k) =>
      k in s.sessions && s.sessions[k].before.Some? && s.sessions[k].atEnd && s.sessions[k].before.value.file in s.files
    case Abandon(k) => k in s.sessions
    case Forget(_) => true
  }

  function Read(s: State, k: nat, n: nat): Session
    requires k in s.sessions && s.sessions[k].before.Some? && s.sessions[k].before.value.file in s.files
    requires |s.sessions[k].read| + n <= |s.files[s.sessions[k].before.value.file].content|
  {
    var x := s.sessions[k];
    var content := s.files[x.before.value.file].content;
    x.(read := x.read + content[|x.read|..|x.read| + n])
  }

  /** The end of a capture: published only if the file's identity is what it was and its size is what was read. */
  function Published(s: State, k: nat): State
    requires k in s.sessions && s.sessions[k].before.Some? && s.sessions[k].before.value.file in s.files
  {
    var x := s.sessions[k];
    var after := Stat(s, x.before.value.file);
    var s1 := s.(sessions := s.sessions - {k});
    if |x.read| == x.before.value.size && after == x.before.value
    then s1.(cache := s.cache[after := Entry(x.read, x.takenAtMs, x.begun, x.begunAt)])
    else s1
  }

  function Apply(w: Setting, s: State, e: Event): State
    requires Enabled(w, s, e)
  {
    match e
    case Pass(n) => s.(now := s.now + n)
    case Create(f, stamp) => s.(files := s.files[f := File([], stamp, stamp, s.now, s.step, s.now)])
    case StartWrite(f, stamp) =>
      s.(files := s.files[f := s.files[f].(mtime := stamp, ctime := stamp, stampedAt := s.now)])
    case Data(f, content) =>
      s.(files := s.files[f := s.files[f].(content := content, changed := s.step, changedAt := s.now)])
    case Touch(f, mtime, stamp) => s.(files := s.files[f := s.files[f].(mtime := mtime, ctime := stamp)])
    case Begin(k) => s.(sessions := s.sessions[k := Session(s.now / MILLISECOND, None, [], false, s.step, s.now)])
    case OpenFile(k, f) => s.(sessions := s.sessions[k := s.sessions[k].(before := Some(Stat(s, f)))])
    case ReadSome(k, n) => s.(sessions := s.sessions[k := Read(s, k, n)])
    case SeeEnd(k) => s.(sessions := s.sessions[k := s.sessions[k].(atEnd := true)])
    case Finish(k) => Published(s, k)
    case Abandon(k) => s.(sessions := s.sessions - {k})
    case Forget(key) => s.(cache := s.cache - {key})
  }

  function Step(w: Setting, s: State, e: Event): State
    requires Enabled(w, s, e)
  {
    Apply(w, s, e).(step := s.step + 1)
  }

  predicate Possible(w: Setting, s: State, run: seq<Event>)
    decreases |run|
  {
    run == [] || (Enabled(w, s, run[0]) && Possible(w, Step(w, s, run[0]), run[1..]))
  }

  function Run(w: Setting, s: State, run: seq<Event>): State
    requires Possible(w, s, run)
    decreases |run|
  {
    if run == [] then s else Run(w, Step(w, s, run[0]), run[1..])
  }

  /** A file carries a stamp its device may have put, and its last change belongs to a write so stamped. */
  predicate FileInv(w: Setting, s: State, f: FileId)
    requires f in s.files
  {
    var file := s.files[f];
    && file.changed < s.step && file.changedAt <= s.now && file.stampedAt <= s.now
    && file.stampedAt <= file.ctime + w.lag(f.dev)
    && file.changedAt <= file.ctime + w.lag(f.dev) + w.span(f.dev)
  }

  /** No capture has been made; files carry stamps their devices may have put. */
  predicate Initial(w: Setting, s: State) {
    && s.sessions == map[] && s.cache == map[]
    && forall f :: f in s.files ==> FileInv(w, s, f)
  }

  /** What the cache offers is the digest of what the file holds. */
  ghost predicate Fresh(w: Setting, s: State) {
    forall f :: f in s.files && CachedCapture(w, s, f).Some? ==> CachedCapture(w, s, f).value == s.files[f].content
  }

  ghost predicate AlwaysFresh(w: Setting) {
    forall s, run :: Initial(w, s) && Possible(w, s, run) ==> Fresh(w, Run(w, s, run))
  }

  /** What the rule tolerates between a stamp and the last byte of its write.  Both times are cut to whole
      milliseconds, so it is not the threshold itself but one millisecond less. */
  function Tolerated(w: Setting, dev: nat): nat {
    (Threshold(w, dev) - 1) * MILLISECOND
  }

  ghost predicate Tolerable(w: Setting) {
    forall dev: nat :: w.lag(dev) + w.span(dev) <= Tolerated(w, dev)
  }

  // ---------------------------------------------------------------- within the tolerance the cache is always fresh

  /** A digest begun at step `begun` and time `at`: the file's last change came before, or at no earlier time. */
  predicate Dated(f: File, begun: nat, at: nat) {
    f.changed != begun && (f.changed > begun ==> f.changedAt >= at)
  }

  predicate SessionInv(s: State, x: Session) {
    && x.begun < s.step && x.begunAt <= s.now && x.takenAtMs == x.begunAt / MILLISECOND
    && (forall f :: f in s.files ==> Dated(s.files[f], x.begun, x.begunAt))
    && (x.before.Some? ==> x.before.value.file in s.files && Reads(s.files[x.before.value.file], x))
    && (x.before.None? ==> x.read == [] && !x.atEnd)
  }

  /** As long as the file has not changed since the capture began, what was read is what it holds. */
  predicate Reads(f: File, x: Session) {
    f.changed < x.begun ==> x.read <= f.content && (x.atEnd ==> x.read == f.content)
  }

  predicate EntryInv(s: State, key: Identity, e: Entry) {
    && e.begun < s.step && e.begunAt <= s.now && e.takenAtMs == e.begunAt / MILLISECOND && key.file in s.files
    && (forall f :: f in s.files ==> Dated(s.files[f], e.begun, e.begunAt))
    && (s.files[key.file].changed < e.begun ==> e.hash == s.files[key.file].content)
  }

  predicate Inv(w: Setting, s: State) {
    && (forall f :: f in s.files ==> FileInv(w, s, f))
    && (forall k :: k in s.sessions ==> SessionInv(s, s.sessions[k]))
    && (forall key :: key in s.cache ==> EntryInv(s, key, s.cache[key]))
  }

  /** A change of the content now, by a new file or the bytes of a write. */
  lemma {:induction false} ChangeKeepsInv(w: Setting, s: State, e: Event)
    requires Inv(w, s) && Enabled(w, s, e) && (e.Create? || e.Data?)
    ensures Inv(w, Step(w, s, e))
  {
    var t := Step(w, s, e);
    forall f | f in t.files ensures FileInv(w, t, f) {
      if f in s.files { assert FileInv(w, s, f); }
    }
    forall k | k in t.sessions ensures SessionInv(t, t.sessions[k]) {
      assert SessionInv(s, s.sessions[k]);
    }
    forall key | key in t.cache ensures EntryInv(t, key, t.cache[key]) {
      assert EntryInv(s, key, s.cache[key]);
    }
  }

  /** A newer stamp on the same content. */
  lemma {:induction false} TouchKeepsInv(w: Setting, s: State, e: Event)
    requires Inv(w, s) && Enabled(w, s, e) && (e.Touch? || e.StartWrite?)
    ensures Inv(w, Step(w, s, e))
  {
    var t := Step(w, s, e);
    forall f | f in t.files ensures FileInv(w, t, f) {
      assert FileInv(w, s, f);
    }
    forall k | k in t.sessions ensures SessionInv(t, t.sessions[k]) {
      assert SessionInv(s, s.sessions[k]);
    }
    forall key | key in t.cache ensures EntryInv(t, key, t.cache[key]) {
      assert EntryInv(s, key, s.cache[key]);
    }
  }

  /** Steps that leave files alone and add at most one session or one entry. */
  lemma {:induction false} QuietKeepsInv(w: Setting, s: State, t: State)
    requires Inv(w, s) && t.files == s.files && t.step == s.step + 1 && t.now >= s.now
    requires forall k :: k in t.sessions ==>
      (k in s.sessions && t.sessions[k] == s.sessions[k]) || SessionInv(t, t.sessions[k])
    requires forall key :: key in t.cache ==>
      (key in s.cache && t.cache[key] == s.cache[key]) || EntryInv(t, key, t.cache[key])
    ensures Inv(w, t)
  {
    forall f | f in t.files ensures FileInv(w, t, f) {
      assert FileInv(w, s, f);
    }
    forall k | k in t.sessions ensures SessionInv(t, t.sessions[k]) {
      if k in s.sessions { assert SessionInv(s, s.sessions[k]); }
    }
    forall key | key in t.cache ensures EntryInv(t, key, t.cache[key]) {
      if key in s.cache { assert EntryInv(s, key, s.cache[key]); }
    }
  }

  lemma {:induction false} BeginKeepsInv(w: Setting, s: State, k: nat)
    requires Inv(w, s) && k !in s.sessions
    ensures Inv(w, Step(w, s, Begin(k)))
  {
    var t := Step(w, s, Begin(k));
    forall f | f in s.files ensures Dated(s.files[f], s.step, s.now) {
      assert FileInv(w, s, f);
    }
    assert SessionInv(t, t.sessions[k]);
    QuietKeepsInv(w, s, t);
  }

  lemma {:induction false} ReadKeepsInv(w: Setting, s: State, e: Event)
    requires Inv(w, s) && Enabled(w, s, e) && (e.OpenFile? || e.ReadSome? || e.SeeEnd?)
    ensures Inv(w, Step(w, s, e))
  {
    var t, k := Step(w, s, e), e.session;
    assert SessionInv(s, s.sessions[k]);
    assert SessionInv(t, t.sessions[k]);
    QuietKeepsInv(w, s, t);
  }

  lemma {:induction false} FinishKeepsInv(w: Setting, s: State, k: nat)
    requires Inv(w, s) && Enabled(w, s, Finish(k))
    ensures Inv(w, Step(w, s, Finish(k)))
  {
    var t, x := Step(w, s, Finish(k)), s.sessions[k];
    var key := x.before.value;
    assert SessionInv(s, x);
    var e := Entry(x.read, x.takenAtMs, x.begun, x.begunAt);
    assert EntryInv(t, key, e);
    QuietKeepsInv(w, s, t);
  }

  lemma {:induction false} StepKeepsInv(w: Setting, s: State, e: Event)
    requires Inv(w, s) && Enabled(w, s, e)
    ensures Inv(w, Step(w, s, e))
  {
    match e
    case Create(_, _) => ChangeKeepsInv(w, s, e);
    case Data(_, _) => ChangeKeepsInv(w, s, e);
    case StartWrite(_, _) => TouchKeepsInv(w, s, e);
    case Touch(_, _, _) => TouchKeepsInv(w, s, e);
    case Begin(k) => BeginKeepsInv(w, s, k);
    case Finish(k) => FinishKeepsInv(w, s, k);
    case OpenFile(_, _) => ReadKeepsInv(w, s, e);
    case ReadSome(_, _) => ReadKeepsInv(w, s, e);
    case SeeEnd(_) => ReadKeepsInv(w, s, e);
    case Pass(_) => QuietKeepsInv(w, s, Step(w, s, e));
    case Abandon(_) => QuietKeepsInv(w, s, Step(w, s, e));
    case Forget(_) => QuietKeepsInv(w, s, Step(w, s, e));
  }

  lemma {:induction false} RunKeepsInv(w: Setting, s: State, run: seq<Event>)
    requires Inv(w, s) && Possible(w, s, run)
    ensures Inv(w, Run(w, s, run))
    decreases |run|
  {
    if run != [] {
      StepKeepsInv(w, s, run[0]);
      RunKeepsInv(w, Step(w, s, run[0]), run[1..]);
    }
  }

  /** The arithmetic of the rule: a stamp that lags a change by no more than is tolerated cannot be old enough for a
      digest begun no later than the change. */
  lemma {:induction false} TooRecent(changedAt: nat, stamp: nat, begunAt: nat, behind: nat, threshold: nat)
    requires begunAt <= changedAt <= stamp + behind && threshold > 0 && behind <= (threshold - 1) * MILLISECOND
    ensures begunAt / MILLISECOND - stamp / MILLISECOND < threshold
  {
  }

  lemma {:induction false} InvIsFresh(w: Setting, s: State)
    requires Inv(w, s) && Tolerable(w)
    ensures Fresh(w, s)
  {
    forall f | f in s.files && CachedCapture(w, s, f).Some? ensures CachedCapture(w, s, f).value == s.files[f].content {
      var key := Stat(s, f);
      var e := s.cache[key];
      assert EntryInv(s, key, e) && FileInv(w, s, f);
      ChangedIsNotSettled(w, s, f, e);
    }
  }

  lemma {:induction false} ChangedIsNotSettled(w: Setting, s: State, f: FileId, e: Entry)
    requires f in s.files && EntryInv(s, Stat(s, f), e) && FileInv(w, s, f) && Tolerable(w)
    ensures s.files[f].changed > e.begun ==> !Settled(w, Stat(s, f), e.takenAtMs)
  {
    if s.files[f].changed > e.begun {
      TooRecent(s.files[f].changedAt, s.files[f].ctime, e.begunAt, w.lag(f.dev) + w.span(f.dev), Threshold(w, f.dev));
    }
  }

  // ---------------------------------------------------------------- beyond it, it is not

  /** A write stamped late in a millisecond, at `start`; a capture begun at `at`, early in one; and bytes of the write,
      of the same size, right after the read. */
  function Race(f: FileId, start: nat, at: nat, i: nat): State {
    var old_ := File([1], 999999, 999999, 999999, 0, 999999);
    var open := old_.(stampedAt := start);
    var new_ := File([2], 999999, 999999, start, 7, at);
    var key := Identity(f, 1, 999999, 999999);
    var begun := Session(at / MILLISECOND, None, [], false, 3, at);
    var read := begun.(before := Some(key), read := [1]);
    if i == 0 then State(1, start, map[f := old_], map[], map[])
    else if i == 1 then State(2, start, map[f := open], map[], map[])
    else if i == 2 then State(3, at, map[f := open], map[], map[])
    else if i == 3 then State(4, at, map[f := open], map[0 := begun], map[])
    else if i == 4 then State(5, at, map[f := open], map[0 := begun.(before := Some(key))], map[])
    else if i == 5 then State(6, at, map[f := open], map[0 := read], map[])
    else if i == 6 then State(7, at, map[f := open], map[0 := read.(atEnd := true)], map[])
    else if i == 7 then State(8, at, map[f := new_], map[0 := read.(atEnd := true)], map[])
    else State(9, at, map[f := new_], map[], map[key := Entry([1], at / MILLISECOND, 3, at)])
  }

  function RaceEvent(f: FileId, start: nat, at: nat, i: nat): Event
    requires at >= start
  {
    if i == 0 then StartWrite(f, 999999)
    else if i == 1 then Pass(at - start)
    else if i == 2 then Begin(0)
    else if i == 3 then OpenFile(0, f)
    else if i == 4 then ReadSome(0, 1)
    else if i == 5 then SeeEnd(0)
    else if i == 6 then Data(f, [2])
    else Finish(0)
  }

  predicate Racing(w: Setting, f: FileId, start: nat, at: nat) {
    999999 <= start <= 999999 + w.lag(f.dev) && start <= at <= start + w.span(f.dev)
  }

  lemma {:induction false} RaceSteps(w: Setting, f: FileId, start: nat, at: nat, i: nat)
    requires i < 8 && Racing(w, f, start, at)
    ensures Enabled(w, Race(f, start, at, i), RaceEvent(f, start, at, i))
    ensures Step(w, Race(f, start, at, i), RaceEvent(f, start, at, i)) == Race(f, start, at, i + 1)
  {
    if i == 4 {
      assert [] + [1][0..1] == [1];
    } else if i == 7 {
      var s := Race(f, start, at, 7);
      assert Stat(s, f) == s.sessions[0].before.value == Identity(f, 1, 999999, 999999);
      assert s.sessions - {0} == map[];
      assert Published(s, 0).cache == Race(f, start, at, 8).cache;
    }
  }

  lemma {:induction false} RaceRuns(w: Setting, f: FileId, start: nat, at: nat, i: nat) returns (run: seq<Event>)
    requires i <= 8 && Racing(w, f, start, at)
    ensures Possible(w, Race(f, start, at, i), run) && Run(w, Race(f, start, at, i), run) == Race(f, start, at, 8)
    decreases 8 - i
  {
    if i == 8 {
      run := [];
    } else {
      RaceSteps(w, f, start, at, i);
      var rest := RaceRuns(w, f, start, at, i + 1);
      run := [RaceEvent(f, start, at, i)] + rest;
      assert run[1..] == rest;
    }
  }

  lemma {:induction false} RaceEndsStale(w: Setting, f: FileId, start: nat, at: nat)
    requires at == Threshold(w, f.dev) * MILLISECOND && Racing(w, f, start, at)
    ensures Initial(w, Race(f, start, at, 0))
    ensures !Fresh(w, Race(f, start, at, 8))
  {
    assert FileInv(w, Race(f, start, at, 0), f);
    var s := Race(f, start, at, 8);
    assert Stat(s, f) == Identity(f, 1, 999999, 999999);
    assert CachedCapture(w, s, f) == Some([1]) && s.files[f].content == [2];
  }

  /** The cache is fresh in every run exactly if on every device the lag of a stamp and the span of a write together are
      within the tolerance. */
  lemma {:induction false} FreshExactlyWithinTolerance(w: Setting)
    ensures AlwaysFresh(w) <==> Tolerable(w)
  {
    if Tolerable(w) {
      WithinTolerance(w);
    } else {
      var dev: nat :| w.lag(dev) + w.span(dev) > Tolerated(w, dev);
      BeyondTolerance(w, dev);
    }
  }

  lemma {:induction false} WithinTolerance(w: Setting)
    requires Tolerable(w)
    ensures AlwaysFresh(w)
  {
    forall s, run | Initial(w, s) && Possible(w, s, run) ensures Fresh(w, Run(w, s, run)) {
      RunKeepsInv(w, s, run);
      InvIsFresh(w, Run(w, s, run));
    }
  }

  lemma {:induction false} BeyondTolerance(w: Setting, dev: nat)
    requires w.lag(dev) + w.span(dev) > Tolerated(w, dev)
    ensures !AlwaysFresh(w)
  {
    var f := FileId(dev, 0);
    var at := Threshold(w, dev) * MILLISECOND;
    var start := if at - 999999 > w.span(dev) then at - w.span(dev) else 999999;
    RaceEndsStale(w, f, start, at);
    var first := Race(f, start, at, 0);
    var run := RaceRuns(w, f, start, at, 0);
    assert Initial(w, first) && Possible(w, first, run) && !Fresh(w, Run(w, first, run));
  }

  // ---------------------------------------------------------------- what is published

  predicate SizesMatch(s: State) {
    forall key :: key in s.cache ==> |s.cache[key].hash| == key.size
  }

  /** A capture puts away what it read, whole, under the identity the file had when it was opened, exactly if it still
      has it and that is its size; otherwise it puts away nothing. */
  lemma {:induction false} FinishExactly(w: Setting, s: State, k: nat)
    requires Enabled(w, s, Finish(k))
    ensures var x := s.sessions[k]; var was := x.before.value; var t := Step(w, s, Finish(k));
      && k !in t.sessions && t.files == s.files
      && (forall key :: key in t.cache ==> key == was || (key in s.cache && t.cache[key] == s.cache[key]))
      && (forall key :: key in s.cache && key != was ==> key in t.cache)
      && (Stat(s, was.file) == was && |x.read| == was.size ==>
           was in t.cache && t.cache[was] == Entry(x.read, x.takenAtMs, x.begun, x.begunAt))
      && (Stat(s, was.file) != was || |x.read| != was.size ==> t.cache == s.cache)
  {
  }

  /** In every run each digest is of as many bytes as the identity it is kept under says. */
  lemma {:induction false} DigestsHaveTheirSize(w: Setting, s: State, run: seq<Event>)
    requires SizesMatch(s) && Possible(w, s, run)
    ensures SizesMatch(Run(w, s, run))
    decreases |run|
  {
    if run != [] {
      if run[0].Finish? { FinishExactly(w, s, run[0].session); }
      DigestsHaveTheirSize(w, Step(w, s, run[0]), run[1..]);
    }
  }
}

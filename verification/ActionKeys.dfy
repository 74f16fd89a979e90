/** When a result computed for one action may answer another: exact identity, or one of the projections, each with a
    coarse partition that makes lookup by index possible. */
module ActionKeys {
  import opened Basics

  datatype Value = Text(text: string) | Number(number: real) | Flag(flag: bool) | Structured(form: nat)

  type Input = map<string, Value>

  /** A canonical action.  Its key is the injective encoding of everything but the resources. */
  datatype Action = Action(tool: string, epoch: string, schema: string, fingerprint: string, input: Input,
    resources: seq<string>) {
    function Key(): Key {
      Identity(tool, epoch, schema, fingerprint, input)
    }
  }

  datatype Key = Identity(tool: string, epoch: string, schema: string, fingerprint: string, input: Input)

  /** What a partition tells apart: an injective encoding, so its parts. */
  datatype Shape =
    | ReadShape(epoch: string, schema: string, fingerprint: string, resources: seq<string>, path: string)
    | RestShape(epoch: string, schema: string, fingerprint: string, resources: seq<string>, rest: Input)

  datatype Projected = Projected(action: Action, distance: real)

  /** A rule by which one action's result can answer another.  A callback that throws is one that yields nothing. */
  datatype Projector = Projector(
    id: string,
    partition: Action -> Option<Shape>,
    project: (Action, Action) -> Option<Projected>,
    shares: Option<(Action, Action) -> bool>)

  datatype Match = Exact | Through(projector: string, distance: real) {
    function Distance(): real {
      if Exact? then 0.0 else distance
    }
  }

  // ---------------------------------------------------------------- matching

  predicate SameContract(speculative: Action, actor: Action) {
    && speculative.tool == actor.tool && speculative.epoch == actor.epoch
    && speculative.schema == actor.schema && speculative.fingerprint == actor.fingerprint
  }

  /** The distance at which a projector takes `speculative` to `actor`, if it does. */
  function Accepts(p: Projector, speculative: Action, actor: Action, coverage: bool): Option<real> {
    if coverage && (p.shares.None? || !p.shares.value(speculative, actor)) then None
    else
      match p.project(speculative, actor)
      case None => None
      case Some(r) => if r.action.Key() == actor.Key() && r.distance >= 0.0 then Some(r.distance) else None
  }

  /** The best of the first `n` projectors: the nearest, and among equals the first. */
  predicate Best(projectors: seq<Projector>, n: nat, speculative: Action, actor: Action, coverage: bool,
                 best: Option<Match>)
    requires n <= |projectors|
  {
    match best
    case None => forall i :: 0 <= i < n ==> Accepts(projectors[i], speculative, actor, coverage).None?
    case Some(Exact) => false
    case Some(Through(id, d)) =>
      && (exists i ::
           && 0 <= i < n && projectors[i].id == id && Accepts(projectors[i], speculative, actor, coverage) == Some(d)
           && forall j :: 0 <= j < i ==> Farther(projectors[j], speculative, actor, coverage, d))
      && forall i :: 0 <= i < n && Accepts(projectors[i], speculative, actor, coverage).Some? ==>
           d <= Accepts(projectors[i], speculative, actor, coverage).value
  }

  predicate Farther(p: Projector, speculative: Action, actor: Action, coverage: bool, d: real) {
    Accepts(p, speculative, actor, coverage).Some? ==> d < Accepts(p, speculative, actor, coverage).value
  }

  /** How `speculative` matches `actor`; the function the lookup is specified by. */
  function MatchOf(projectors: seq<Projector>, speculative: Action, actor: Action, coverage: bool): Option<Match> {
    if speculative.Key() == actor.Key() then Some(Exact)
    else if !SameContract(speculative, actor) then None
    else Nearest(projectors, |projectors|, speculative, actor, coverage)
  }

  function Nearest(projectors: seq<Projector>, n: nat, speculative: Action, actor: Action,
                   coverage: bool): Option<Match>
    requires n <= |projectors|
  {
    if n == 0 then None
    else
      var best := Nearest(projectors, n - 1, speculative, actor, coverage);
      match Accepts(projectors[n - 1], speculative, actor, coverage)
      case None => best
      case Some(d) => if best.Some? && best.value.Distance() <= d then best else Some(Through(projectors[n - 1].id, d))
  }

  lemma {:induction false} NearestIsBest(projectors: seq<Projector>, n: nat, speculative: Action, actor: Action,
                                         coverage: bool)
    requires n <= |projectors|
    ensures Best(projectors, n, speculative, actor, coverage, Nearest(projectors, n, speculative, actor, coverage))
    decreases n
  {
    if n > 0 {
      NearestIsBest(projectors, n - 1, speculative, actor, coverage);
      var before := Nearest(projectors, n - 1, speculative, actor, coverage);
      var now := Nearest(projectors, n, speculative, actor, coverage);
      if before.Some? && now == before {
        var i :| 0 <= i < n - 1 && projectors[i].id == before.value.projector &&
                 Accepts(projectors[i], speculative, actor, coverage) == Some(before.value.distance) &&
                 forall j :: 0 <= j < i ==> Farther(projectors[j], speculative, actor, coverage, before.value.distance);
        assert i < n;
      } else if now.Some? {
        assert projectors[n - 1].id == now.value.projector;
        assert forall j :: 0 <= j < n - 1 ==> Farther(projectors[j], speculative, actor, coverage, now.value.distance);
      }
    }
  }

  method FindMatch(projectors: seq<Projector>, speculative: Action, actor: Action, coverage: bool)
    returns (best: Option<Match>)
    ensures best == MatchOf(projectors, speculative, actor, coverage)
    ensures best == Some(Exact) <==> speculative.Key() == actor.Key()
    ensures speculative.Key() != actor.Key() && SameContract(speculative, actor) ==>
      Best(projectors, |projectors|, speculative, actor, coverage, best)
  {
    if speculative.Key() == actor.Key() { return Some(Exact); }
    if !SameContract(speculative, actor) { return None; }
    NearestIsBest(projectors, |projectors|, speculative, actor, coverage);
    best := None;
    for i := 0 to |projectors|
      invariant best == Nearest(projectors, i, speculative, actor, coverage)
    {
      var p := projectors[i];
      if coverage && (p.shares.None? || !p.shares.value(speculative, actor)) { continue; }
      var projected := p.project(speculative, actor);
      if projected.None? || projected.value.action.Key() != actor.Key() { continue; }
      if projected.value.distance < 0.0 { continue; }
      if best.Some? && best.value.Distance() <= projected.value.distance { continue; }
      best := Some(Through(p.id, projected.value.distance));
    }
  }

  /** The contract on which indexed lookup rests: accepted pairs lie in one partition. */
  ghost predicate Respects(p: Projector) {
    forall s, a :: p.project(s, a).Some? ==> p.partition(s).Some? && p.partition(s) == p.partition(a)
  }

  /** Two actions that match by projection share a partition of some projector that has one. */
  lemma {:induction false} MatchSharesPartition(projectors: seq<Projector>, n: nat, speculative: Action,
                                                actor: Action, coverage: bool)
    requires n <= |projectors| && forall i :: 0 <= i < n ==> Respects(projectors[i])
    requires Nearest(projectors, n, speculative, actor, coverage).Some?
    ensures exists i :: 0 <= i < n && projectors[i].partition(speculative).Some? &&
              projectors[i].partition(speculative) == projectors[i].partition(actor)
    decreases n
  {
    if Accepts(projectors[n - 1], speculative, actor, coverage).Some? {
      assert Respects(projectors[n - 1]);
    } else {
      MatchSharesPartition(projectors, n - 1, speculative, actor, coverage);
    }
  }

  // ---------------------------------------------------------------- the three projectors

  const READ_DEFAULT_OFFSET: int := 1
  const READ_DEFAULT_LIMIT: int := 2000
  const MAX_SAFE_INTEGER: int := 9007199254740991

  datatype Range = Range(path: string, offset: int, limit: int) {
    function End(): int {
      offset + limit - 1
    }
  }

  function NumberIn(input: Input, name: string): Option<real> {
    if name in input && input[name].Number? then Some(input[name].number) else None
  }

  function TextIn(input: Input, name: string): Option<string> {
    if name in input && input[name].Text? then Some(input[name].text) else None
  }

  function ReadOffset(input: Input): int {
    match NumberIn(input, "offset")
    case Some(n) => if n >= 1.0 && n.Floor <= MAX_SAFE_INTEGER then n.Floor else READ_DEFAULT_OFFSET
    case None => READ_DEFAULT_OFFSET
  }

  function ReadLimit(input: Input): int {
    match NumberIn(input, "limit")
    case Some(n) => if n.Floor < 0 then 0 else n.Floor
    case None => READ_DEFAULT_LIMIT
  }

  function ReadRange(a: Action): Option<Range> {
    if a.tool == "read" && TextIn(a.input, "path").Some?
    then Some(Range(TextIn(a.input, "path").value, ReadOffset(a.input), ReadLimit(a.input)))
    else None
  }

  function ReadPartition(a: Action): Option<Shape> {
    match ReadRange(a)
    case None => None
    case Some(r) => Some(ReadShape(a.epoch, a.schema, a.fingerprint, a.resources, r.path))
  }

  function Magnitude(n: int): int {
    if n < 0 then -n else n
  }

  function ReadProject(speculative: Action, actor: Action): Option<Projected> {
    var s, a := ReadRange(speculative), ReadRange(actor);
    if s.None? || a.None? then None
    else if ReadPartition(speculative) != ReadPartition(actor) || s.value.limit == 0
         || s.value.offset > a.value.offset || a.value.offset > s.value.End() + 1 then None
    else Some(Projected(actor, (a.value.offset - s.value.offset + Magnitude(s.value.End() - a.value.End())) as real))
  }

  predicate ReadShares(speculative: Action, actor: Action) {
    var s, a := ReadRange(speculative), ReadRange(actor);
    && s.Some? && a.Some?
    && !("limit" !in actor.input && "limit" in speculative.input)
    && ReadPartition(speculative) == ReadPartition(actor)
    && s.value.offset <= a.value.offset && s.value.End() >= a.value.End()
  }

  function Without(input: Input, names: set<string>): Input {
    input - names
  }

  function BashPartition(a: Action): Option<Shape> {
    if a.tool == "bash" && TextIn(a.input, "command").Some?
    then Some(RestShape(a.epoch, a.schema, a.fingerprint, a.resources, Without(a.input, {"timeout"})))
    else None
  }

  /** No timeout is an infinite one. */
  predicate NoShorter(actor: Option<real>, speculative: Option<real>) {
    actor.None? || (speculative.Some? && actor.value >= speculative.value)
  }

  predicate BashCovers(speculative: Action, actor: Action) {
    && BashPartition(speculative).Some? && BashPartition(speculative) == BashPartition(actor)
    && NoShorter(NumberIn(actor.input, "timeout"), NumberIn(speculative.input, "timeout"))
  }

  function BashProject(speculative: Action, actor: Action): Option<Projected> {
    if BashCovers(speculative, actor) then Some(Projected(actor, 1.0)) else None
  }

  predicate WordLike(c: char) {
    'a' <= c <= 'z' || 'A' <= c <= 'Z' || '0' <= c <= '9' || c == '_' || c == ' ' || c == '-'
  }

  predicate Every(s: string, admitted: char -> bool) {
    s != "" && forall i :: 0 <= i < |s| ==> admitted(s[i])
  }

  predicate Truthy(input: Input, name: string) {
    name in input &&
    match input[name]
    case Text(t) => t != ""
    case Number(n) => n != 0.0
    case Flag(b) => b
    case Structured(_) => true
  }

  function GrepPartition(a: Action): Option<Shape> {
    var pattern := TextIn(a.input, "pattern");
    var literal := "literal" in a.input && a.input["literal"] == Flag(true);
    if a.tool != "grep" || pattern.None? then None
    else if !literal && !Every(pattern.value, (c: char) => WordLike(c)) then None
    else if NumberIn(a.input, "context") != Some(0.0) then None
    else if !Every(pattern.value, if Truthy(a.input, "ignoreCase") then (c: char) => ' ' <= c <= '~'
                                  else (c: char) => c != '\r' && c != '\n' && c != '\U{FFFD}') then None
    else Some(RestShape(a.epoch, a.schema, a.fingerprint, a.resources, Without(a.input, {"pattern", "limit"})))
  }

  function Fold(c: char): char {
    if 'A' <= c <= 'Z' then (c as int + 32) as char else c
  }

  predicate ContainsAt(text: string, literal: string, ignoreCase: bool, i: nat)
    requires i + |literal| <= |text|
  {
    forall k :: 0 <= k < |literal| ==>
      if ignoreCase then Fold(text[i + k]) == Fold(literal[k]) else text[i + k] == literal[k]
  }

  predicate Contains(text: string, literal: string, ignoreCase: bool) {
    exists i :: 0 <= i <= |text| - |literal| && ContainsAt(text, literal, ignoreCase, i)
  }

  function GrepProject(speculative: Action, actor: Action): Option<Projected> {
    var found, sought := TextIn(speculative.input, "pattern"), TextIn(actor.input, "pattern");
    if && GrepPartition(speculative).Some? && GrepPartition(speculative) == GrepPartition(actor)
       && found.Some? && sought.Some?
       && Contains(sought.value, found.value, "ignoreCase" in actor.input && actor.input["ignoreCase"] == Flag(true))
    then Some(Projected(actor, (|sought.value| - |found.value|) as real))
    else None
  }

  function ReadProjector(): Projector {
    Projector("read.range", ReadPartition, ReadProject, Some(ReadShares))
  }

  function BashProjector(): Projector {
    Projector("bash.timeout", BashPartition, BashProject, Some(BashCovers))
  }

  function GrepProjector(): Projector {
    Projector("grep.literal", GrepPartition, GrepProject, None)
  }

  /** All three keep the contract, and never at a negative distance, so an accepted pair is always a match. */
  lemma {:induction false} StockProjectorsRespectPartitions()
    ensures Respects(ReadProjector()) && Respects(BashProjector()) && Respects(GrepProjector())
    ensures forall s, a :: ReadProject(s, a).Some? ==> ReadProject(s, a).value.distance >= 0.0
    ensures forall s, a :: GrepProject(s, a).Some? ==> GrepProject(s, a).value.distance >= 0.0
  {
  }

  // ---------------------------------------------------------------- what acceptance means

  predicate InRange(r: Range, line: int) {
    r.offset <= line <= r.End()
  }

  predicate SameCircumstances(a: Action, b: Action) {
    a.epoch == b.epoch && a.schema == b.schema && a.fingerprint == b.fingerprint && a.resources == b.resources
  }

  /** A read is accepted exactly from one of the same file, in the same circumstances, that shows some line and that the
      asked one starts in or right behind; the distance is zero exactly if both ask for the same lines. */
  lemma {:induction false} ReadAcceptsExactly(speculative: Action, actor: Action)
    ensures var s, a := ReadRange(speculative), ReadRange(actor);
      ReadProject(speculative, actor).Some? <==>
        && s.Some? && a.Some? && SameCircumstances(speculative, actor) && s.value.path == a.value.path
        && s.value.limit > 0 && (InRange(s.value, a.value.offset) || InRange(s.value, a.value.offset - 1))
    ensures ReadProject(speculative, actor).Some? ==>
      var s, a := ReadRange(speculative).value, ReadRange(actor).value;
      ReadProject(speculative, actor).value.distance == 0.0 <==> s.offset == a.offset && s.limit == a.limit
  {
  }

  /** A read of some lines shares a running one exactly if that one, of the same file in the same circumstances, shows
      them all, and states a limit only if this one does. */
  lemma {:induction false} ReadSharesExactly(speculative: Action, actor: Action)
    requires ReadRange(actor).Some? ==> ReadRange(actor).value.limit > 0
    ensures var s, a := ReadRange(speculative), ReadRange(actor);
      ReadShares(speculative, actor) <==>
        && s.Some? && a.Some? && SameCircumstances(speculative, actor) && s.value.path == a.value.path
        && ("limit" in speculative.input ==> "limit" in actor.input)
        && forall line :: InRange(a.value, line) ==> InRange(s.value, line)
  {
    var s, a := ReadRange(speculative), ReadRange(actor);
    if s.Some? && a.Some? {
      assert InRange(a.value, a.value.offset) && InRange(a.value, a.value.End());
    }
  }

  predicate AgreeBut(a: Input, b: Input, names: set<string>) {
    && (forall name :: name in a && name !in names ==> name in b && a[name] == b[name])
    && (forall name :: name in b && name !in names ==> name in a)
  }

  lemma {:induction false} AgreeExactly(a: Input, b: Input, names: set<string>)
    ensures Without(a, names) == Without(b, names) <==> AgreeBut(a, b, names)
  {
    var x, y := Without(a, names), Without(b, names);
    if x == y {
      assert forall name :: name in a && name !in names ==> name in x && x[name] == a[name];
      assert forall name :: name in b && name !in names ==> name in y && y[name] == b[name];
    }
  }

  /** Within a timeout, if there is one, a command that takes so long finishes. */
  predicate Finishes(timeout: Option<real>, takes: real) {
    timeout.Some? ==> takes <= timeout.value
  }

  lemma {:induction false} NoShorterExactly(actor: Option<real>, speculative: Option<real>)
    ensures NoShorter(actor, speculative) <==>
      forall takes :: Finishes(speculative, takes) ==> Finishes(actor, takes)
  {
    if forall takes :: Finishes(speculative, takes) ==> Finishes(actor, takes) {
      if actor.Some? {
        assert Finishes(actor, if speculative.Some? then speculative.value else actor.value + 1.0) by {
          assert Finishes(speculative, if speculative.Some? then speculative.value else actor.value + 1.0);
        }
      }
    }
  }

  /** A command is accepted exactly from a run of the same command, in the same circumstances and with the same input
      but for the timeout, such that whatever finished there finishes here. */
  lemma {:induction false} BashCoversExactly(speculative: Action, actor: Action)
    ensures BashProject(speculative, actor).Some? <==>
      && speculative.tool == "bash" && actor.tool == "bash" && TextIn(speculative.input, "command").Some?
      && SameCircumstances(speculative, actor) && AgreeBut(speculative.input, actor.input, {"timeout"})
      && forall takes :: Finishes(NumberIn(speculative.input, "timeout"), takes) ==>
           Finishes(NumberIn(actor.input, "timeout"), takes)
  {
    AgreeExactly(speculative.input, actor.input, {"timeout"});
    NoShorterExactly(NumberIn(actor.input, "timeout"), NumberIn(speculative.input, "timeout"));
  }

  predicate Insensitive(a: Action) {
    "ignoreCase" in a.input && a.input["ignoreCase"] == Flag(true)
  }

  lemma {:induction false} ContainsThrough(text: string, sought: string, found: string, ignoreCase: bool)
    requires Contains(text, sought, ignoreCase) && Contains(sought, found, ignoreCase)
    ensures Contains(text, found, ignoreCase)
  {
    var i :| 0 <= i <= |text| - |sought| && ContainsAt(text, sought, ignoreCase, i);
    var j :| 0 <= j <= |sought| - |found| && ContainsAt(sought, found, ignoreCase, j);
    forall k | 0 <= k < |found|
      ensures if ignoreCase then Fold(text[i + j + k]) == Fold(found[k]) else text[i + j + k] == found[k]
    {
      assert if ignoreCase then Fold(text[i + (j + k)]) == Fold(sought[j + k]) else text[i + (j + k)] == sought[j + k];
    }
    assert ContainsAt(text, found, ignoreCase, i + j);
  }

  lemma {:induction false} ContainsItself(text: string, ignoreCase: bool)
    ensures Contains(text, text, ignoreCase)
  {
    assert ContainsAt(text, text, ignoreCase, 0);
  }

  lemma {:induction false} ContainsExactly(sought: string, found: string, ignoreCase: bool)
    ensures Contains(sought, found, ignoreCase) <==>
      forall line :: Contains(line, sought, ignoreCase) ==> Contains(line, found, ignoreCase)
  {
    ContainsItself(sought, ignoreCase);
    if Contains(sought, found, ignoreCase) {
      forall line | Contains(line, sought, ignoreCase) ensures Contains(line, found, ignoreCase) {
        ContainsThrough(line, sought, found, ignoreCase);
      }
    }
  }

  /** A search is accepted exactly from one of the same kind, in the same circumstances and with the same input but for
      the pattern and the limit, that every line sought here was found by; so its lines only need filtering. */
  lemma {:induction false} GrepCoversExactly(speculative: Action, actor: Action)
    ensures GrepProject(speculative, actor).Some? <==>
      && GrepPartition(speculative).Some? && GrepPartition(actor).Some? && SameCircumstances(speculative, actor)
      && AgreeBut(speculative.input, actor.input, {"pattern", "limit"})
      && forall line ::
           Contains(line, TextIn(actor.input, "pattern").value, Insensitive(actor)) ==>
             Contains(line, TextIn(speculative.input, "pattern").value, Insensitive(actor))
  {
    AgreeExactly(speculative.input, actor.input, {"pattern", "limit"});
    if GrepPartition(speculative).Some? && GrepPartition(actor).Some? {
      ContainsExactly(TextIn(actor.input, "pattern").value, TextIn(speculative.input, "pattern").value,
        Insensitive(actor));
    }
  }
}

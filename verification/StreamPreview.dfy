/** Previews of tool calls from a stream of argument text.  A scanner that sees each character once decides when the
    text may be a complete JSON object; a strict parser, which is a parameter here, confirms it. */
module StreamPreview {
  import opened Basics

  // ---------------------------------------------------------------- the scanner

  datatype Scan = Scan(depth: int, quoted: bool, escaped: bool, ready: bool)

  const IDLE := Scan(0, false, false, false)

  function Advance(s: Scan, c: char): Scan {
    if s.escaped then s.(escaped := false)
    else if c == '\\' && s.quoted then s.(escaped := true)
    else if c == '"' then s.(quoted := !s.quoted)
    else if s.quoted then s
    else if c == '{' || c == '[' then s.(depth := s.depth + 1)
    else if c == '}' || c == ']' then s.(depth := s.depth - 1, ready := s.depth == 1 || s.ready)
    else s
  }

  function After(s: Scan, text: string): Scan
    decreases |text|
  {
    if text == "" then s else After(Advance(s, text[0]), text[1..])
  }

  /** However a text is cut, the scanner ends in the same state. */
  lemma {:induction false} AfterPieces(s: Scan, a: string, b: string)
    ensures After(s, a + b) == After(After(s, a), b)
    decreases |a|
  {
    if a == "" {
      assert a + b == b;
    } else {
      assert (a + b)[1..] == a[1..] + b;
      AfterPieces(Advance(s, a[0]), a[1..], b);
    }
  }

  // ---------------------------------------------------------------- JSON texts (sections 2 to 7 of RFC 8259)

  /** A string's characters, those behind a backslash marked. */
  datatype Item = Plain(c: char) | Escape(c: char)

  /** Values as written: with the white space around them. */
  datatype Value =
    | Literal(text: string)                       // a number, true, false or null
    | Text(items: seq<Item>)
    | EmptyArray(space: string)
    | Array(elements: Elements)
    | EmptyObject(space: string)
    | Object(members: Members)

  datatype Padded = Padded(before: string, value: Value, after: string)

  datatype Elements = Last(only: Padded) | Cons(first: Padded, rest: Elements)

  datatype Member = Member(before: string, key: seq<Item>, after: string, value: Padded)

  datatype Members = LastMember(only: Member) | ConsMember(first: Member, rest: Members)

  predicate Space(s: string) {
    forall i :: 0 <= i < |s| ==> s[i] == ' ' || s[i] == '\t' || s[i] == '\n' || s[i] == '\r'
  }

  /** Nothing the scanner reacts to: so are white space, separators and literals. */
  predicate Inert(s: string) {
    forall i :: 0 <= i < |s| ==> s[i] !in "\"{}[]"
  }

  predicate Items(items: seq<Item>) {
    forall i :: 0 <= i < |items| && items[i].Plain? ==> items[i].c != '"' && items[i].c != '\\'
  }

  predicate WellFormed(v: Value) {
    match v
    case Literal(text) => Inert(text)
    case Text(items) => Items(items)
    case EmptyArray(space) => Space(space)
    case Array(e) => WellFormedElements(e)
    case EmptyObject(space) => Space(space)
    case Object(m) => WellFormedMembers(m)
  }

  predicate WellFormedPadded(p: Padded) {
    Space(p.before) && WellFormed(p.value) && Space(p.after)
  }

  predicate WellFormedElements(e: Elements) {
    match e
    case Last(p) => WellFormedPadded(p)
    case Cons(p, rest) => WellFormedPadded(p) && WellFormedElements(rest)
  }

  predicate WellFormedMember(m: Member) {
    Space(m.before) && Items(m.key) && Space(m.after) && WellFormedPadded(m.value)
  }

  predicate WellFormedMembers(ms: Members) {
    match ms
    case LastMember(m) => WellFormedMember(m)
    case ConsMember(m, rest) => WellFormedMember(m) && WellFormedMembers(rest)
  }

  function WriteItems(items: seq<Item>): string {
    if items == [] then ""
    else (match items[0] case Plain(c) => [c] case Escape(c) => ['\\', c]) + WriteItems(items[1..])
  }

  function WriteText(items: seq<Item>): string {
    "\"" + WriteItems(items) + "\""
  }

  function Write(v: Value): string {
    match v
    case Literal(text) => text
    case Text(items) => WriteText(items)
    case EmptyArray(space) => "[" + space + "]"
    case Array(e) => "[" + WriteElements(e) + "]"
    case EmptyObject(space) => "{" + space + "}"
    case Object(m) => "{" + WriteMembers(m) + "}"
  }

  function WritePadded(p: Padded): string {
    p.before + Write(p.value) + p.after
  }

  function WriteElements(e: Elements): string {
    match e
    case Last(p) => WritePadded(p)
    case Cons(p, rest) => WritePadded(p) + "," + WriteElements(rest)
  }

  function WriteMember(m: Member): string {
    m.before + WriteText(m.key) + m.after + ":" + WritePadded(m.value)
  }

  function WriteMembers(ms: Members): string {
    match ms
    case LastMember(m) => WriteMember(m)
    case ConsMember(m, rest) => WriteMember(m) + "," + WriteMembers(rest)
  }

  // ---------------------------------------------------------------- the scanner on JSON

  /** From a state inside some object, `text` leads back to that state, and never out of the object on the way. */
  ghost predicate Neutral(text: string) {
    forall s: Scan :: s.depth >= 1 && !s.quoted && !s.escaped ==> Stays(s, text)
  }

  predicate Stays(s: Scan, text: string) {
    After(s, text) == s && forall k :: 0 <= k <= |text| ==>
      After(s, text[..k]).depth >= s.depth && After(s, text[..k]).ready == s.ready
  }

  lemma {:induction false} StaysPieces(s: Scan, a: string, b: string)
    requires Stays(s, a) && Stays(s, b)
    ensures Stays(s, a + b)
  {
    AfterPieces(s, a, b);
    forall k | 0 <= k <= |a + b|
      ensures After(s, (a + b)[..k]).depth >= s.depth && After(s, (a + b)[..k]).ready == s.ready
    {
      if k <= |a| {
        assert (a + b)[..k] == a[..k];
      } else {
        assert (a + b)[..k] == a + b[..k - |a|];
        AfterPieces(s, a, b[..k - |a|]);
      }
    }
  }

  lemma {:induction false} NeutralPieces(a: string, b: string)
    requires Neutral(a) && Neutral(b)
    ensures Neutral(a + b)
  {
    forall s: Scan | s.depth >= 1 && !s.quoted && !s.escaped ensures Stays(s, a + b) {
      StaysPieces(s, a, b);
    }
  }

  lemma {:induction false} InertStays(s: Scan, text: string)
    requires Inert(text) && !s.quoted && !s.escaped
    ensures Stays(s, text)
    decreases |text|
  {
    if text != "" {
      assert Advance(s, text[0]) == s;
      InertStays(s, text[1..]);
      forall k | 0 <= k <= |text| ensures After(s, text[..k]).depth >= s.depth && After(s, text[..k]).ready == s.ready {
        if k > 0 { assert text[..k][1..] == text[1..][..k - 1]; }
      }
    }
  }

  lemma {:induction false} InertIsNeutral(text: string)
    requires Inert(text) || Space(text)
    ensures Neutral(text)
  {
    forall s: Scan | s.depth >= 1 && !s.quoted && !s.escaped ensures Stays(s, text) {
      InertStays(s, text);
    }
  }

  predicate Within(s: Scan, text: string) {
    forall k :: 0 <= k <= |text| ==> After(s, text[..k]).depth == s.depth && After(s, text[..k]).ready == s.ready
  }

  lemma {:induction false} OneChar(s: Scan, c: char, rest: string)
    ensures After(s, [c] + rest) == After(Advance(s, c), rest)
  {
    assert ([c] + rest)[1..] == rest;
  }

  /** Inside a string nothing counts. */
  lemma {:induction false} ItemsStay(s: Scan, items: seq<Item>)
    requires Items(items) && s.quoted && !s.escaped
    ensures After(s, WriteItems(items)) == s && Within(s, WriteItems(items))
    decreases |items|
  {
    if items != [] {
      var rest := WriteItems(items[1..]);
      ItemsStay(s, items[1..]);
      match items[0]
      case Plain(c) =>
        assert Advance(s, c) == s;
        OneChar(s, c, rest);
        WithinAfter(s, s, c, rest);
      case Escape(c) =>
        var t := Advance(s, '\\');
        assert Advance(t, c) == s;
        assert ['\\', c] + rest == ['\\'] + ([c] + rest);
        OneChar(s, '\\', [c] + rest);
        OneChar(t, c, rest);
        WithinAfter(t, s, c, rest);
        WithinAfter(s, t, '\\', [c] + rest);
    }
  }

  lemma {:induction false} WithinAfter(s: Scan, t: Scan, c: char, rest: string)
    requires t == Advance(s, c) && t.depth == s.depth && t.ready == s.ready && Within(t, rest)
    ensures Within(s, [c] + rest)
  {
    forall k | 0 <= k <= |[c] + rest|
      ensures After(s, ([c] + rest)[..k]).depth == s.depth && After(s, ([c] + rest)[..k]).ready == s.ready
    {
      if k > 0 {
        assert ([c] + rest)[..k] == [c] + rest[..k - 1];
        OneChar(s, c, rest[..k - 1]);
      }
    }
  }

  lemma {:induction false} TextIsNeutral(items: seq<Item>)
    requires Items(items)
    ensures Neutral(WriteText(items))
  {
    forall s: Scan | s.depth >= 1 && !s.quoted && !s.escaped ensures Stays(s, WriteText(items)) {
      var t, inside := s.(quoted := true), WriteItems(items);
      ItemsStay(t, items);
      Wrapped(s, '"', inside, '"');
    }
  }

  /** Between an opening and a closing character. */
  lemma {:induction false} Wrapped(s: Scan, open: char, inside: string, close: char)
    requires var t := Advance(s, open);
      && After(t, inside) == t && t.depth >= s.depth && t.ready == s.ready && Advance(t, close) == s
      && forall k :: 0 <= k <= |inside| ==>
         After(t, inside[..k]).depth >= s.depth && After(t, inside[..k]).ready == s.ready
    ensures Stays(s, [open] + inside + [close])
  {
    var t, text := Advance(s, open), [open] + inside + [close];
    assert text == [open] + (inside + [close]);
    OneChar(s, open, inside + [close]);
    AfterPieces(t, inside, [close]);
    OneChar(t, close, "");
    assert [close] + "" == [close];
    forall k | 0 <= k <= |text| ensures After(s, text[..k]).depth >= s.depth && After(s, text[..k]).ready == s.ready {
      if k == |text| {
        assert text[..k] == text;
      } else if k > 0 {
        assert text[..k] == [open] + inside[..k - 1];
        OneChar(s, open, inside[..k - 1]);
      }
    }
  }

  lemma {:induction false} BracketsAreNeutral(open: char, inside: string, close: char)
    requires Neutral(inside) && ((open == '{' && close == '}') || (open == '[' && close == ']'))
    ensures Neutral([open] + inside + [close])
  {
    forall s: Scan | s.depth >= 1 && !s.quoted && !s.escaped ensures Stays(s, [open] + inside + [close]) {
      var t := Advance(s, open);
      assert Stays(t, inside);
      Wrapped(s, open, inside, close);
    }
  }

  lemma {:induction false} ValueIsNeutral(v: Value)
    requires WellFormed(v)
    ensures Neutral(Write(v))
    decreases v
  {
    match v
    case Literal(text) => InertIsNeutral(text);
    case Text(items) => TextIsNeutral(items);
    case EmptyArray(space) => InertIsNeutral(space); BracketsAreNeutral('[', space, ']');
    case Array(e) => ElementsAreNeutral(e); BracketsAreNeutral('[', WriteElements(e), ']');
    case EmptyObject(space) => InertIsNeutral(space); BracketsAreNeutral('{', space, '}');
    case Object(m) => MembersAreNeutral(m); BracketsAreNeutral('{', WriteMembers(m), '}');
  }

  lemma {:induction false} PaddedIsNeutral(p: Padded)
    requires WellFormedPadded(p)
    ensures Neutral(WritePadded(p))
    decreases p
  {
    InertIsNeutral(p.before);
    ValueIsNeutral(p.value);
    InertIsNeutral(p.after);
    NeutralPieces(p.before, Write(p.value));
    NeutralPieces(p.before + Write(p.value), p.after);
  }

  lemma {:induction false} ElementsAreNeutral(e: Elements)
    requires WellFormedElements(e)
    ensures Neutral(WriteElements(e))
    decreases e
  {
    match e
    case Last(p) => PaddedIsNeutral(p);
    case Cons(p, rest) =>
      PaddedIsNeutral(p);
      ElementsAreNeutral(rest);
      InertIsNeutral(",");
      NeutralPieces(WritePadded(p), ",");
      NeutralPieces(WritePadded(p) + ",", WriteElements(rest));
  }

  lemma {:induction false} MemberIsNeutral(m: Member)
    requires WellFormedMember(m)
    ensures Neutral(WriteMember(m))
    decreases m
  {
    InertIsNeutral(m.before);
    TextIsNeutral(m.key);
    InertIsNeutral(m.after);
    InertIsNeutral(":");
    PaddedIsNeutral(m.value);
    NeutralPieces(m.before, WriteText(m.key));
    NeutralPieces(m.before + WriteText(m.key), m.after);
    NeutralPieces(m.before + WriteText(m.key) + m.after, ":");
    NeutralPieces(m.before + WriteText(m.key) + m.after + ":", WritePadded(m.value));
  }

  lemma {:induction false} MembersAreNeutral(ms: Members)
    requires WellFormedMembers(ms)
    ensures Neutral(WriteMembers(ms))
    decreases ms
  {
    match ms
    case LastMember(m) => MemberIsNeutral(m);
    case ConsMember(m, rest) =>
      MemberIsNeutral(m);
      MembersAreNeutral(rest);
      InertIsNeutral(",");
      NeutralPieces(WriteMember(m), ",");
      NeutralPieces(WriteMember(m) + ",", WriteMembers(rest));
  }

  predicate IsObject(v: Value) {
    WellFormed(v) && (v.EmptyObject? || v.Object?)
  }

  predicate ReadyAt(s: Scan, k: nat, n: nat) {
    if k == n then s == Scan(0, false, false, true) else !s.ready && (k > 0 ==> s.depth > 0)
  }

  lemma {:induction false} BracedPrefix(inside: string, k: nat)
    requires Neutral(inside) && 0 < k <= |inside| + 1
    ensures ReadyAt(After(IDLE, ("{" + inside + "}")[..k]), k, |inside| + 2)
  {
    var t := Scan(1, false, false, false);
    assert Stays(t, inside);
    assert ("{" + inside + "}")[..k] == ['{'] + inside[..k - 1];
    OneChar(IDLE, '{', inside[..k - 1]);
  }

  lemma {:induction false} BracedWhole(inside: string)
    requires Neutral(inside)
    ensures After(IDLE, "{" + inside + "}") == Scan(0, false, false, true)
  {
    var t := Scan(1, false, false, false);
    assert Stays(t, inside);
    assert "{" + inside + "}" == ['{'] + (inside + ['}']);
    OneChar(IDLE, '{', inside + ['}']);
    AfterPieces(t, inside, ['}']);
    OneChar(t, '}', "");
    assert ['}'] + "" == ['}'];
  }

  lemma {:induction false} ObjectReady(v: Value, k: nat)
    requires IsObject(v) && k <= |Write(v)|
    ensures ReadyAt(After(IDLE, Write(v)[..k]), k, |Write(v)|)
  {
    var inside := if v.EmptyObject? then v.space else WriteMembers(v.members);
    assert Write(v) == "{" + inside + "}";
    if v.EmptyObject? { InertIsNeutral(inside); } else { MembersAreNeutral(v.members); }
    if k == |Write(v)| {
      assert Write(v)[..k] == "{" + inside + "}";
      BracedWhole(inside);
    } else if k > 0 {
      BracedPrefix(inside, k);
    }
  }

  /** In the text of any object, after any white space, the depth comes back to zero and the text is taken to be ready
      exactly at the closing brace: not before, however strings and nested values look. */
  lemma {:induction false} ReadyExactlyAtTheEnd(before: string, v: Value, k: nat)
    requires Space(before) && IsObject(v) && k <= |before + Write(v)|
    ensures var s := After(IDLE, (before + Write(v))[..k]);
      && (s.ready <==> k == |before + Write(v)|)
      && (k > |before| ==> (s.depth == 0 <==> k == |before + Write(v)|))
      && (k == |before + Write(v)| ==> s == Scan(0, false, false, true))
  {
    InertStays(IDLE, before);
    assert |Write(v)| > 0;
    if k <= |before| {
      assert (before + Write(v))[..k] == before[..k];
    } else {
      var n := k - |before|;
      assert (before + Write(v))[..k] == before + Write(v)[..n];
      AfterPieces(IDLE, before, Write(v)[..n]);
      ObjectReady(v, n);
    }
  }

  // ---------------------------------------------------------------- the tracker

  type Arguments = map<string, Value>

  /** What the stream so far says of the call at an index; either name may still be missing. */
  datatype Known = Known(id: string, name: string)

  datatype Update =
    | Start(index: nat, known: Option<Known>)
    | Delta(index: nat, text: string, known: Option<Known>)
    | End(index: nat, id: string, name: string, arguments: Arguments)

  datatype Preview = Tool(name: string) | Call(id: string, callName: string, arguments: Arguments)

  datatype Streamed = Streamed(arguments: string, scan: Scan, toolPreviewed: bool, callPreviewed: bool)

  const NEW := Streamed("", IDLE, false, false)

  /** The strict parser: the object a text spells, if it does. */
  type Parser = string -> Option<Arguments>

  function StateOf(calls: map<nat, Streamed>, index: nat): Streamed {
    if index in calls then calls[index] else NEW
  }

  /** One call's record after more text has been scanned. */
  function Fed(x: Streamed, text: string): Streamed {
    x.(arguments := x.arguments + text, scan := After(x.scan, text))
  }

  function NameTool(x: Streamed, known: Known): (Streamed, seq<Preview>) {
    if !x.toolPreviewed && known.name != "" then (x.(toolPreviewed := true), [Tool(known.name)]) else (x, [])
  }

  /** When the text may be complete and the call is named, the parser decides; one refusal waits for
      the next closing. */
  function TryCall(x: Streamed, known: Known, parse: Parser): (Streamed, seq<Preview>) {
    if !x.scan.ready || known.name == "" || known.id == "" then (x, [])
    else
      var y := x.(scan := x.scan.(ready := false));
      match parse(x.arguments)
      case None => (y, [])
      case Some(a) => (y.(callPreviewed := true, arguments := ""), [Call(known.id, known.name, a)])
  }

  function Observed(calls: map<nat, Streamed>, u: Update, parse: Parser): (map<nat, Streamed>, seq<Preview>) {
    match u
    case End(index, id, name, arguments) =>
      (calls - {index}, if StateOf(calls, index).callPreviewed then [] else [Call(id, name, arguments)])
    case Start(index, known) =>
      if known.None? then (calls, [])
      else
        var x := StateOf(calls, index);
        if x.callPreviewed then (calls[index := x], [])
        else
          var named := NameTool(x, known.value);
          (calls[index := named.0], named.1)
    case Delta(index, text, known) =>
      if known.None? then (calls, [])
      else
        var x := StateOf(calls, index);
        if x.callPreviewed then (calls[index := x], [])
        else
          var named := NameTool(Fed(x, text), known.value);
          var tried := TryCall(named.0, known.value, parse);
          (calls[index := tried.0], named.1 + tried.1)
  }

  class Tracker {
    var calls: map<nat, Streamed>

    constructor ()
      ensures calls == map[]
    {
      calls := map[];
    }

    method Observe(u: Update, parse: Parser) returns (result: seq<Preview>)
      modifies this
      ensures (calls, result) == Observed(old(calls), u, parse)
    {
      result := [];
      if u.End? {
        var previewed := u.index in calls && calls[u.index].callPreviewed;
        if !previewed { result := [Call(u.id, u.name, u.arguments)]; }
        calls := calls - {u.index};
        return;
      }
      if u.known.None? { return; }
      var known := u.known.value;
      var state := StateOf(calls, u.index);
      calls := calls[u.index := state];
      if state.callPreviewed { return; }
      if u.Delta? {
        var scan := state.scan;
        for i := 0 to |u.text|
          invariant scan == After(state.scan, u.text[..i]) && calls == old(calls)[u.index := state]
        {
          AfterPieces(state.scan, u.text[..i], [u.text[i]]);
          assert u.text[..i + 1] == u.text[..i] + [u.text[i]];
          OneChar(scan, u.text[i], "");
          assert [u.text[i]] + "" == [u.text[i]];
          scan := Advance(scan, u.text[i]);
        }
        assert u.text[..|u.text|] == u.text;
        state := state.(arguments := state.arguments + u.text, scan := scan);
      }
      if !state.toolPreviewed && known.name != "" {
        state := state.(toolPreviewed := true);
        result := result + [Tool(known.name)];
      }
      if u.Delta? && state.scan.ready && known.name != "" && known.id != "" {
        var parsed := parse(state.arguments);
        state := state.(scan := state.scan.(ready := false));
        if parsed.Some? {
          state := state.(callPreviewed := true, arguments := "");
          result := result + [Call(known.id, known.name, parsed.value)];
        }
      }
      calls := calls[u.index := state];
      assert calls == old(calls)[u.index := state];
      ghost var expected := Observed(old(calls), u, parse);
      assert result == expected.1;
    }
  }

  // ---------------------------------------------------------------- one preview per call

  function CallsIn(previews: seq<Preview>): nat {
    if previews == [] then 0 else (if previews[0].Call? then 1 else 0) + CallsIn(previews[1..])
  }

  function Final(calls: map<nat, Streamed>, us: seq<Update>, parse: Parser): map<nat, Streamed>
    decreases |us|
  {
    if us == [] then calls else Final(Observed(calls, us[0], parse).0, us[1..], parse)
  }

  /** How many call previews the updates of one index bring. */
  function CallPreviews(calls: map<nat, Streamed>, us: seq<Update>, parse: Parser, index: nat): nat
    decreases |us|
  {
    if us == [] then 0
    else
      var seen := Observed(calls, us[0], parse);
      (if us[0].index == index then CallsIn(seen.1) else 0) + CallPreviews(seen.0, us[1..], parse, index)
  }

  predicate Open(us: seq<Update>, index: nat) {
    forall i :: 0 <= i < |us| && us[i].index == index ==> !us[i].End?
  }

  function Counted(calls: map<nat, Streamed>, index: nat): nat {
    if StateOf(calls, index).callPreviewed then 1 else 0
  }

  lemma {:induction false} ToolsCountNothing(x: Streamed, known: Known, rest: seq<Preview>)
    ensures CallsIn(NameTool(x, known).1 + rest) == CallsIn(rest)
    ensures CallsIn(NameTool(x, known).1) == 0 && NameTool(x, known).0.callPreviewed == x.callPreviewed
  {
    var named := NameTool(x, known).1;
    if named == [] {
      assert named + rest == rest;
    } else {
      assert (named + rest)[1..] == rest && named[1..] == [];
    }
  }

  lemma {:induction false} TriesCountOnce(x: Streamed, known: Known, parse: Parser)
    requires !x.callPreviewed
    ensures CallsIn(TryCall(x, known, parse).1) == if TryCall(x, known, parse).0.callPreviewed then 1 else 0
  {
    var tried := TryCall(x, known, parse).1;
    if tried != [] { assert tried[1..] == []; }
  }

  lemma {:induction false} OneUpdate(calls: map<nat, Streamed>, u: Update, parse: Parser, index: nat)
    ensures var seen := Observed(calls, u, parse);
      if u.index != index then StateOf(seen.0, index) == StateOf(calls, index)
      else if u.End? then Counted(calls, index) + CallsIn(seen.1) == 1 && index !in seen.0
      else Counted(calls, index) + CallsIn(seen.1) == Counted(seen.0, index)
  {
    var x := StateOf(calls, index);
    match u
    case End(_, id, name, arguments) => assert [Call(id, name, arguments)][1..] == [];
    case Start(_, known) => if known.Some? { ToolsCountNothing(x, known.value, []); }
    case Delta(_, text, known) =>
      if known.Some? && !x.callPreviewed {
        var named := NameTool(Fed(x, text), known.value);
        ToolsCountNothing(Fed(x, text), known.value, TryCall(named.0, known.value, parse).1);
        TriesCountOnce(named.0, known.value, parse);
      }
  }

  lemma {:induction false} WhileOpen(calls: map<nat, Streamed>, us: seq<Update>, parse: Parser, index: nat)
    requires Open(us, index)
    ensures Counted(calls, index) + CallPreviews(calls, us, parse, index) == Counted(Final(calls, us, parse), index)
    decreases |us|
  {
    if us != [] {
      OneUpdate(calls, us[0], parse, index);
      WhileOpen(Observed(calls, us[0], parse).0, us[1..], parse, index);
    }
  }

  lemma {:induction false} PreviewsAdd(calls: map<nat, Streamed>, us: seq<Update>, more: seq<Update>, parse: Parser,
                                       index: nat)
    ensures CallPreviews(calls, us + more, parse, index) ==
            CallPreviews(calls, us, parse, index) + CallPreviews(Final(calls, us, parse), more, parse, index)
    decreases |us|
  {
    if us == [] {
      assert us + more == more;
    } else {
      assert (us + more)[1..] == us[1..] + more;
      PreviewsAdd(Observed(calls, us[0], parse).0, us[1..], more, parse, index);
    }
  }

  /** A call that is streamed and ends brings exactly one call preview, whatever the deltas, the parser and the calls
      streamed beside it. */
  lemma {:induction false} OnePreviewPerCall(calls: map<nat, Streamed>, us: seq<Update>, end: Update, parse: Parser)
    requires end.End? && end.index !in calls && Open(us, end.index)
    ensures CallPreviews(calls, us + [end], parse, end.index) == 1
    ensures end.index !in Final(calls, us + [end], parse)
  {
    WhileOpen(calls, us, parse, end.index);
    OneUpdate(Final(calls, us, parse), end, parse, end.index);
    PreviewsAdd(calls, us, [end], parse, end.index);
    FinalAdd(calls, us, [end], parse);
  }

  lemma {:induction false} FinalAdd(calls: map<nat, Streamed>, us: seq<Update>, more: seq<Update>, parse: Parser)
    ensures Final(calls, us + more, parse) == Final(Final(calls, us, parse), more, parse)
    decreases |us|
  {
    if us == [] {
      assert us + more == more;
    } else {
      assert (us + more)[1..] == us[1..] + more;
      FinalAdd(Observed(calls, us[0], parse).0, us[1..], more, parse);
    }
  }

  /** The scanner's state, wherever the text of an object is cut: ready exactly once the closing brace is in. */
  lemma {:induction false} ReadyFromTheBrace(before: string, v: Value, after: string, n: nat)
    requires Space(before) && IsObject(v) && Space(after) && n <= |before + Write(v) + after|
    ensures After(IDLE, (before + Write(v) + after)[..n]).ready <==> n >= |before + Write(v)|
  {
    var written := before + Write(v);
    if n < |written| {
      assert (written + after)[..n] == written[..n];
      ReadyExactlyAtTheEnd(before, v, n);
    } else {
      var tail := after[..n - |written|];
      assert (written + after)[..n] == written + tail;
      assert written[..|written|] == written;
      ReadyExactlyAtTheEnd(before, v, |written|);
      AfterPieces(IDLE, written, tail);
      InertStays(After(IDLE, written), tail);
    }
  }

  /** The early preview: while an object's text arrives, nothing is previewed before its closing brace; the delta that
      brings the brace is previewed with what the parser makes of the text so far. */
  lemma {:induction false} PreviewedAtTheBrace(calls: map<nat, Streamed>, index: nat, before: string, v: Value,
                                               after: string, j: nat, text: string, known: Known, parse: Parser)
    requires Space(before) && IsObject(v) && Space(after)
    requires known.id != "" && known.name != ""
    requires var whole := before + Write(v) + after; j + |text| <= |whole| && text == whole[j..j + |text|]
    requires var x, whole := StateOf(calls, index), before + Write(v) + after;
      !x.callPreviewed && x.arguments == whole[..j] && x.scan == After(IDLE, whole[..j])
    ensures var whole, seen := before + Write(v) + after, Observed(calls, Delta(index, text, Some(known)), parse);
      var complete := j + |text| >= |before + Write(v)| && parse(whole[..j + |text|]).Some?;
      && CallsIn(seen.1) == (if complete then 1 else 0)
      && (complete ==> seen.1[|seen.1| - 1] == Call(known.id, known.name, parse(whole[..j + |text|]).value))
  {
    var whole, n, x := before + Write(v) + after, j + |text|, StateOf(calls, index);
    FedAtTheBrace(x, before, v, after, j, text);
    var fed := Fed(x, text);
    var named := NameTool(fed, known);
    var tried := TryCall(named.0, known, parse);
    ToolsCountNothing(fed, known, tried.1);
    TriesCountOnce(named.0, known, parse);
  }

  /** A delta of the text makes the record ready exactly if it brings in the closing brace or comes after it. */
  lemma {:induction false} FedAtTheBrace(x: Streamed, before: string, v: Value, after: string, j: nat, text: string)
    requires Space(before) && IsObject(v) && Space(after)
    requires var whole := before + Write(v) + after; j + |text| <= |whole| && text == whole[j..j + |text|]
    requires var whole := before + Write(v) + after; x.arguments == whole[..j] && x.scan == After(IDLE, whole[..j])
    ensures var whole, n := before + Write(v) + after, j + |text|;
      Fed(x, text).arguments == whole[..n] && (Fed(x, text).scan.ready <==> n >= |before + Write(v)|)
  {
    var whole, n := before + Write(v) + after, j + |text|;
    assert whole[..n] == whole[..j] + text;
    AfterPieces(IDLE, whole[..j], text);
    ReadyFromTheBrace(before, v, after, n);
  }
}

/** What the previews of a call say: which tool it is, told once, and the call itself, with the arguments that the
    text so far spells or that its end brings. */
module StreamPreviewTold {
  import opened Basics
  import opened StreamPreview

  predicate Speaks(u: Update, index: nat) {
    u.index == index && !u.End? && u.known.Some?
  }

  /** The first name an update of the call gives it. */
  function FirstName(us: seq<Update>, index: nat): seq<string> {
    if us == [] then []
    else if Speaks(us[0], index) && us[0].known.value.name != "" then [us[0].known.value.name]
    else FirstName(us[1..], index)
  }

  /** All the text that has arrived for the call. */
  function Text(us: seq<Update>, index: nat): string {
    if us == [] then ""
    else
      var last := us[|us| - 1];
      Text(us[..|us| - 1], index) + if Speaks(last, index) && last.Delta? then last.text else ""
  }

  function NamesIn(previews: seq<Preview>): seq<string> {
    if previews == [] then []
    else (if previews[0].Tool? then [previews[0].name] else []) + NamesIn(previews[1..])
  }

  /** The tools that the updates of one index preview. */
  function ToolNames(calls: map<nat, Streamed>, us: seq<Update>, parse: Parser, index: nat): seq<string>
    decreases |us|
  {
    if us == [] then []
    else
      var seen := Observed(calls, us[0], parse);
      (if us[0].index == index then NamesIn(seen.1) else []) + ToolNames(seen.0, us[1..], parse, index)
  }

  predicate NamedBefore(calls: map<nat, Streamed>, index: nat) {
    StateOf(calls, index).callPreviewed ==> StateOf(calls, index).toolPreviewed
  }

  lemma {:induction false} TriesNameNothing(x: Streamed, known: Known, parse: Parser)
    ensures var named := NameTool(x, known); NamesIn(named.1 + TryCall(named.0, known, parse).1) == NamesIn(named.1)
  {
    var named, tried := NameTool(x, known).1, TryCall(NameTool(x, known).0, known, parse).1;
    assert tried != [] ==> tried[1..] == [];
    if named == [] { assert named + tried == tried; } else { assert (named + tried)[1..] == tried && named[1..] == []; }
  }

  lemma {:induction false} OneNaming(calls: map<nat, Streamed>, u: Update, parse: Parser, index: nat)
    requires NamedBefore(calls, index) && !(u.index == index && u.End?)
    ensures var seen := Observed(calls, u, parse); var was, now := StateOf(calls, index), StateOf(seen.0, index);
      && NamedBefore(seen.0, index) && (u.index != index ==> now == was)
      && (u.index == index ==>
           NamesIn(seen.1) == (if was.toolPreviewed then [] else FirstName([u], index)) &&
           now.toolPreviewed == (was.toolPreviewed || FirstName([u], index) != []))
  {
    assert [u][1..] == [];
    if Speaks(u, index) && !StateOf(calls, index).callPreviewed {
      var x := StateOf(calls, index);
      var known := u.known.value;
      var y := if u.Delta? then Fed(x, u.text) else x;
      if u.Delta? { TriesNameNothing(y, known, parse); }
      assert NameTool(y, known).1 != [] ==> NameTool(y, known).1[1..] == [];
    }
  }

  lemma {:induction false} NamedOnce(calls: map<nat, Streamed>, us: seq<Update>, parse: Parser, index: nat)
    requires NamedBefore(calls, index) && Open(us, index)
    ensures ToolNames(calls, us, parse, index) ==
      if StateOf(calls, index).toolPreviewed then [] else FirstName(us, index)
    decreases |us|
  {
    if us != [] {
      var next := Observed(calls, us[0], parse).0;
      OneNaming(calls, us[0], parse, index);
      assert [us[0]][1..] == [];
      NamedOnce(next, us[1..], parse, index);
    }
  }

  /** While a call is streamed its tool is previewed once, by the first name it is given, however its updates and those
      of other calls follow. */
  lemma {:induction false} ToolToldOnce(us: seq<Update>, parse: Parser, index: nat)
    requires Open(us, index)
    ensures ToolNames(map[], us, parse, index) == FirstName(us, index)
  {
    NamedOnce(map[], us, parse, index);
  }

  predicate Collects(calls: map<nat, Streamed>, us: seq<Update>, index: nat) {
    StateOf(calls, index).callPreviewed || StateOf(calls, index).arguments == Text(us, index)
  }

  lemma {:induction false} OneCollects(calls: map<nat, Streamed>, us: seq<Update>, u: Update, parse: Parser, index: nat)
    requires Collects(calls, us, index) && !(u.index == index && u.End?)
    ensures Collects(Observed(calls, u, parse).0, us + [u], index)
  {
    TextOneMore(us, u, index);
    if u.index != index {
      OneUpdate(calls, u, parse, index);
    } else if u.Delta? && u.known.Some? && !StateOf(calls, index).callPreviewed {
      DeltaCollects(StateOf(calls, index), u.known.value, u.text, parse);
    }
  }

  lemma {:induction false} TextOneMore(us: seq<Update>, u: Update, index: nat)
    ensures Text(us + [u], index) == Text(us, index) + if Speaks(u, index) && u.Delta? then u.text else ""
    ensures Text(us, index) + "" == Text(us, index)
  {
    assert (us + [u])[..|us|] == us;
  }

  /** A delta adds its text, unless it completes the call. */
  lemma {:induction false} DeltaCollects(x: Streamed, known: Known, text: string, parse: Parser)
    requires !x.callPreviewed
    ensures var y := TryCall(NameTool(Fed(x, text), known).0, known, parse).0;
      y.callPreviewed || y.arguments == x.arguments + text
  {
  }

  lemma {:induction false} RunCollects(us: seq<Update>, parse: Parser, index: nat)
    requires Open(us, index)
    ensures Collects(Final(map[], us, parse), us, index)
    decreases |us|
  {
    if us != [] {
      var most, last := us[..|us| - 1], us[|us| - 1];
      RunCollects(most, parse, index);
      assert us == most + [last];
      FinalAdd(map[], most, [last], parse);
      assert [last][1..] == [];
      OneCollects(Final(map[], most, parse), most, last, parse, index);
    }
  }

  /** Every preview of a call, in any stream, is of the call its update speaks of: at the end as the end states it, and
      before with the arguments that the parser finds in all the text so far. */
  lemma {:induction false} CallsTold(us: seq<Update>, u: Update, parse: Parser, p: Preview)
    requires Open(us, u.index) && p.Call? && p in Observed(Final(map[], us, parse), u, parse).1
    ensures match u
      case End(_, id, name, arguments) => p == Call(id, name, arguments)
      case Start(_, _) => false
      case Delta(_, _, known) =>
        && known.Some? && known.value.id == p.id != "" && known.value.name == p.callName != ""
        && parse(Text(us + [u], u.index)) == Some(p.arguments)
  {
    var calls := Final(map[], us, parse);
    RunCollects(us, parse, u.index);
    match u
    case End(_, _, _, _) =>
    case Start(_, known) =>
    case Delta(index, text, known) =>
      assert (us + [u])[..|us|] == us && Text(us + [u], index) == Text(us, index) + if known.Some? then text else "";
      DeltaTells(StateOf(calls, index), known.value, text, parse, p);
  }

  lemma {:induction false} DeltaTells(x: Streamed, known: Known, text: string, parse: Parser, p: Preview)
    requires var named := NameTool(Fed(x, text), known);
      p.Call? && p in named.1 + TryCall(named.0, known, parse).1
    ensures p.id == known.id != "" && p.callName == known.name != "" && parse(x.arguments + text) == Some(p.arguments)
  {
    var named := NameTool(Fed(x, text), known);
    assert p !in named.1 && p in TryCall(named.0, known, parse).1;
  }
}

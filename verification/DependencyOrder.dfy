/** The iterative dependency-first traversal, against the recursive one, and what both of them list. */
module DependencyOrder {
  import opened Basics

  type Node = nat

  /** The dependencies of each vertex in order; `None` stands for one that is missing. */
  type Graph = map<Node, seq<Option<Node>>>

  predicate Closed(g: Graph, list: seq<Option<Node>>) {
    forall d :: d in list && d.Some? ==> d.value in g
  }

  predicate Finite(g: Graph) {
    forall n :: n in g ==> Closed(g, g[n])
  }

  // ---------------------------------------------------------------- the recursive traversal

  /** Post-order from `node`, below the vertices of `active`, after those of `ordered`. */
  function Visit(g: Graph, active: set<Node>, node: Node, ordered: seq<Node>): Option<seq<Node>>
    requires Finite(g) && node in g
    decreases |g.Keys - active|, 1, 0
  {
    if node in ordered then Some(ordered)
    else if node in active then None
    else
      assert g.Keys - (active + {node}) < g.Keys - active by { assert node in g.Keys - active; }
      Smaller(g.Keys - (active + {node}), g.Keys - active);
      match VisitAll(g, active + {node}, g[node], ordered)
      case None => None
      case Some(o) => Some(o + [node])
  }

  function VisitAll(g: Graph, active: set<Node>, list: seq<Option<Node>>, ordered: seq<Node>): Option<seq<Node>>
    requires Finite(g) && Closed(g, list)
    decreases |g.Keys - active|, 2, |list|
  {
    if list == [] then Some(ordered)
    else if list[0].None? then None
    else
      match Visit(g, active, list[0].value, ordered)
      case None => None
      case Some(o) => VisitAll(g, active, list[1..], o)
  }

  lemma {:induction false} Smaller(a: set<Node>, b: set<Node>)
    requires a < b
    ensures |a| < |b|
  {
    var rest := b - a;
    assert b == a + rest && a * rest == {} && rest != {};
  }

  // ---------------------------------------------------------------- the explicit stack

  datatype Frame = Frame(node: Option<Node>, finished: bool)

  /** Frames for a list of dependencies, the first on top. */
  function Frames(list: seq<Option<Node>>): seq<Frame> {
    if list == [] then [] else Frames(list[1..]) + [Frame(list[0], false)]
  }

  predicate Legal(g: Graph, stack: seq<Frame>) {
    forall f :: f in stack ==> (f.finished ==> f.node.Some?) && (f.node.Some? ==> f.node.value in g)
  }

  /** What working off a stack amounts to: a finished frame lists its vertex, another one is a recursive visit. */
  function Drain(g: Graph, stack: seq<Frame>, active: set<Node>, ordered: seq<Node>): Option<seq<Node>>
    requires Finite(g) && Legal(g, stack)
    decreases |stack|
  {
    if stack == [] then Some(ordered)
    else
      var rest, top := stack[..|stack| - 1], stack[|stack| - 1];
      if top.node.None? then None
      else if top.finished then Drain(g, rest, active - {top.node.value}, ordered + [top.node.value])
      else
        match Visit(g, active, top.node.value, ordered)
        case None => None
        case Some(o) => Drain(g, rest, active, o)
  }

  lemma {:induction false} FramesLegal(g: Graph, list: seq<Option<Node>>)
    requires Closed(g, list)
    ensures Legal(g, Frames(list)) && |Frames(list)| == |list| && (forall f :: f in Frames(list) ==> !f.finished)
    decreases |list|
  {
    if list != [] { FramesLegal(g, list[1..]); }
  }

  lemma {:induction false} DrainFrames(g: Graph, rest: seq<Frame>, list: seq<Option<Node>>, active: set<Node>,
                                       ordered: seq<Node>)
    requires Finite(g) && Legal(g, rest) && Closed(g, list)
    ensures Legal(g, rest + Frames(list))
    ensures Drain(g, rest + Frames(list), active, ordered) ==
            match VisitAll(g, active, list, ordered)
            case None => None
            case Some(o) => Drain(g, rest, active, o)
    decreases |list|
  {
    FramesLegal(g, list);
    if list == [] {
      assert rest + Frames(list) == rest;
    } else {
      var stack := rest + Frames(list);
      assert stack[..|stack| - 1] == rest + Frames(list[1..]);
      if list[0].Some? {
        var r := Visit(g, active, list[0].value, ordered);
        if r.Some? { DrainFrames(g, rest, list[1..], active, r.value); }
      }
    }
  }

  /** Replacing a frame on top by its finished frame and its dependencies' frames changes nothing. */
  lemma {:induction false} DrainExpands(g: Graph, rest: seq<Frame>, node: Node, active: set<Node>, ordered: seq<Node>)
    requires Finite(g) && Legal(g, rest) && node in g && node !in ordered && node !in active
    ensures Legal(g, rest + [Frame(Some(node), true)] + Frames(g[node]))
    ensures Drain(g, rest + [Frame(Some(node), true)] + Frames(g[node]), active + {node}, ordered) ==
            Drain(g, rest + [Frame(Some(node), false)], active, ordered)
  {
    var base := rest + [Frame(Some(node), true)];
    DrainFrames(g, base, g[node], active + {node}, ordered);
    assert base[..|base| - 1] == rest;
    assert (rest + [Frame(Some(node), false)])[..|rest|] == rest;
    assert active + {node} - {node} == active;
  }

  // ---------------------------------------------------------------- the loop

  function Active(states: map<Node, bool>): set<Node> {
    set n | n in states && !states[n]
  }

  /** The vertices marked as being visited are those with a finished frame on the stack, each with one. */
  ghost predicate Marked(stack: seq<Frame>, active: set<Node>) {
    && (forall i, j :: 0 <= i < j < |stack| && stack[i].finished && stack[j].finished ==>
       stack[i].node != stack[j].node)
    && (forall n: Node :: n in active <==> Frame(Some(n), true) in stack)
  }

  ghost predicate Recorded(states: map<Node, bool>, ordered: seq<Node>) {
    forall n: Node :: n in ordered <==> n in states && states[n]
  }

  lemma {:induction false} MarkedPop(stack: seq<Frame>, active: set<Node>)
    requires Marked(stack, active) && stack != []
    ensures var top := stack[|stack| - 1];
      Marked(stack[..|stack| - 1], if top.finished && top.node.Some? then active - {top.node.value} else active)
  {
    var rest, top := stack[..|stack| - 1], stack[|stack| - 1];
    assert stack == rest + [top];
    forall n: Node | Frame(Some(n), true) in rest ensures !top.finished || top.node != Some(n) {
      var i :| 0 <= i < |rest| && rest[i] == Frame(Some(n), true);
      assert stack[i] == rest[i];
    }
  }

  lemma {:induction false} MarkedPush(stack: seq<Frame>, active: set<Node>, node: Node, list: seq<Option<Node>>,
                                      g: Graph)
    requires Marked(stack, active) && node !in active && Closed(g, list)
    ensures Marked(stack + [Frame(Some(node), true)] + Frames(list), active + {node})
  {
    FramesLegal(g, list);
    var t := stack + [Frame(Some(node), true)] + Frames(list);
    assert forall i :: |stack| < i < |t| ==> t[i] in Frames(list) && !t[i].finished;
    forall n: Node ensures n in active + {node} <==> Frame(Some(n), true) in t {
      assert t[|stack|] == Frame(Some(node), true);
    }
  }

  method Push(stack: seq<Frame>, parents: seq<Option<Node>>) returns (pending: seq<Frame>)
    ensures pending == stack + Frames(parents)
  {
    pending := stack;
    var index := |parents|;
    while index > 0
      invariant 0 <= index <= |parents|
      invariant pending == stack + Frames(parents[index..])
    {
      index := index - 1;
      assert parents[index..][1..] == parents[index + 1..];
      pending := pending + [Frame(parents[index], false)];
    }
    assert parents[0..] == parents;
  }

  ghost predicate Working(g: Graph, stack: seq<Frame>, states: map<Node, bool>, ordered: seq<Node>,
                          goal: Option<seq<Node>>)
    requires Finite(g)
  {
    && Legal(g, stack) && Recorded(states, ordered) && states.Keys <= g.Keys
    && Marked(stack, Active(states))
    && Drain(g, stack, Active(states), ordered) == goal
  }

  lemma {:induction false} FinishKeeps(g: Graph, rest: seq<Frame>, node: Node, states: map<Node, bool>,
                                       ordered: seq<Node>, goal: Option<seq<Node>>)
    requires Finite(g) && Working(g, rest + [Frame(Some(node), true)], states, ordered, goal)
    ensures Working(g, rest, states[node := true], ordered + [node], goal) && node in states
  {
    var stack := rest + [Frame(Some(node), true)];
    assert stack[..|stack| - 1] == rest && stack[|stack| - 1] in stack;
    MarkedPop(stack, Active(states));
    assert node in Active(states);
    assert Active(states[node := true]) == Active(states) - {node};
  }

  lemma {:induction false} SkipKeeps(g: Graph, rest: seq<Frame>, node: Node, states: map<Node, bool>,
                                     ordered: seq<Node>, goal: Option<seq<Node>>)
    requires Finite(g) && Working(g, rest + [Frame(Some(node), false)], states, ordered, goal) && node in states
    ensures states[node] ==> Working(g, rest, states, ordered, goal)
    ensures !states[node] ==> goal == None
  {
    var stack := rest + [Frame(Some(node), false)];
    assert stack[..|stack| - 1] == rest;
    MarkedPop(stack, Active(states));
    assert states[node] || node in Active(states);
  }

  lemma {:induction false} EnterMarks(g: Graph, rest: seq<Frame>, node: Node, states: map<Node, bool>)
    requires Marked(rest + [Frame(Some(node), false)], Active(states)) && node !in states && node in g
    requires Closed(g, g[node])
    ensures Marked(rest + [Frame(Some(node), true)] + Frames(g[node]), Active(states[node := false]))
  {
    var stack := rest + [Frame(Some(node), false)];
    assert stack[..|stack| - 1] == rest;
    MarkedPop(stack, Active(states));
    MarkedPush(rest, Active(states), node, g[node], g);
    assert Active(states[node := false]) == Active(states) + {node};
  }

  lemma {:induction false} EnterKeeps(g: Graph, rest: seq<Frame>, node: Node, states: map<Node, bool>,
                                      ordered: seq<Node>, goal: Option<seq<Node>>)
    requires Finite(g) && Working(g, rest + [Frame(Some(node), false)], states, ordered, goal) && node !in states
    ensures node in g
    ensures Working(g, rest + [Frame(Some(node), true)] + Frames(g[node]), states[node := false], ordered, goal)
  {
    assert Frame(Some(node), false) in rest + [Frame(Some(node), false)];
    EnterMarks(g, rest, node, states);
    assert forall f :: f in rest ==> f in rest + [Frame(Some(node), false)];
    DrainExpands(g, rest, node, Active(states), ordered);
    assert Active(states[node := false]) == Active(states) + {node};
  }

  /** One turn of the loop; `found` is false when the traversal gives up. */
  method Turn(g: Graph, stack: seq<Frame>, before: map<Node, bool>, listed: seq<Node>, ghost goal: Option<seq<Node>>)
    returns (found: bool, pending: seq<Frame>, states: map<Node, bool>, ordered: seq<Node>)
    requires Finite(g) && stack != [] && Working(g, stack, before, listed, goal)
    ensures found ==> Working(g, pending, states, ordered, goal)
    ensures found ==> (states.Keys == before.Keys && |pending| < |stack|) || before.Keys < states.Keys
    ensures !found ==> goal == None
  {
    states, ordered := before, listed;
    var top := stack[|stack| - 1];
    pending := stack[..|stack| - 1];
    assert stack == pending + [top];
    if top.node.None? { return false, pending, states, ordered; }
    var node := top.node.value;
    if top.finished {
      FinishKeeps(g, pending, node, states, ordered, goal);
      return true, pending, states[node := true], ordered + [node];
    }
    if node in states {
      SkipKeeps(g, pending, node, states, ordered, goal);
      return states[node], pending, states, ordered;
    }
    EnterKeeps(g, pending, node, states, ordered, goal);
    states := states[node := false];
    pending := Push(pending + [Frame(Some(node), true)], g[node]);
    found := true;
  }

  /** Works one root's stack off. */
  method Exhaust(g: Graph, root: Option<Node>, before: map<Node, bool>, listed: seq<Node>)
    returns (ok: bool, states: map<Node, bool>, ordered: seq<Node>)
    requires Finite(g) && Closed(g, [root])
    requires Active(before) == {} && Recorded(before, listed) && before.Keys <= g.Keys
    ensures ok == (root.Some? && Visit(g, {}, root.value, listed).Some?)
    ensures ok ==> Visit(g, {}, root.value, listed) == Some(ordered)
    ensures ok ==> Active(states) == {} && Recorded(states, ordered) && states.Keys <= g.Keys
  {
    states, ordered := before, listed;
    var pending := [Frame(root, false)];
    ghost var goal := if root.None? then None else Visit(g, {}, root.value, listed);
    assert pending[..0] == [];
    while pending != []
      invariant Working(g, pending, states, ordered, goal)
      decreases |g.Keys - states.Keys|, |pending|
    {
      ghost var known := states.Keys;
      ok, pending, states, ordered := Turn(g, pending, states, ordered, goal);
      if !ok { return; }
      if known < states.Keys { Smaller(g.Keys - states.Keys, g.Keys - known); }
    }
    WorkedOff(g, states, ordered, goal);
    ok := true;
  }

  lemma {:induction false} WorkedOff(g: Graph, states: map<Node, bool>, ordered: seq<Node>, goal: Option<seq<Node>>)
    requires Finite(g) && Working(g, [], states, ordered, goal)
    ensures goal == Some(ordered) && Active(states) == {}
  {
    assert forall n: Node :: n in Active(states) ==> Frame(Some(n), true) in [];
  }

  /** The traversal is the recursive one, whatever the graph. */
  method Order(g: Graph, roots: seq<Option<Node>>) returns (result: Option<seq<Node>>)
    requires Finite(g) && Closed(g, roots)
    ensures result == VisitAll(g, {}, roots, [])
    ensures result.None? <==> Blocked(g, roots)
    ensures result.Some? ==>
      DependenciesFirst(g, result.value) && forall n :: n in result.value <==> Reachable(g, roots, n)
  {
    OrderRejectsExactly(g, roots);
    if !Blocked(g, roots) { OrderIsComplete(g, roots); }
    var states: map<Node, bool> := map[];
    var ordered: seq<Node> := [];
    for r := 0 to |roots|
      invariant Active(states) == {} && Recorded(states, ordered) && states.Keys <= g.Keys
      invariant VisitAll(g, {}, roots[r..], ordered) == VisitAll(g, {}, roots, [])
    {
      assert roots[r..][1..] == roots[r + 1..];
      var ok;
      ok, states, ordered := Exhaust(g, roots[r], states, ordered);
      if !ok { return None; }
    }
    result := Some(ordered);
  }

  // ---------------------------------------------------------------- what the traversal lists, and when it gives up

  predicate IsPath(g: Graph, p: seq<Node>) {
    && p != [] && (forall i :: 0 <= i < |p| ==> p[i] in g)
    && forall i :: 0 <= i < |p| - 1 ==> Some(p[i + 1]) in g[p[i]]
  }

  predicate FromRoots(g: Graph, roots: seq<Option<Node>>, p: seq<Node>) {
    IsPath(g, p) && Some(p[0]) in roots
  }

  ghost predicate Reachable(g: Graph, roots: seq<Option<Node>>, n: Node) {
    exists p :: FromRoots(g, roots, p) && p[|p| - 1] == n
  }

  predicate Repeats(p: seq<Node>) {
    exists i, j :: 0 <= i < j < |p| && p[i] == p[j]
  }

  /** A missing vertex or a cycle can be reached. */
  ghost predicate Blocked(g: Graph, roots: seq<Option<Node>>) {
    None in roots || exists p :: FromRoots(g, roots, p) && (None in g[p[|p| - 1]] || Repeats(p))
  }

  /** No vertex twice, and every vertex after all its dependencies, none of which is missing. */
  predicate DependenciesFirst(g: Graph, o: seq<Node>) {
    && (forall i, j :: 0 <= i < j < |o| ==> o[i] != o[j])
    && forall i :: 0 <= i < |o| ==> o[i] in g && forall d :: d in g[o[i]] ==> d.Some? && d.value in o[..i]
  }

  predicate Extends(ordered: seq<Node>, o: seq<Node>, active: set<Node>) {
    ordered <= o && forall n :: n in o && n in active ==> n in ordered
  }

  lemma {:induction false} AppendKeepsOrder(g: Graph, o: seq<Node>, node: Node)
    requires DependenciesFirst(g, o) && node in g && node !in o
    requires forall d :: d in g[node] ==> d.Some? && d.value in o
    ensures DependenciesFirst(g, o + [node])
  {
    var t := o + [node];
    forall i | 0 <= i < |t| ensures t[i] in g && forall d :: d in g[t[i]] ==> d.Some? && d.value in t[..i] {
      assert t[..i] == o[..i];
      assert o[..|o|] == o;
    }
  }

  lemma {:induction false} VisitOrders(g: Graph, active: set<Node>, node: Node, ordered: seq<Node>)
    requires Finite(g) && node in g && DependenciesFirst(g, ordered)
    ensures var r := Visit(g, active, node, ordered);
      r.Some? ==> DependenciesFirst(g, r.value) && Extends(ordered, r.value, active) && node in r.value
    decreases |g.Keys - active|, 1, 0
  {
    if node !in ordered && node !in active {
      assert node in g.Keys - active;
      Smaller(g.Keys - (active + {node}), g.Keys - active);
      VisitAllOrders(g, active + {node}, g[node], ordered);
      var r := VisitAll(g, active + {node}, g[node], ordered);
      if r.Some? { AppendKeepsOrder(g, r.value, node); }
    }
  }

  lemma {:induction false} VisitAllOrders(g: Graph, active: set<Node>, list: seq<Option<Node>>, ordered: seq<Node>)
    requires Finite(g) && Closed(g, list) && DependenciesFirst(g, ordered)
    ensures var r := VisitAll(g, active, list, ordered);
      r.Some? ==> DependenciesFirst(g, r.value) && Extends(ordered, r.value, active)
    ensures var r := VisitAll(g, active, list, ordered);
      r.Some? ==> forall d :: d in list ==> d.Some? && d.value in r.value
    decreases |g.Keys - active|, 2, |list|
  {
    if list != [] && list[0].Some? {
      VisitOrders(g, active, list[0].value, ordered);
      var first := Visit(g, active, list[0].value, ordered);
      if first.Some? {
        VisitAllOrders(g, active, list[1..], first.value);
        assert forall d :: d in list ==> d == list[0] || d in list[1..];
      }
    }
  }

  /** `trail` is the path of the vertices being visited. */
  predicate Trail(g: Graph, roots: seq<Option<Node>>, trail: seq<Node>, active: set<Node>) {
    Elements(trail) == active && (trail == [] || FromRoots(g, roots, trail))
  }

  predicate Follows(g: Graph, roots: seq<Option<Node>>, trail: seq<Node>, d: Option<Node>) {
    if trail == [] then d in roots else trail[|trail| - 1] in g && d in g[trail[|trail| - 1]]
  }

  lemma {:induction false} VisitReaches(g: Graph, roots: seq<Option<Node>>, trail: seq<Node>, active: set<Node>,
                                        node: Node, ordered: seq<Node>)
    requires Finite(g) && node in g && Trail(g, roots, trail, active) && Follows(g, roots, trail, Some(node))
    ensures var r := Visit(g, active, node, ordered);
      if r.None? then Blocked(g, roots) else forall n :: n in r.value && n !in ordered ==> Reachable(g, roots, n)
    decreases |g.Keys - active|, 1, 0
  {
    TrailExtends(g, roots, trail, active, node);
    if node !in ordered && node !in active {
      assert node in g.Keys - active;
      Smaller(g.Keys - (active + {node}), g.Keys - active);
      VisitAllReaches(g, roots, trail + [node], active + {node}, g[node], ordered);
    }
  }

  lemma {:induction false} TrailExtends(g: Graph, roots: seq<Option<Node>>, trail: seq<Node>, active: set<Node>,
                                        node: Node)
    requires node in g && Trail(g, roots, trail, active) && Follows(g, roots, trail, Some(node))
    ensures Trail(g, roots, trail + [node], active + {node}) && Reachable(g, roots, node)
    ensures forall d :: d in g[node] ==> Follows(g, roots, trail + [node], d)
    ensures node in active ==> Blocked(g, roots)
  {
    var path := trail + [node];
    assert FromRoots(g, roots, path) && path[|path| - 1] == node;
    assert Elements(path) == active + {node};
    if node in active {
      var i :| 0 <= i < |trail| && trail[i] == node;
      assert path[i] == path[|trail|];
      assert Repeats(path);
    }
  }

  lemma {:induction false} VisitAllReaches(g: Graph, roots: seq<Option<Node>>, trail: seq<Node>, active: set<Node>,
                                           list: seq<Option<Node>>, ordered: seq<Node>)
    requires Finite(g) && Closed(g, list) && Trail(g, roots, trail, active)
    requires forall d :: d in list ==> Follows(g, roots, trail, d)
    ensures var r := VisitAll(g, active, list, ordered);
      if r.None? then Blocked(g, roots) else forall n :: n in r.value && n !in ordered ==> Reachable(g, roots, n)
    decreases |g.Keys - active|, 2, |list|
  {
    if list != [] {
      assert list[0] in list;
      if list[0].Some? {
        VisitReaches(g, roots, trail, active, list[0].value, ordered);
        var first := Visit(g, active, list[0].value, ordered);
        if first.Some? { VisitAllReaches(g, roots, trail, active, list[1..], first.value); }
      }
    }
  }

  /** Along a path from the roots, each vertex is listed before the one in front of it. */
  lemma {:induction false} PathIsListed(g: Graph, roots: seq<Option<Node>>, o: seq<Node>, p: seq<Node>, k: nat)
    returns (at: nat)
    requires FromRoots(g, roots, p) && DependenciesFirst(g, o) && k < |p|
    requires forall d :: d in roots ==> d.Some? && d.value in o
    ensures at < |o| && o[at] == p[k]
    ensures forall i, j :: 0 <= i < k && 0 <= j < |o| && o[j] == p[i] ==> at < j
    decreases k
  {
    if k == 0 {
      at :| 0 <= at < |o| && o[at] == p[0];
    } else {
      var above := PathIsListed(g, roots, o, p, k - 1);
      assert Some(p[k]) in g[o[above]] && p[k] in o[..above];
      at :| 0 <= at < above && o[at] == p[k];
    }
  }

  /** A successful traversal lists exactly the vertices that can be reached, each once and after its dependencies. */
  lemma {:induction false} OrderIsComplete(g: Graph, roots: seq<Option<Node>>)
    requires Finite(g) && Closed(g, roots) && VisitAll(g, {}, roots, []).Some?
    ensures var o := VisitAll(g, {}, roots, []).value;
      DependenciesFirst(g, o) && forall n :: n in o <==> Reachable(g, roots, n)
  {
    var o := VisitAll(g, {}, roots, []).value;
    VisitAllOrders(g, {}, roots, []);
    VisitAllReaches(g, roots, [], {}, roots, []);
    forall n | Reachable(g, roots, n) ensures n in o {
      var p :| FromRoots(g, roots, p) && p[|p| - 1] == n;
      var at := PathIsListed(g, roots, o, p, |p| - 1);
    }
  }

  /** The traversal gives up exactly if a missing vertex or a cycle can be reached. */
  lemma {:induction false} OrderRejectsExactly(g: Graph, roots: seq<Option<Node>>)
    requires Finite(g) && Closed(g, roots)
    ensures VisitAll(g, {}, roots, []).None? <==> Blocked(g, roots)
  {
    VisitAllOrders(g, {}, roots, []);
    VisitAllReaches(g, roots, [], {}, roots, []);
    var r := VisitAll(g, {}, roots, []);
    if r.Some? && Blocked(g, roots) {
      var p :| FromRoots(g, roots, p) && (None in g[p[|p| - 1]] || Repeats(p));
      var last := PathIsListed(g, roots, r.value, p, |p| - 1);
      assert Repeats(p);
      var i, j :| 0 <= i < j < |p| && p[i] == p[j];
      var at := PathIsListed(g, roots, r.value, p, j);
      assert false;
    }
  }
}

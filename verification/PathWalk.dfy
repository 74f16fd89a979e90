/** Resolving a path by a worklist of components, against the recursive resolution of section 4.13 of IEEE Std
    1003.1-2017 (Base Definitions), with the kernel's limit of 40 links. */
module PathWalk {
  import opened Basics

  type Path = seq<string>   // the components of an absolute path

  /** `parts` are a link's components as the separator splits them, so some may be empty. */
  datatype Node = Directory | Other | Link(fromRoot: bool, parts: seq<string>)

  type Filesystem = map<Path, Node>

  const MAX_LINKS: nat := 40

  predicate Ordinary(name: string) {
    name != "" && name != "." && name != ".."
  }

  function Parent(p: Path): Path {
    if p == [] then [] else p[..|p| - 1]
  }

  /** One component further from a directory. */
  function Child(p: Path, name: string): Path {
    if name == "" || name == "." then p else if name == ".." then Parent(p) else p + [name]
  }

  /** No link, and nothing but directories, above `p`. */
  predicate Canonical(fs: Filesystem, p: Path) {
    forall k :: 0 <= k < |p| ==> Ordinary(p[k]) && p[..k] in fs && fs[p[..k]].Directory?
  }

  datatype Error = Absent | NotDirectory | TooManyLinks | LinkResolutionChanged

  /** Where a resolution ends, and how many links it has followed; a missing entry ends it at the entry's place. */
  datatype Outcome = At(path: Path, links: nat) | Failed(error: Error, links: nat)

  function LinkBase(p: Path, link: Node): Path
    requires link.Link?
  {
    if link.fromRoot then [] else Parent(p)
  }

  // ---------------------------------------------------------------- the reference: links resolved within links

  /** Resolves `rest` from `here`: a link is resolved to its very end before the components behind it are looked at. */
  function Resolve(fs: Filesystem, here: Path, rest: seq<string>, follow: bool, links: nat): (r: Outcome)
    requires links <= MAX_LINKS
    ensures links <= r.links <= MAX_LINKS
    ensures r.At? ==> r.path in fs && (follow ==> !fs[r.path].Link?)
    decreases MAX_LINKS - links, |rest|
  {
    if here !in fs then Failed(Absent, links)
    else if fs[here].Link? && (rest != [] || follow) then
      if links == MAX_LINKS then Failed(TooManyLinks, links)
      else
        var target := Resolve(fs, LinkBase(here, fs[here]), fs[here].parts, true, links + 1);
        if target.Failed? then target
        else if rest == [] then target
        else if !fs[target.path].Directory? then Failed(NotDirectory, target.links)
        else Resolve(fs, Child(target.path, rest[0]), rest[1..], follow, target.links)
    else if rest == [] then At(here, links)
    else if !fs[here].Directory? then Failed(NotDirectory, links)
    else Resolve(fs, Child(here, rest[0]), rest[1..], follow, links)
  }

  // ---------------------------------------------------------------- the worklist

  /** The same with one list: a link's components are put in front of those still to come. */
  function Spliced(fs: Filesystem, here: Path, pending: seq<string>, follow: bool, links: nat): (r: Outcome)
    requires links <= MAX_LINKS
    decreases MAX_LINKS - links, |pending|
  {
    if here !in fs then Failed(Absent, links)
    else if fs[here].Link? && (pending != [] || follow) then
      if links == MAX_LINKS then Failed(TooManyLinks, links)
      else Spliced(fs, LinkBase(here, fs[here]), fs[here].parts + pending, follow, links + 1)
    else if pending == [] then At(here, links)
    else if !fs[here].Directory? then Failed(NotDirectory, links)
    else Spliced(fs, Child(here, pending[0]), pending[1..], follow, links)
  }

  /** Going on from where a link's own resolution has ended. */
  function Onward(fs: Filesystem, target: Outcome, rest: seq<string>, follow: bool): Outcome
    requires target.links <= MAX_LINKS && (target.At? ==> target.path in fs)
  {
    if target.Failed? then target
    else if rest == [] then target
    else if !fs[target.path].Directory? then Failed(NotDirectory, target.links)
    else Spliced(fs, Child(target.path, rest[0]), rest[1..], follow, target.links)
  }

  /** Splicing a list in front of another is the same as resolving the first to its end and then going on. */
  lemma {:induction false} SpliceIsNested(fs: Filesystem, here: Path, first: seq<string>, rest: seq<string>,
                                          follow: bool, links: nat)
    requires links <= MAX_LINKS && (rest != [] || follow)
    ensures Spliced(fs, here, first + rest, follow, links) ==
      Onward(fs, Resolve(fs, here, first, true, links), rest, follow)
    decreases MAX_LINKS - links, |first|
  {
    if here !in fs {
    } else if fs[here].Link? {
      if links < MAX_LINKS {
        var base, parts := LinkBase(here, fs[here]), fs[here].parts;
        SpliceIsNested(fs, base, parts, first + rest, follow, links + 1);
        var target := Resolve(fs, base, parts, true, links + 1);
        if target.At? {
          if first == [] {
            assert first + rest == rest;
          } else {
            assert (first + rest)[1..] == first[1..] + rest;
            if fs[target.path].Directory? {
              SpliceIsNested(fs, Child(target.path, first[0]), first[1..], rest, follow, target.links);
            }
          }
        }
      }
    } else if first == [] {
      assert first + rest == rest;
    } else {
      assert (first + rest)[1..] == first[1..] + rest;
      if fs[here].Directory? {
        SpliceIsNested(fs, Child(here, first[0]), first[1..], rest, follow, links);
      }
    }
  }

  /** The worklist agrees with the recursive resolution on every filesystem, path and starting point. */
  lemma {:induction false} WorklistAgrees(fs: Filesystem, here: Path, pending: seq<string>, follow: bool, links: nat)
    requires links <= MAX_LINKS
    ensures Spliced(fs, here, pending, follow, links) == Resolve(fs, here, pending, follow, links)
    decreases MAX_LINKS - links, |pending|
  {
    if here !in fs {
    } else if fs[here].Link? && (pending != [] || follow) {
      if links < MAX_LINKS {
        var base, parts := LinkBase(here, fs[here]), fs[here].parts;
        SpliceIsNested(fs, base, parts, pending, follow, links + 1);
        var target := Resolve(fs, base, parts, true, links + 1);
        if target.At? && pending != [] && fs[target.path].Directory? {
          WorklistAgrees(fs, Child(target.path, pending[0]), pending[1..], follow, target.links);
        }
      }
    } else if pending != [] && fs[here].Directory? {
      WorklistAgrees(fs, Child(here, pending[0]), pending[1..], follow, links);
    }
  }

  // ---------------------------------------------------------------- the loop

  lemma {:induction false} ParentCanonical(fs: Filesystem, p: Path)
    requires Canonical(fs, p)
    ensures Canonical(fs, Parent(p))
  {
    if p != [] {
      assert forall k :: 0 <= k < |p| - 1 ==> p[..|p| - 1][..k] == p[..k];
    }
  }

  lemma {:induction false} ChildCanonical(fs: Filesystem, p: Path, name: string)
    requires Canonical(fs, p) && p in fs && fs[p].Directory?
    ensures Canonical(fs, Child(p, name))
  {
    ParentCanonical(fs, p);
    if Ordinary(name) {
      assert forall k :: 0 <= k <= |p| ==> (p + [name])[..k] == p[..k];
    }
  }

  /** The kernel starts at the root; from there it comes past any canonical place without following a link. */
  lemma {:induction false} FromRoot(fs: Filesystem, start: Path, k: nat, rest: seq<string>, follow: bool)
    requires Canonical(fs, start) && k <= |start|
    ensures Resolve(fs, start[..k], start[k..] + rest, follow, 0) == Resolve(fs, start, rest, follow, 0)
    decreases |start| - k
  {
    if k == |start| {
      assert start[..k] == start && start[k..] + rest == rest;
    } else {
      FromRoot(fs, start, k + 1, rest, follow);
      assert (start[k..] + rest)[1..] == start[k + 1..] + rest;
      assert Child(start[..k], start[k]) == start[..k + 1];
    }
  }

  /** The check at the end of a walk that followed links: the kernel finds the same entry, or likewise none. */
  predicate Confirms(found: Outcome, actual: Outcome, identity: Path -> nat) {
    match found
    case At(p, _) => actual.At? && identity(actual.path) == identity(p)
    case Failed(e, _) => !e.Absent? || (actual.Failed? && actual.error.Absent?)
  }

  /** What a walk reports when a resolution comes out as `found`. */
  function Reported(found: Outcome, actual: Outcome, identity: Path -> nat): Outcome {
    if found.links > 0 && !Confirms(found, actual, identity) then Failed(LinkResolutionChanged, found.links) else found
  }

  ghost predicate AllCanonical(fs: Filesystem, visited: seq<Path>) {
    forall p :: p in visited ==> Canonical(fs, p)
  }

  /** The loop: `visited` are the places captured, in order. */
  method WalkOn(fs: Filesystem, start: Path, rest: seq<string>, followFinal: bool, actual: Outcome,
                identity: Path -> nat)
    returns (outcome: Outcome, visited: seq<Path>)
    requires Canonical(fs, start)
    ensures AllCanonical(fs, visited) && visited != [] && visited[0] == start
    ensures outcome.At? ==> visited[|visited| - 1] == outcome.path
    ensures outcome.Failed? && outcome.error.Absent? ==> visited[|visited| - 1] !in fs
    ensures outcome == Reported(Spliced(fs, start, rest, followFinal, 0), actual, identity)
  {
    var current, pending, links := start, rest, 0;
    ghost var expected := Spliced(fs, start, rest, followFinal, 0);
    visited := [];
    while true
      invariant links <= MAX_LINKS && Canonical(fs, current) && AllCanonical(fs, visited)
      invariant if visited == [] then current == start else visited[0] == start
      invariant Spliced(fs, current, pending, followFinal, links) == expected
      decreases MAX_LINKS - links, |pending|
    {
      var info := if current in fs then Some(fs[current]) else None;
      var isLink := info.Some? && info.value.Link?;
      var terminal := pending == [] && (!isLink || !followFinal);
      visited := visited + [current];
      if info.None? || terminal {
        var here := if info.Some? then At(current, links) else Failed(Absent, links);
        assert here == expected;
        if links > 0 && !Confirms(here, actual, identity) { return Failed(LinkResolutionChanged, links), visited; }
        return here, visited;
      }
      if isLink {
        if links + 1 > MAX_LINKS { return Failed(TooManyLinks, links), visited; }
        links := links + 1;
        pending := info.value.parts + pending;
        ParentCanonical(fs, current);
        current := LinkBase(current, info.value);
      } else {
        var component := pending[0];
        pending := pending[1..];
        if !info.value.Directory? { return Failed(NotDirectory, links), visited; }
        ChildCanonical(fs, current, component);
        current := Child(current, component);
      }
    }
  }

  /** A walk as its consumer sees it.  `actual` is what the kernel says of the whole path when it is asked at the end,
      and `identity` what it says of a place.  On a filesystem that stays as it is the two agree, and the check never
      fires. */
  method Walk(fs: Filesystem, start: Path, rest: seq<string>, followFinal: bool, actual: Outcome, identity: Path -> nat)
    returns (outcome: Outcome, visited: seq<Path>)
    requires Canonical(fs, start)
    ensures AllCanonical(fs, visited) && visited != [] && visited[0] == start
    ensures outcome.At? ==> visited[|visited| - 1] == outcome.path
    ensures outcome.Failed? && outcome.error.Absent? ==> visited[|visited| - 1] !in fs
    ensures outcome == Reported(Resolve(fs, start, rest, followFinal, 0), actual, identity)
    ensures actual == Resolve(fs, [], start + rest, followFinal, 0) ==> outcome == actual
  {
    WorklistAgrees(fs, start, rest, followFinal, 0);
    FromRoot(fs, start, 0, rest, followFinal);
    assert start[..0] == [] && start[0..] + rest == start + rest;
    outcome, visited := WalkOn(fs, start, rest, followFinal, actual, identity);
  }
}

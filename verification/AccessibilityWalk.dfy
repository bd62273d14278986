/** The walk over an accessibility tree that collects what can be clicked, up to a cap. */
module AccessibilityWalk {
  import opened Wrappers
  import Decimal

  /** A widget as its queries answered, each failed query having left its default; a child may be unreadable. */
  datatype Node = Node(
    role: string, name: string, showing: bool, x: int, y: int, w: int, h: int,
    snippet: string, owner: string, children: seq<Option<Node>>)

  datatype Element = Element(id: string, role: string, name: string, x: int, y: int, w: int, h: int, text: string)

  datatype Line =
    | MenuOpen(owner: string)
    | Clickable(id: string, role: string, name: string, x: int, y: int, snippet: string)
    | Shows(role: string, text: string)

  const ACTIONABLE: set<string> := {
    "push button", "toggle button", "check box", "radio button", "menu item", "radio menu item", "check menu item",
    "text", "entry", "password text", "combo box", "spin button", "list item", "link", "page tab", "menu",
    "tree item", "table cell", "slider", "split button"}

  const TEXTY: set<string> := {
    "text", "entry", "password text", "terminal", "document frame", "document web", "paragraph", "label", "static"}

  const MAX_CHILDREN: nat := 40

  datatype Options = Options(maxDepth: nat, skipRoles: set<string>, clickRoles: set<string>)

  function Take(s: string, n: nat): string {
    if |s| <= n then s else s[..n]
  }

  function ElementId(n: nat): string {
    "e" + Decimal.Render(n)
  }

  predicate IsTarget(o: Options, n: Node) {
    (n.role in ACTIONABLE || n.role in o.clickRoles) && n.showing && n.w > 0 && n.h > 0 && n.x >= 0 && n.y >= 0
  }

  function ElementOf(n: Node, index: nat): Element {
    Element(ElementId(index), n.role, n.name, n.x, n.y, n.w, n.h, Take(n.snippet, 120))
  }

  function LinesOf(o: Options, n: Node, index: nat): seq<Line> {
    (if (n.role == "menu" || n.role == "popup menu") && n.showing then
       var owner := if n.name != "" then n.name else n.owner;
       [MenuOpen(if owner != "" then owner else "?")] else []) +
    (if IsTarget(o, n) then [Clickable(ElementId(index), n.role, n.name, n.x, n.y, Take(n.snippet, 80))]
     else if n.role in TEXTY && (n.name != "" || n.snippet != "") then
       [Shows(n.role, if n.name != "" then n.name else Take(n.snippet, if n.role == "terminal" then 230 else 80))]
     else [])
  }

  // ------------------------------------------------------------------ what there is to visit

  /** The nodes an uncapped walk looks at, in the order it looks at them. */
  function Visits(o: Options, n: Node, depth: nat): seq<Node>
    decreases n, |n.children| + 1
  {
    if depth > o.maxDepth || n.role in o.skipRoles then []
    else [n] + VisitsFrom(o, n, 0, depth + 1)
  }

  /** Those below its children, from one of them on; children past the fortieth are never looked at. */
  function VisitsFrom(o: Options, n: Node, from: nat, depth: nat): seq<Node>
    decreases n, if from <= |n.children| then |n.children| - from else 0
  {
    if from >= |n.children| || from >= MAX_CHILDREN then []
    else (match n.children[from]
          case None => []
          case Some(child) => Visits(o, child, depth)) + VisitsFrom(o, n, from + 1, depth)
  }

  datatype Screen = Screen(elements: seq<Element>, lines: seq<Line>)

  function Look(o: Options, s: Screen, n: Node): Screen {
    Screen(
      if IsTarget(o, n) then s.elements + [ElementOf(n, |s.elements|)] else s.elements,
      s.lines + LinesOf(o, n, |s.elements|))
  }

  /** Look at every node. */
  function Collect(o: Options, s: Screen, nodes: seq<Node>): Screen
    decreases |nodes|
  {
    if nodes == [] then s else Collect(o, Look(o, s, nodes[0]), nodes[1..])
  }

  /** Look at nodes until there are enough elements. */
  function CollectUpTo(o: Options, s: Screen, nodes: seq<Node>, cap: nat): Screen
    decreases |nodes|
  {
    if nodes == [] || |s.elements| >= cap then s else CollectUpTo(o, Look(o, s, nodes[0]), nodes[1..], cap)
  }

  function Targets(o: Options, nodes: seq<Node>): seq<Node> {
    if nodes == [] then []
    else (if IsTarget(o, nodes[0]) then [nodes[0]] else []) + Targets(o, nodes[1..])
  }

  lemma {:induction false} CollectUpToConcat(o: Options, s: Screen, a: seq<Node>, b: seq<Node>, cap: nat)
    ensures CollectUpTo(o, s, a + b, cap) == CollectUpTo(o, CollectUpTo(o, s, a, cap), b, cap)
    decreases |a|
  {
    hide Look;
    if a == [] {
      assert a + b == b;
    } else {
      assert (a + b)[0] == a[0] && (a + b)[1..] == a[1..] + b;
      if |s.elements| < cap {
        CollectUpToConcat(o, Look(o, s, a[0]), a[1..], b, cap);
      }
    }
  }

  lemma NothingToCollect(o: Options, s: Screen, cap: nat)
    ensures CollectUpTo(o, s, [], cap) == s
  {
  }

  // ------------------------------------------------------------------ the walk

  class Sensor {
    const o: Options
    const cap: nat
    var elements: seq<Element>
    var lines: seq<Line>

    constructor (o: Options, cap: nat)
      ensures this.o == o && this.cap == cap && Seen() == Screen([], [])
    {
      this.o := o;
      this.cap := cap;
      elements := [];
      lines := [];
    }

    function Seen(): Screen
      reads this
    {
      Screen(elements, lines)
    }

    /** Depth first, parent before children, into the shared lists, giving up at the cap. */
    method Walk(n: Node, depth: nat)
      modifies this
      ensures Seen() == CollectUpTo(o, old(Seen()), Visits(o, n, depth), cap)
      decreases n, 1
    {
      if depth > o.maxDepth || |elements| >= cap {
        return;
      }
      if n.role in o.skipRoles {
        return;
      }
      hide LinesOf, IsTarget, ElementOf;
      ghost var nodes := Visits(o, n, depth);
      assert nodes[0] == n && nodes[1..] == VisitsFrom(o, n, 0, depth + 1);
      lines := lines + LinesOf(o, n, |elements|);
      if IsTarget(o, n) {
        elements := elements + [ElementOf(n, |elements|)];
      }
      WalkChildren(n, depth + 1);
    }

    method WalkChildren(n: Node, depth: nat)
      modifies this
      ensures Seen() == CollectUpTo(o, old(Seen()), VisitsFrom(o, n, 0, depth), cap)
      decreases n, 0
    {
      hide Visits, CollectUpTo;
      var last := if |n.children| < MAX_CHILDREN then |n.children| else MAX_CHILDREN;
      for i := 0 to last
        invariant CollectUpTo(o, old(Seen()), VisitsFrom(o, n, 0, depth), cap)
               == CollectUpTo(o, Seen(), VisitsFrom(o, n, i, depth), cap)
      {
        match n.children[i] {
          case None =>
            assert [] + VisitsFrom(o, n, i + 1, depth) == VisitsFrom(o, n, i + 1, depth);
          case Some(child) =>
            CollectUpToConcat(o, Seen(), Visits(o, child, depth), VisitsFrom(o, n, i + 1, depth), cap);
            Walk(child, depth);
        }
      }
      NothingToCollect(o, Seen(), cap);
    }

    /** Several frames, one after another, into the same lists. */
    method WalkAll(frames: seq<Node>)
      modifies this
      ensures Seen() == CollectUpTo(o, old(Seen()), VisitsOfAll(o, frames), cap)
    {
      for i := 0 to |frames|
        invariant CollectUpTo(o, old(Seen()), VisitsOfAll(o, frames), cap)
               == CollectUpTo(o, Seen(), VisitsOfAll(o, frames[i..]), cap)
      {
        assert frames[i..][0] == frames[i] && frames[i..][1..] == frames[i + 1..];
        CollectUpToConcat(o, Seen(), Visits(o, frames[i], 0), VisitsOfAll(o, frames[i + 1..]), cap);
        Walk(frames[i], 0);
      }
    }
  }

  function VisitsOfAll(o: Options, frames: seq<Node>): seq<Node> {
    if frames == [] then [] else Visits(o, frames[0], 0) + VisitsOfAll(o, frames[1..])
  }

  // ------------------------------------------------------------------ what is visited

  type Path = seq<nat>

  /** The node that the child numbers of a path lead to, if each of them can be read. */
  function NodeAt(n: Node, path: Path): Option<Node>
    decreases |path|
  {
    if path == [] then Some(n)
    else if path[0] < |n.children| && n.children[path[0]].Some? then NodeAt(n.children[path[0]].value, path[1..])
    else None
  }

  /** Not too deep, never past a fortieth child, and readable and of no skipped role all the way down. */
  ghost predicate Reached(o: Options, n: Node, depth: nat, path: Path) {
    && depth + |path| <= o.maxDepth
    && (forall k :: 0 <= k < |path| ==> path[k] < 40)
    && forall k :: 0 <= k <= |path| ==>
         NodeAt(n, path[..k]).Some? && NodeAt(n, path[..k]).value.role !in o.skipRoles
  }

  /** Parents before children, and earlier children with all below them before later ones. */
  predicate Earlier(a: Path, b: Path) {
    b != [] && (a == [] || a[0] < b[0] || (a[0] == b[0] && Earlier(a[1..], b[1..])))
  }

  /** These are the nodes at these paths, and each path is there once and in its order. */
  ghost predicate InOrder(n: Node, nodes: seq<Node>, paths: seq<Path>) {
    && |nodes| == |paths|
    && (forall i :: 0 <= i < |nodes| ==> NodeAt(n, paths[i]) == Some(nodes[i]))
    && forall i, j :: 0 <= i < j < |paths| ==> Earlier(paths[i], paths[j])
  }

  lemma ReachedFromChild(o: Options, n: Node, depth: nat, path: Path)
    requires path != []
    ensures Reached(o, n, depth, path) <==>
      && depth <= o.maxDepth && n.role !in o.skipRoles
      && path[0] < |n.children| && path[0] < 40 && n.children[path[0]].Some?
      && Reached(o, n.children[path[0]].value, depth + 1, path[1..])
  {
    var rest := path[1..];
    if path[0] < |n.children| && n.children[path[0]].Some? {
      var child := n.children[path[0]].value;
      forall k | 0 <= k <= |rest| ensures NodeAt(n, path[..k + 1]) == NodeAt(child, rest[..k]) {
        assert path[..k + 1][0] == path[0] && path[..k + 1][1..] == rest[..k];
      }
      assert forall k :: 0 <= k < |rest| ==> rest[k] == path[k + 1];
      if Reached(o, n, depth, path) {
        assert NodeAt(n, path[..0]) == Some(n);
        forall k | 0 <= k <= |rest|
          ensures NodeAt(child, rest[..k]).Some? && NodeAt(child, rest[..k]).value.role !in o.skipRoles
        {
          assert NodeAt(n, path[..k + 1]).Some?;
        }
      }
      if n.role !in o.skipRoles && path[0] < 40 && Reached(o, child, depth + 1, rest) {
        forall k | 0 <= k <= |path|
          ensures NodeAt(n, path[..k]).Some? && NodeAt(n, path[..k]).value.role !in o.skipRoles
        {
          if k > 0 {
            assert NodeAt(child, rest[..k - 1]).Some?;
          }
        }
      }
    } else {
      assert path[..1][0] == path[0];
      assert NodeAt(n, path[..1]).None?;
    }
  }

  lemma ReachedRoot(o: Options, n: Node, depth: nat)
    ensures Reached(o, n, depth, []) <==> depth <= o.maxDepth && n.role !in o.skipRoles
  {
    var path: Path := [];
    assert path[..0] == [];
    if Reached(o, n, depth, []) {
      assert NodeAt(n, path[..0]).Some?;
    }
  }

  function Below(i: nat, paths: seq<Path>): seq<Path> {
    seq(|paths|, k requires 0 <= k < |paths| => [i] + paths[k])
  }

  lemma VisitedPaths(o: Options, n: Node, depth: nat) returns (paths: seq<Path>)
    ensures InOrder(n, Visits(o, n, depth), paths)
    ensures forall path :: path in paths <==> Reached(o, n, depth, path)
    decreases n, |n.children| + 1
  {
    if depth > o.maxDepth || n.role in o.skipRoles {
      paths := [];
      forall path: Path ensures !Reached(o, n, depth, path) {
        if path == [] { ReachedRoot(o, n, depth); } else { ReachedFromChild(o, n, depth, path); }
      }
    } else {
      var below := VisitedPathsFrom(o, n, 0, depth);
      paths := [[]] + below;
      ReachedRoot(o, n, depth);
      PutFirst(n, VisitsFrom(o, n, 0, depth + 1), below);
      assert forall path :: path in paths <==> path == [] || path in below;
    }
  }

  lemma PutFirst(n: Node, nodes: seq<Node>, below: seq<Path>)
    requires InOrder(n, nodes, below) && forall path :: path in below ==> path != []
    ensures InOrder(n, [n] + nodes, [[]] + below)
  {
    var paths: seq<Path> := [[]] + below;
    forall j | 0 < j < |paths| ensures paths[j] == below[j - 1] && paths[j] != [] {
      assert below[j - 1] in below;
    }
  }

  lemma VisitedPathsFrom(o: Options, n: Node, from: nat, depth: nat) returns (paths: seq<Path>)
    requires depth <= o.maxDepth && n.role !in o.skipRoles
    ensures InOrder(n, VisitsFrom(o, n, from, depth + 1), paths)
    ensures forall path :: path in paths <==> path != [] && path[0] >= from && Reached(o, n, depth, path)
    decreases n, if from <= |n.children| then |n.children| - from else 0
  {
    hide Reached;
    if from >= |n.children| || from >= MAX_CHILDREN {
      paths := [];
      forall path: Path | path != [] && path[0] >= from ensures !Reached(o, n, depth, path) {
        ReachedFromChild(o, n, depth, path);
      }
    } else {
      var later := VisitedPathsFrom(o, n, from + 1, depth);
      var inner: seq<Path> := [];
      var nodes: seq<Node> := [];
      if n.children[from].Some? {
        inner := VisitedPaths(o, n.children[from].value, depth + 1);
        nodes := Visits(o, n.children[from].value, depth + 1);
      }
      paths := Below(from, inner) + later;
      BelowThenLater(n, from, nodes, inner, VisitsFrom(o, n, from + 1, depth + 1), later);
      forall path: Path
        ensures path in paths <==> path != [] && path[0] >= from && Reached(o, n, depth, path)
      {
        InBelow(from, inner, path);
        if path != [] {
          ReachedFromChild(o, n, depth, path);
        }
      }
    }
  }

  lemma InBelow(i: nat, inner: seq<Path>, path: Path)
    ensures path in Below(i, inner) <==> path != [] && path[0] == i && path[1..] in inner
  {
    if path != [] && path[0] == i && path[1..] in inner {
      var k :| 0 <= k < |inner| && inner[k] == path[1..];
      assert Below(i, inner)[k] == [i] + path[1..] == path;
    }
    if path in Below(i, inner) {
      var k :| 0 <= k < |inner| && Below(i, inner)[k] == path;
      assert path == [i] + inner[k] && path[1..] == inner[k];
    }
  }

  lemma BelowThenLater(n: Node, i: nat, nodes: seq<Node>, inner: seq<Path>, rest: seq<Node>, later: seq<Path>)
    requires i < |n.children| && InOrder(n, rest, later)
    requires if n.children[i].Some? then InOrder(n.children[i].value, nodes, inner) else nodes == [] && inner == []
    requires forall path :: path in later ==> path != [] && path[0] > i
    ensures InOrder(n, nodes + rest, Below(i, inner) + later)
  {
    var below := Below(i, inner);
    var paths := below + later;
    forall k | 0 <= k < |below| ensures below[k] != [] && below[k][0] == i && below[k][1..] == inner[k] {
      assert below[k] == [i] + inner[k];
    }
    forall k | 0 <= k < |nodes| ensures NodeAt(n, below[k]) == Some(nodes[k]) {
      assert NodeAt(n.children[i].value, inner[k]) == Some(nodes[k]);
    }
    forall k | 0 <= k < |later| ensures later[k] != [] && later[k][0] > i {
      assert later[k] in later;
    }
    forall a, b | 0 <= a < b < |paths| ensures Earlier(paths[a], paths[b]) {
      if b < |below| {
        assert Earlier(inner[a], inner[b]);
      } else if a >= |below| {
        assert Earlier(later[a - |below|], later[b - |below|]);
      }
    }
  }

  /** A walk of `n` looks at exactly the nodes it can reach, each once, in depth-first order. */
  lemma VisitedExactlyTheReached(o: Options, n: Node)
    ensures exists paths ::
              InOrder(n, Visits(o, n, 0), paths) && forall path :: path in paths <==> Reached(o, n, 0, path)
  {
    var paths := VisitedPaths(o, n, 0);
  }

  // ------------------------------------------------------------------ the cap only cuts

  /** Uncapped, every target is collected, in order, numbered from where the list stood. */
  lemma {:induction false} CollectTakesEveryTarget(o: Options, s: Screen, nodes: seq<Node>)
    ensures var r, t, k := Collect(o, s, nodes), Targets(o, nodes), |s.elements|;
      && s.lines <= r.lines
      && r.elements == s.elements + seq(|t|, i requires 0 <= i < |t| => ElementOf(t[i], k + i))
    decreases |nodes|
  {
    hide LinesOf, IsTarget, ElementOf;
    if nodes != [] {
      CollectTakesEveryTarget(o, Look(o, s, nodes[0]), nodes[1..]);
    }
  }

  /** Capped, the walk collects exactly the first elements of the uncapped one, and writes a prefix of its lines. */
  lemma {:induction false} CapOnlyCuts(o: Options, s: Screen, nodes: seq<Node>, cap: nat)
    requires |s.elements| <= cap
    ensures var some, all := CollectUpTo(o, s, nodes, cap), Collect(o, s, nodes);
      && some.lines <= all.lines
      && some.elements == (if |all.elements| <= cap then all.elements else all.elements[..cap])
    decreases |nodes|
  {
    hide LinesOf, IsTarget, ElementOf;
    if nodes != [] && |s.elements| < cap {
      CapOnlyCuts(o, Look(o, s, nodes[0]), nodes[1..], cap);
    } else {
      CollectTakesEveryTarget(o, s, nodes);
    }
  }

  /** In any walk over any frames, the element at place `i` has the id of that place, and no two ids are alike. */
  lemma IdsAreThePlaces(o: Options, frames: seq<Node>, cap: nat, i: nat, j: nat)
    requires var found := CollectUpTo(o, Screen([], []), VisitsOfAll(o, frames), cap).elements;
      i < |found| && j < |found|
    ensures var found := CollectUpTo(o, Screen([], []), VisitsOfAll(o, frames), cap).elements;
      && found[i].id == ElementId(i)
      && (found[i].id == found[j].id ==> i == j)
  {
    hide VisitsOfAll, CollectUpTo, Collect, ElementId, Targets;
    var nodes := VisitsOfAll(o, frames);
    var found, all := CollectUpTo(o, Screen([], []), nodes, cap).elements, Collect(o, Screen([], []), nodes).elements;
    CapOnlyCuts(o, Screen([], []), nodes, cap);
    CollectTakesEveryTarget(o, Screen([], []), nodes);
    assert found[i] == all[i] == ElementOf(Targets(o, nodes)[i], i);
    assert found[j] == all[j] == ElementOf(Targets(o, nodes)[j], j);
    PlacesHaveTheirOwnIds(i, j);
  }

  lemma PlacesHaveTheirOwnIds(i: nat, j: nat)
    ensures ElementId(i) == ElementId(j) ==> i == j
  {
    hide Decimal.Render;
    assert ElementId(i)[1..] == Decimal.Render(i) && ElementId(j)[1..] == Decimal.Render(j);
    if ElementId(i) == ElementId(j) {
      Decimal.RenderInjective(i, j);
    }
  }

  // ------------------------------------------------------------------ what is found

  /** The element gives this node, which can be clicked: where it is, and its first hundred and twenty characters. */
  predicate Gives(o: Options, e: Element, n: Node) {
    && n.showing && n.w > 0 && n.h > 0 && n.x >= 0 && n.y >= 0 && (n.role in ACTIONABLE || n.role in o.clickRoles)
    && e.role == n.role && e.name == n.name && e.x == n.x && e.y == n.y && e.w == n.w && e.h == n.h
    && e.text <= n.snippet && |e.text| == if |n.snippet| < 120 then |n.snippet| else 120
  }

  lemma {:induction false} TargetsAreThose(o: Options, nodes: seq<Node>)
    ensures forall n :: n in Targets(o, nodes) <==> n in nodes && IsTarget(o, n)
    decreases |nodes|
  {
    hide IsTarget;
    if nodes != [] {
      TargetsAreThose(o, nodes[1..]);
      assert forall n :: n in nodes <==> n == nodes[0] || n in nodes[1..];
    }
  }

  lemma GivesItsNode(o: Options, n: Node, index: nat)
    ensures IsTarget(o, n) ==> Gives(o, ElementOf(n, index), n)
    ensures (exists e :: Gives(o, e, n)) ==> IsTarget(o, n)
  {
  }

  /** Every element found is a visited node that can be clicked; and short of the cap every such node is found. */
  lemma FoundExactlyTheClickable(o: Options, frames: seq<Node>, cap: nat)
    ensures var nodes := VisitsOfAll(o, frames);
      var found := CollectUpTo(o, Screen([], []), nodes, cap).elements;
      && |found| <= cap
      && (forall e :: e in found ==> exists n :: n in nodes && Gives(o, e, n))
      && (|found| < cap ==>
            forall n, e :: n in nodes && Gives(o, e, n) ==> exists f :: f in found && Gives(o, f, n))
  {
    hide IsTarget, ElementOf, Gives, CollectUpTo, Collect, VisitsOfAll;
    var nodes := VisitsOfAll(o, frames);
    var found, all := CollectUpTo(o, Screen([], []), nodes, cap).elements, Collect(o, Screen([], []), nodes).elements;
    var targets := Targets(o, nodes);
    CapOnlyCuts(o, Screen([], []), nodes, cap);
    CollectTakesEveryTarget(o, Screen([], []), nodes);
    TargetsAreThose(o, nodes);
    forall i | 0 <= i < |all| ensures targets[i] in nodes && Gives(o, all[i], targets[i]) {
      assert targets[i] in targets;
      assert all[i] == ElementOf(targets[i], i);
      GivesItsNode(o, targets[i], i);
    }
    forall e | e in found ensures exists n :: n in nodes && Gives(o, e, n) {
      var i :| 0 <= i < |found| && found[i] == e;
      assert all[i] == e;
    }
    if |found| < cap {
      forall n, e | n in nodes && Gives(o, e, n) ensures exists f :: f in found && Gives(o, f, n) {
        GivesItsNode(o, n, 0);
        var i :| 0 <= i < |targets| && targets[i] == n;
        assert all[i] in found;
      }
    }
  }

  function Clickables(lines: seq<Line>): seq<Line> {
    if lines == [] then []
    else
      var last := lines[|lines| - 1];
      Clickables(lines[..|lines| - 1]) + if last.Clickable? then [last] else []
  }

  lemma {:induction false} ClickablesOfConcat(a: seq<Line>, b: seq<Line>)
    ensures Clickables(a + b) == Clickables(a) + Clickables(b)
  {
    if b == [] {
      assert a + b == a;
    } else {
      ClickablesOfConcat(a, b[..|b| - 1]);
      assert (a + b)[..|a + b| - 1] == a + b[..|b| - 1];
    }
  }

  /** The line tells of the element: under the same id, at the same place, with the beginning of the same text. */
  predicate TellsOf(line: Line, e: Element) {
    && line.Clickable? && line.id == e.id && line.role == e.role && line.name == e.name
    && line.x == e.x && line.y == e.y
    && line.snippet <= e.text && |line.snippet| == if |e.text| < 80 then |e.text| else 80
  }

  ghost predicate LinesMatch(s: Screen) {
    && |Clickables(s.lines)| == |s.elements|
    && forall i :: 0 <= i < |s.elements| ==> TellsOf(Clickables(s.lines)[i], s.elements[i])
  }

  lemma LookMatches(o: Options, s: Screen, n: Node)
    requires LinesMatch(s)
    ensures LinesMatch(Look(o, s, n))
  {
    hide TellsOf;
    var lines := LinesOf(o, n, |s.elements|);
    ClickablesOfConcat(s.lines, lines);
    LinesOfTarget(o, n, |s.elements|);
  }

  lemma TakeLess(s: string, a: nat, b: nat)
    requires a <= b
    ensures Take(s, a) <= Take(s, b)
    ensures |Take(s, a)| == if |Take(s, b)| < a then |Take(s, b)| else a
  {
  }

  lemma FewLines(lines: seq<Line>)
    requires |lines| <= 2
    ensures Clickables(lines) == (if |lines| > 0 && lines[0].Clickable? then [lines[0]] else [])
                                 + if |lines| == 2 && lines[1].Clickable? then [lines[1]] else []
  {
    if |lines| == 2 {
      assert lines[..1] == [lines[0]] && lines[..1][..0] == [];
    }
  }

  lemma LinesOfTarget(o: Options, n: Node, index: nat)
    ensures var lines := Clickables(LinesOf(o, n, index));
      if IsTarget(o, n) then |lines| == 1 && TellsOf(lines[0], ElementOf(n, index)) else lines == []
  {
    hide IsTarget, Take;
    FewLines(LinesOf(o, n, index));
    TakeLess(n.snippet, 80, 120);
  }

  /** The lines that offer something to click are the elements, one for one and in order, up to the same cap. */
  lemma {:induction false} LinesOfferTheElements(o: Options, s: Screen, nodes: seq<Node>, cap: nat)
    requires LinesMatch(s)
    ensures LinesMatch(CollectUpTo(o, s, nodes, cap))
    decreases |nodes|
  {
    hide Look, LinesMatch;
    if nodes != [] && |s.elements| < cap {
      LookMatches(o, s, nodes[0]);
      LinesOfferTheElements(o, Look(o, s, nodes[0]), nodes[1..], cap);
    }
  }
}

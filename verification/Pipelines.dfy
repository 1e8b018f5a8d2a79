/** The pipeline aggregate: nodes, edges, stylesheet resolution, reachability
    and validation. */
module Pipelines {
  import opened Basics
  import opened Guard

  datatype NodeShape = START | EXIT | CODERGEN | CONDITIONAL | TOOL | FAN_OUT | FAN_IN | HUMAN

  type Positive = n: nat | n >= 1 witness 1

  datatype GoalGatePolicy = GoalGatePolicy(retryTarget: string, maxAttempts: Positive)

  datatype Node = Node(
    id: string,
    shape: NodeShape,
    prompt: Option<string>,
    profile: Option<string>,
    retryLimit: nat,
    goalGate: Option<GoalGatePolicy>,
    nodeClass: Option<string>)

  datatype Edge = Edge(
    source: string,
    target: string,
    condition: Option<Condition>,
    routeLabel: Option<string>,
    weight: int)

  datatype StyleRule = StyleRule(selector: string, profile: string)

  datatype Pipeline = Pipeline(specId: string, nodes: seq<Node>, edges: seq<Edge>, stylesheet: seq<StyleRule>)

  predicate IsWorker(shape: NodeShape) {
    shape != START && shape != EXIT
  }

  function Ids(nodes: seq<Node>): set<string> {
    set n | n in nodes :: n.id
  }

  /** `{n.node_id: n for n in nodes}.get(id)`: a later duplicate wins. */
  function Lookup(nodes: seq<Node>, id: string): (r: Option<Node>)
    ensures r.Some? ==> r.value in nodes && r.value.id == id
    ensures r.Some? <==> id in Ids(nodes)
  {
    if nodes == [] then None else
      var last := nodes[|nodes| - 1];
      assert nodes == nodes[..|nodes| - 1] + [last];
      if last.id == id then Some(last) else Lookup(nodes[..|nodes| - 1], id)
  }

  function OutEdges(edges: seq<Edge>, source: string): (r: seq<Edge>)
    ensures forall e :: e in r <==> e in edges && e.source == source
    ensures |r| <= |edges|
  {
    if edges == [] then [] else
      var front := OutEdges(edges[..|edges| - 1], source);
      assert edges == edges[..|edges| - 1] + [edges[|edges| - 1]];
      if edges[|edges| - 1].source == source then front + [edges[|edges| - 1]] else front
  }

  lemma OutEdgesSnoc(front: seq<Edge>, last: Edge, source: string)
    ensures OutEdges(front + [last], source) == OutEdges(front, source) + if last.source == source then [last] else []
  {
    assert (front + [last])[..|front|] == front;
  }

  /** The edges from one source come in the order of all edges. */
  lemma {:induction false} OutEdgesInOrder(front: seq<Edge>, e: Edge, back: seq<Edge>, source: string)
    ensures OutEdges(front + [e] + back, source) ==
      OutEdges(front, source) + (if e.source == source then [e] else []) + OutEdges(back, source)
    decreases |back|
  {
    hide OutEdges;
    if back == [] {
      assert front + [e] + back == front + [e];
      OutEdgesSnoc(front, e, source);
      assert OutEdges(back, source) == [] by {
        NoOutEdges(source);
      }
    } else {
      var n := |back| - 1;
      assert back == back[..n] + [back[n]];
      assert front + [e] + back == front + [e] + back[..n] + [back[n]];
      OutEdgesInOrder(front, e, back[..n], source);
      OutEdgesSnoc(front + [e] + back[..n], back[n], source);
      OutEdgesSnoc(back[..n], back[n], source);
    }
  }

  lemma NoOutEdges(source: string)
    ensures OutEdges([], source) == []
  {
  }

  /** Of nodes with the same id the last one counts. */
  lemma {:induction false} LastNodeCounts(nodes: seq<Node>, n: Node, later: seq<Node>)
    requires forall m | m in later :: m.id != n.id
    ensures Lookup(nodes + [n] + later, n.id) == Some(n)
    decreases |later|
  {
    if later == [] {
      assert nodes + [n] + later == nodes + [n];
    } else {
      var i := |later| - 1;
      assert (nodes + [n] + later)[..|nodes| + 1 + i] == nodes + [n] + later[..i];
      assert later[i] in later;
      LastNodeCounts(nodes, n, later[..i]);
    }
  }

  function Predecessors(edges: seq<Edge>, target: string): set<string> {
    set e | e in edges && e.target == target :: e.source
  }

  // ---- Stylesheet -------------------------------------------------------

  function ShapeName(shape: NodeShape): string {
    match shape
    case START => "START"
    case EXIT => "EXIT"
    case CODERGEN => "CODERGEN"
    case CONDITIONAL => "CONDITIONAL"
    case TOOL => "TOOL"
    case FAN_OUT => "FAN_OUT"
    case FAN_IN => "FAN_IN"
    case HUMAN => "HUMAN"
  }

  /** 3 id, 2 class, 1 shape, 0 universal, -1 no match. */
  function Specificity(selector: string, node: Node): int {
    if selector == "*" then 0
    else if selector != "" && selector[0] == '#' then if node.id == selector[1..] then 3 else -1
    else if selector != "" && selector[0] == '.' then if node.nodeClass == Some(selector[1..]) then 2 else -1
    else if ShapeName(node.shape) == selector then 1 else -1
  }

  /** Rule `i` beats every other matching rule: more specific, or equally
      specific and not earlier. */
  ghost predicate Wins(rules: seq<StyleRule>, node: Node, i: int) {
    && 0 <= i < |rules|
    && Specificity(rules[i].selector, node) >= 0
    && forall j | 0 <= j < |rules| ::
      var s := Specificity(rules[j].selector, node);
      s < Specificity(rules[i].selector, node) || (s == Specificity(rules[i].selector, node) && j <= i)
  }

  /** The profile the stylesheet promises. */
  ghost function StyleProfile(rules: seq<StyleRule>, node: Node): Option<string> {
    if exists i :: Wins(rules, node, i) then
      var i :| Wins(rules, node, i);
      Some(rules[i].profile)
    else None
  }

  lemma WinnerDecides(rules: seq<StyleRule>, node: Node, i: int)
    requires Wins(rules, node, i)
    ensures StyleProfile(rules, node) == Some(rules[i].profile)
  {
    forall j | Wins(rules, node, j)
      ensures j == i
    {
    }
  }

  method ResolveStyle(rules: seq<StyleRule>, node: Node) returns (profile: Option<string>)
    ensures profile == StyleProfile(rules, node)
    ensures profile == None <==> forall r | r in rules :: Specificity(r.selector, node) < 0
  {
    var best := -1;
    profile := None;
    ghost var winner := 0;
    for i := 0 to |rules|
      invariant best == -1 ==> profile == None && forall j | 0 <= j < i :: Specificity(rules[j].selector, node) < 0
      invariant best >= -1
      invariant best >= 0 ==> Wins(rules[..i], node, winner) && profile == Some(rules[winner].profile)
      invariant best >= 0 ==> best == Specificity(rules[winner].selector, node)
    {
      var specificity := Specificity(rules[i].selector, node);
      if specificity >= 0 && specificity >= best {
        best, profile, winner := specificity, Some(rules[i].profile), i;
      }
    }
    assert rules[..|rules|] == rules;
    if best >= 0 {
      WinnerDecides(rules, node, winner);
      assert rules[winner] in rules;
    }
  }

  /** Rule `i` is the last with this selector. */
  ghost predicate LastWith(rules: seq<StyleRule>, selector: string, i: int) {
    && 0 <= i < |rules| && rules[i].selector == selector
    && forall j | i < j < |rules| :: rules[j].selector != selector
  }

  ghost predicate HasRule(rules: seq<StyleRule>, selector: string) {
    exists r :: r in rules && r.selector == selector
  }

  lemma {:induction false} SomeLast(rules: seq<StyleRule>, selector: string)
    ensures HasRule(rules, selector) ==> exists i :: LastWith(rules, selector, i)
    decreases |rules|
  {
    if rules != [] {
      var n := |rules| - 1;
      assert rules == rules[..n] + [rules[n]];
      if rules[n].selector == selector {
        assert LastWith(rules, selector, n);
      } else {
        SomeLast(rules[..n], selector);
        if HasRule(rules, selector) {
          var i :| LastWith(rules[..n], selector, i);
          assert LastWith(rules, selector, i);
        }
      }
    }
  }

  /** The only selectors that match a node, the strongest first: its id, its
      class, the name of its shape, everything. */
  ghost function SelectorsOf(node: Node): seq<string> {
    ["#" + node.id]
    + (match node.nodeClass case None => [] case Some(name) => ["." + name])
    + [ShapeName(node.shape), "*"]
  }

  /** Main result: the stylesheet gives a node the profile of the last rule with
      the strongest of its selectors that any rule has. */
  lemma StyleBySelector(rules: seq<StyleRule>, node: Node)
    ensures
      var sels := SelectorsOf(node);
      match StyleProfile(rules, node)
      case None => forall sel | sel in sels :: !HasRule(rules, sel)
      case Some(profile) =>
        exists n, i ::
          0 <= n < |sels| && LastWith(rules, sels[n], i) && rules[i].profile == profile
          && forall m | 0 <= m < n :: !HasRule(rules, sels[m])
  {
    hide Specificity, ShapeName;
    var sels := SelectorsOf(node);
    if exists n :: 0 <= n < |sels| && HasRule(rules, sels[n]) {
      var n := FirstRuled(rules, sels);
      SomeLast(rules, sels[n]);
      var i :| LastWith(rules, sels[n], i);
      StrongestWins(rules, node, n, i);
      WinnerDecides(rules, node, i);
    } else {
      forall i | 0 <= i < |rules|
        ensures Specificity(rules[i].selector, node) < 0
      {
        SpecificityRanks(rules[i].selector, node);
        assert rules[i] in rules;
        assert forall n | 0 <= n < |sels| :: sels[n] != rules[i].selector;
      }
    }
  }

  lemma {:induction false} FirstRuled(rules: seq<StyleRule>, sels: seq<string>) returns (n: nat)
    requires exists n :: 0 <= n < |sels| && HasRule(rules, sels[n])
    ensures n < |sels| && HasRule(rules, sels[n]) && forall m | 0 <= m < n :: !HasRule(rules, sels[m])
  {
    n := 0;
    while !HasRule(rules, sels[n])
      invariant n < |sels| && forall m | 0 <= m < n :: !HasRule(rules, sels[m])
      invariant exists k :: n <= k < |sels| && HasRule(rules, sels[k])
      decreases |sels| - n
    {
      n := n + 1;
    }
  }

  lemma StrongestWins(rules: seq<StyleRule>, node: Node, n: nat, i: int)
    requires n < |SelectorsOf(node)| && LastWith(rules, SelectorsOf(node)[n], i)
    requires forall m | 0 <= m < n :: !HasRule(rules, SelectorsOf(node)[m])
    ensures Wins(rules, node, i)
  {
    hide Specificity, ShapeName;
    var sels := SelectorsOf(node);
    SpecificityRanks(sels[n], node);
    forall j | 0 <= j < |rules|
      ensures
        var s, best := Specificity(rules[j].selector, node), Specificity(rules[i].selector, node);
        s < best || (s == best && j <= i)
    {
      SpecificityRanks(rules[j].selector, node);
      assert rules[j] in rules;
    }
  }

  /** A selector's rank among the node's own. */
  lemma SpecificityRanks(selector: string, node: Node)
    ensures
      var sels, s := SelectorsOf(node), Specificity(selector, node);
      && (s >= 0 <==> selector in sels)
      && (forall n | 0 <= n < |sels| && sels[n] == selector ::
        s == if n == 0 then 3 else if n == |sels| - 1 then 0 else if n == |sels| - 2 then 1 else 2)
  {
    assert ("#" + node.id)[1..] == node.id;
    if node.nodeClass.Some? {
      assert ("." + node.nodeClass.value)[1..] == node.nodeClass.value;
    }
    if selector != "" {
      assert selector == [selector[0]] + selector[1..];
    }
    var sels := SelectorsOf(node);
    assert sels[0] == "#" + node.id && sels[|sels| - 1] == "*" && sels[|sels| - 2] == ShapeName(node.shape);
  }

  /** A shape selector is the shape's name. */
  lemma ShapeSelectors(node: Node, name: string, profile: string)
    requires name in {"START", "EXIT", "CODERGEN", "CONDITIONAL", "TOOL", "FAN_OUT", "FAN_IN", "HUMAN"}
    ensures StyleProfile([StyleRule(name, profile)], node) == Some(profile) <==>
      match node.shape
      case START => name == "START"
      case EXIT => name == "EXIT"
      case CODERGEN => name == "CODERGEN"
      case CONDITIONAL => name == "CONDITIONAL"
      case TOOL => name == "TOOL"
      case FAN_OUT => name == "FAN_OUT"
      case FAN_IN => name == "FAN_IN"
      case HUMAN => name == "HUMAN"
  {
    var rules := [StyleRule(name, profile)];
    if Wins(rules, node, 0) {
      WinnerDecides(rules, node, 0);
    }
  }

  /** A rule that does not match, or matches less specifically than another
      rule does, may stand anywhere without changing the outcome. */
  lemma WeakerRuleIrrelevant(rules: seq<StyleRule>, at: nat, extra: StyleRule, node: Node)
    requires at <= |rules|
    requires Specificity(extra.selector, node) >= 0 ==>
      exists r :: r in rules && Specificity(r.selector, node) > Specificity(extra.selector, node)
    ensures StyleProfile(rules[..at] + [extra] + rules[at..], node) == StyleProfile(rules, node)
  {
    var more := rules[..at] + [extra] + rules[at..];
    if i :| Wins(rules, node, i) {
      WinnerShifts(rules, more, at, extra, node, i);
      WinnerDecides(rules, node, i);
      WinnerDecides(more, node, Shifted(at, i));
    } else if k :| Wins(more, node, k) {
      WinnerUnshifts(rules, more, at, extra, node, k);
    }
  }

  lemma WinnerShifts(rules: seq<StyleRule>, more: seq<StyleRule>, at: nat, extra: StyleRule, node: Node, i: int)
    requires at <= |rules| && more == rules[..at] + [extra] + rules[at..] && Wins(rules, node, i)
    requires Specificity(extra.selector, node) >= 0 ==>
      exists r :: r in rules && Specificity(r.selector, node) > Specificity(extra.selector, node)
    ensures Wins(more, node, Shifted(at, i))
    ensures more[Shifted(at, i)] == rules[i]
  {
    hide Specificity;
    forall j | 0 <= j < |more|
      ensures var s, best := Specificity(more[j].selector, node), Specificity(rules[i].selector, node);
        s < best || (s == best && j <= Shifted(at, i))
    {
      assert more[j] == if j < at then rules[j] else if j == at then extra else rules[j - 1];
    }
  }

  lemma WinnerUnshifts(rules: seq<StyleRule>, more: seq<StyleRule>, at: nat, extra: StyleRule, node: Node, k: int)
    requires at <= |rules| && more == rules[..at] + [extra] + rules[at..] && Wins(more, node, k)
    requires Specificity(extra.selector, node) >= 0 ==>
      exists r :: r in rules && Specificity(r.selector, node) > Specificity(extra.selector, node)
    ensures exists i :: Wins(rules, node, i)
  {
    hide Specificity, Wins;
    ExtraLoses(rules, more, at, extra, node, k);
    var i := if k < at then k else k - 1;
    WinnerIn(more, node, k);
    assert more[k] == rules[i];
    forall j | 0 <= j < |rules|
      ensures var s, best := Specificity(rules[j].selector, node), Specificity(rules[i].selector, node);
        s < best || (s == best && j <= i)
    {
      assert more[Shifted(at, j)] == rules[j];
      Beats(more, node, k, Shifted(at, j));
    }
    WinsAll(rules, node, i);
  }

  lemma WinsAll(rules: seq<StyleRule>, node: Node, i: int)
    requires 0 <= i < |rules| && Specificity(rules[i].selector, node) >= 0
    requires forall j | 0 <= j < |rules| ::
      var s, best := Specificity(rules[j].selector, node), Specificity(rules[i].selector, node);
      s < best || (s == best && j <= i)
    ensures Wins(rules, node, i)
  {
    hide Specificity;
  }

  lemma WinnerIn(rules: seq<StyleRule>, node: Node, i: int)
    requires Wins(rules, node, i)
    ensures 0 <= i < |rules| && Specificity(rules[i].selector, node) >= 0
  {
    hide Specificity;
  }

  lemma Beats(rules: seq<StyleRule>, node: Node, i: int, j: int)
    requires Wins(rules, node, i) && 0 <= j < |rules|
    ensures 0 <= i < |rules|
    ensures
      var s, best := Specificity(rules[j].selector, node), Specificity(rules[i].selector, node);
      s < best || (s == best && j <= i)
  {
    hide Specificity;
  }

  lemma ExtraLoses(rules: seq<StyleRule>, more: seq<StyleRule>, at: nat, extra: StyleRule, node: Node, k: int)
    requires at <= |rules| && more == rules[..at] + [extra] + rules[at..] && Wins(more, node, k)
    requires Specificity(extra.selector, node) >= 0 ==>
      exists r :: r in rules && Specificity(r.selector, node) > Specificity(extra.selector, node)
    ensures k != at
  {
    hide Specificity, Wins;
    WinnerIn(more, node, k);
    if k == at {
      var r :| r in rules && Specificity(r.selector, node) > Specificity(extra.selector, node);
      var j :| 0 <= j < |rules| && rules[j] == r;
      assert more[Shifted(at, j)] == r;
      Beats(more, node, k, Shifted(at, j));
    }
  }

  function Shifted(at: int, i: int): int {
    if i < at then i else i + 1
  }

  /** A node's own profile overrides the stylesheet. */
  ghost function ProfileOf(p: Pipeline, node: Node): Option<string> {
    if node.profile.Some? then node.profile else StyleProfile(p.stylesheet, node)
  }

  method ResolveProfile(p: Pipeline, node: Node) returns (profile: Option<string>)
    ensures profile == ProfileOf(p, node)
  {
    if node.profile.Some? {
      return node.profile;
    }
    profile := ResolveStyle(p.stylesheet, node);
  }

  /** The assignee of a card: `resolve_profile(node) or ""`. */
  ghost function Assignee(p: Pipeline, node: Node): string {
    match ProfileOf(p, node)
    case None => ""
    case Some(name) => name
  }

  // ---- Reachability -----------------------------------------------------

  type Graph = map<string, seq<string>>

  ghost predicate IsPath(g: Graph, path: seq<string>) {
    |path| > 0 && forall i | 0 <= i < |path| - 1 :: path[i] in g && path[i + 1] in g[path[i]]
  }

  ghost predicate Reaches(g: Graph, a: string, b: string) {
    exists path :: IsPath(g, path) && path[0] == a && path[|path| - 1] == b
  }

  lemma ReachesStep(g: Graph, a: string, b: string, c: string)
    requires Reaches(g, a, b) && b in g && c in g[b]
    ensures Reaches(g, a, c)
  {
    var path :| IsPath(g, path) && path[0] == a && path[|path| - 1] == b;
    assert IsPath(g, path + [c]);
    assert (path + [c])[0] == a && (path + [c])[|path|] == c;
  }

  ghost predicate Closed(g: Graph, s: set<string>) {
    forall x, y | x in s && x in g && y in g[x] :: y in s
  }

  lemma {:induction false} PathStaysInside(g: Graph, s: set<string>, path: seq<string>)
    requires Closed(g, s) && IsPath(g, path) && path[0] in s
    ensures path[|path| - 1] in s
    decreases |path|
  {
    if |path| > 1 {
      var front := path[..|path| - 1];
      assert IsPath(g, front) by {
        forall i | 0 <= i < |front| - 1
          ensures front[i] in g && front[i + 1] in g[front[i]]
        {
          assert path[i] in g && path[i + 1] in g[path[i]];
        }
      }
      PathStaysInside(g, s, front);
      assert path[|path| - 2] in g;
    }
  }

  method FindReachable(start: string, g: Graph) returns (visited: set<string>)
    ensures forall x :: x in visited <==> Reaches(g, start, x)
  {
    visited := {};
    var queue := [start];
    ghost var universe := {start} + set x, y | x in g && y in g[x] :: y;
    assert IsPath(g, [start]);
    assert Reaches(g, start, start);
    while queue != []
      invariant start in visited || start in queue
      invariant visited <= universe && forall x | x in queue :: x in universe
      invariant forall x | x in visited || x in queue :: Reaches(g, start, x)
      invariant forall x, y | x in visited && x in g && y in g[x] :: y in visited || y in queue
      decreases universe - visited, |queue|
    {
      var current := queue[|queue| - 1];
      ghost var before := queue;
      queue := queue[..|queue| - 1];
      assert before == queue + [current];
      if current in visited {
        continue;
      }
      ghost var unvisited := universe - visited;
      visited := visited + {current};
      assert current in unvisited && current !in universe - visited;
      if current in g {
        forall y | y in g[current]
          ensures Reaches(g, start, y)
        {
          ReachesStep(g, start, current, y);
        }
        queue := queue + Unvisited(g[current], visited);
      }
    }
    forall x | Reaches(g, start, x)
      ensures x in visited
    {
      var path :| IsPath(g, path) && path[0] == start && path[|path| - 1] == x;
      PathStaysInside(g, visited, path);
    }
  }

  function Unvisited(ids: seq<string>, visited: set<string>): (r: seq<string>)
    ensures forall x :: x in r <==> x in ids && x !in visited
  {
    if ids == [] then [] else
      var rest := Unvisited(ids[1..], visited);
      if ids[0] in visited then rest else [ids[0]] + rest
  }

  function Targets(edges: seq<Edge>, source: string): (r: seq<string>)
    ensures forall t :: t in r <==> exists e :: e in edges && e.source == source && e.target == t
  {
    if edges == [] then [] else
      var last := edges[|edges| - 1];
      var front := Targets(edges[..|edges| - 1], source);
      assert edges == edges[..|edges| - 1] + [last];
      if last.source == source then front + [last.target] else front
  }

  function AdjacencyOf(p: Pipeline): Graph {
    map id | id in Ids(p.nodes) :: Targets(p.edges, id)
  }

  lemma NoTargets(edges: seq<Edge>)
    ensures forall id :: Targets(edges[..0], id) == []
  {
  }

  lemma TargetsGrow(edges: seq<Edge>, i: nat)
    requires i < |edges|
    ensures forall id | id != edges[i].source :: Targets(edges[..i + 1], id) == Targets(edges[..i], id)
    ensures Targets(edges[..i + 1], edges[i].source) == Targets(edges[..i], edges[i].source) + [edges[i].target]
  {
    assert edges[..i + 1][..i] == edges[..i];
  }

  method Adjacency(p: Pipeline) returns (adj: Graph)
    ensures adj == AdjacencyOf(p)
  {
    hide Targets;
    assert forall id :: Targets(p.edges[..0], id) == [] by {
      NoTargets(p.edges);
    }
    adj := map id | id in Ids(p.nodes) :: [];
    for i := 0 to |p.edges|
      invariant adj == map id | id in Ids(p.nodes) :: Targets(p.edges[..i], id)
    {
      var edge := p.edges[i];
      TargetsGrow(p.edges, i);
      if edge.source in adj {
        adj := adj[edge.source := adj[edge.source] + [edge.target]];
      }
    }
    assert p.edges[..|p.edges|] == p.edges;
  }

  // ---- Validation -------------------------------------------------------

  datatype Reason =
    | StartCount(found: nat)
    | ExitCount(found: nat)
    | DanglingSource
    | DanglingTarget
    | Unreachable
    | RetryTargetMissing(target: string)
    | RetryTargetUnreachable(target: string)
    | NoProfile
    | ToolToTool(target: string)
    | InvalidCondition(target: string)

  datatype Issue = Issue(element: string, reason: Reason)

  function WithShape(nodes: seq<Node>, shape: NodeShape): (r: seq<Node>)
    ensures forall n :: n in r <==> n in nodes && n.shape == shape
  {
    if nodes == [] then [] else
      var front := WithShape(nodes[..|nodes| - 1], shape);
      var last := nodes[|nodes| - 1];
      assert nodes == nodes[..|nodes| - 1] + [last];
      if last.shape == shape then front + [last] else front
  }

  ghost predicate OnlyAt(nodes: seq<Node>, shape: NodeShape, i: int) {
    && 0 <= i < |nodes|
    && nodes[i].shape == shape
    && forall j | 0 <= j < |nodes| && nodes[j].shape == shape :: j == i
  }

  ghost predicate ExactlyOne(nodes: seq<Node>, shape: NodeShape) {
    exists i :: OnlyAt(nodes, shape, i)
  }

  lemma {:induction false} NoneHasShape(nodes: seq<Node>, shape: NodeShape)
    ensures WithShape(nodes, shape) == [] <==> forall j | 0 <= j < |nodes| :: nodes[j].shape != shape
  {
    if WithShape(nodes, shape) != [] {
      assert WithShape(nodes, shape)[0] in nodes;
    } else {
      assert forall j | 0 <= j < |nodes| :: nodes[j] in nodes;
    }
  }

  lemma {:induction false} OneHasShape(nodes: seq<Node>, shape: NodeShape)
    ensures |WithShape(nodes, shape)| == 1 <==> ExactlyOne(nodes, shape)
    decreases |nodes|
  {
    if nodes != [] {
      var n := |nodes| - 1;
      var front := nodes[..n];
      if nodes[n].shape == shape {
        NoneHasShape(front, shape);
        if WithShape(front, shape) == [] {
          assert OnlyAt(nodes, shape, n);
        } else {
          var j :| 0 <= j < n && front[j].shape == shape;
          assert nodes[j].shape == shape;
        }
      } else {
        OneHasShape(front, shape);
        OnlyAtPrefix(nodes, shape);
        if i :| OnlyAt(front, shape, i) {
          assert OnlyAt(nodes, shape, i);
        }
        if i :| OnlyAt(nodes, shape, i) {
          assert OnlyAt(front, shape, i);
        }
      }
    }
  }

  lemma OnlyAtPrefix(nodes: seq<Node>, shape: NodeShape)
    requires nodes != [] && nodes[|nodes| - 1].shape != shape
    ensures forall i :: OnlyAt(nodes[..|nodes| - 1], shape, i) <==> OnlyAt(nodes, shape, i)
  {
    var front := nodes[..|nodes| - 1];
    assert forall j | 0 <= j < |front| :: front[j] == nodes[j];
  }

  /** The issues each element of a list raises, in list order. */
  ghost function Raise<T(!new)>(xs: seq<T>, f: T -> seq<Issue>): seq<Issue> {
    if xs == [] then [] else Raise(xs[..|xs| - 1], f) + f(xs[|xs| - 1])
  }

  lemma {:induction false} RaiseNothing<T(!new)>(xs: seq<T>, f: T -> seq<Issue>)
    ensures Raise(xs, f) == [] <==> forall x | x in xs :: f(x) == []
    decreases |xs|
  {
    if xs != [] {
      var n := |xs| - 1;
      RaiseNothing(xs[..n], f);
      assert xs == xs[..n] + [xs[n]];
    }
  }

  function StructureIssues(nodes: seq<Node>): seq<Issue> {
    var starts, exits := |WithShape(nodes, START)|, |WithShape(nodes, EXIT)|;
    (if starts != 1 then [Issue("pipeline", StartCount(starts))] else []) +
    (if exits != 1 then [Issue("pipeline", ExitCount(exits))] else [])
  }

  function EdgeIssues(ids: set<string>, e: Edge): seq<Issue> {
    (if e.source !in ids then [Issue(e.source, DanglingSource)] else []) +
    (if e.target !in ids then [Issue(e.target, DanglingTarget)] else [])
  }

  function ReachIssues(reachable: set<string>, n: Node): seq<Issue> {
    if n.id !in reachable then [Issue(n.id, Unreachable)] else []
  }

  function GateIssues(ids: set<string>, reachable: set<string>, n: Node): seq<Issue> {
    match n.goalGate
    case None => []
    case Some(gate) =>
      if gate.retryTarget !in ids then [Issue(n.id, RetryTargetMissing(gate.retryTarget))]
      else if reachable != {} && gate.retryTarget !in reachable then
        [Issue(n.id, RetryTargetUnreachable(gate.retryTarget))]
      else []
  }

  ghost function ProfileIssues(p: Pipeline, n: Node): seq<Issue> {
    if IsWorker(n.shape) && Assignee(p, n) == "" then [Issue(n.id, NoProfile)] else []
  }

  function ToolIssues(tools: set<string>, e: Edge): seq<Issue> {
    if e.source in tools && e.target in tools then [Issue(e.source, ToolToTool(e.target))] else []
  }

  function GuardIssues(e: Edge): seq<Issue> {
    if e.condition.Some? && !Accepted(e.condition.value) then [Issue(e.source, InvalidCondition(e.target))] else []
  }

  function ToolIds(nodes: seq<Node>): set<string> {
    Ids(WithShape(nodes, TOOL))
  }

  ghost function ReachableFromStart(p: Pipeline): set<string> {
    var starts := WithShape(p.nodes, START);
    if |starts| != 1 then {} else
      ReachesWithin(AdjacencyOf(p), starts[0].id);
      set x | x in Nearby(AdjacencyOf(p), starts[0].id) && Reaches(AdjacencyOf(p), starts[0].id, x)
  }

  /** A finite set that holds everything reachable. */
  ghost function Nearby(g: Graph, start: string): set<string> {
    {start} + set x, y | x in g && y in g[x] :: y
  }

  lemma ReachesWithin(g: Graph, start: string)
    ensures forall x | Reaches(g, start, x) :: x in Nearby(g, start)
  {
    forall x | Reaches(g, start, x)
      ensures x in Nearby(g, start)
    {
      var path :| IsPath(g, path) && path[0] == start && path[|path| - 1] == x;
      PathStaysInside(g, Nearby(g, start), path);
    }
  }

  /** Everything `validate()` reports, in its order. */
  ghost function IssuesOf(p: Pipeline): seq<Issue> {
    var ids, reachable := Ids(p.nodes), ReachableFromStart(p);
    StructureIssues(p.nodes)
    + Raise(p.edges, e => EdgeIssues(ids, e))
    + (if |WithShape(p.nodes, START)| != 1 then [] else Raise(p.nodes, n => ReachIssues(reachable, n)))
    + Raise(p.nodes, n => GateIssues(ids, reachable, n))
    + Raise(p.nodes, n => ProfileIssues(p, n))
    + Raise(p.edges, e => ToolIssues(ToolIds(p.nodes), e))
    + Raise(p.edges, e => GuardIssues(e))
  }

  /** The well-formedness a pipeline's author is promised. */
  ghost predicate ValidPipeline(p: Pipeline) {
    && ExactlyOne(p.nodes, START)
    && ExactlyOne(p.nodes, EXIT)
    && (forall e | e in p.edges :: e.source in Ids(p.nodes) && e.target in Ids(p.nodes))
    && AllReachable(p)
    && (forall n | n in p.nodes && n.goalGate.Some? :: n.goalGate.value.retryTarget in Ids(p.nodes))
    && (forall n | n in p.nodes && n.shape !in {START, EXIT} :: Assignee(p, n) != "")
    && NoToolToTool(p)
    && (forall e | e in p.edges && e.condition.Some? :: Accepted(e.condition.value))
  }

  lemma EdgesExact(edges: seq<Edge>, ids: set<string>)
    ensures Raise(edges, e => EdgeIssues(ids, e)) == []
        <==> forall e | e in edges :: e.source in ids && e.target in ids
  {
    var f := e => EdgeIssues(ids, e);
    RaiseNothing(edges, f);
    assert forall e | e in edges :: f(e) == [] <==> e.source in ids && e.target in ids;
  }

  lemma GatesExact(nodes: seq<Node>, ids: set<string>, reachable: set<string>)
    requires reachable == {} || ids <= reachable
    ensures Raise(nodes, n => GateIssues(ids, reachable, n)) == []
        <==> forall n | n in nodes && n.goalGate.Some? :: n.goalGate.value.retryTarget in ids
  {
    var f := n => GateIssues(ids, reachable, n);
    RaiseNothing(nodes, f);
    assert forall n | n in nodes :: f(n) == [] <==> (n.goalGate.Some? ==> n.goalGate.value.retryTarget in ids);
  }

  lemma ProfilesExact(p: Pipeline)
    ensures Raise(p.nodes, n => ProfileIssues(p, n)) == []
        <==> forall n | n in p.nodes && IsWorker(n.shape) :: Assignee(p, n) != ""
  {
    ghost var f := n => ProfileIssues(p, n);
    RaiseNothing(p.nodes, f);
    assert forall n | n in p.nodes :: f(n) == [] <==> (IsWorker(n.shape) ==> Assignee(p, n) != "");
  }

  ghost predicate NoToolToTool(p: Pipeline) {
    forall e, a, b | e in p.edges && a in p.nodes && b in p.nodes && e.source == a.id && e.target == b.id ::
      !(a.shape == TOOL && b.shape == TOOL)
  }

  lemma ToolsExact(p: Pipeline)
    ensures Raise(p.edges, e => ToolIssues(ToolIds(p.nodes), e)) == [] <==> NoToolToTool(p)
  {
    var f := e => ToolIssues(ToolIds(p.nodes), e);
    RaiseNothing(p.edges, f);
    assert forall id :: id in ToolIds(p.nodes) <==> exists n :: n in p.nodes && n.shape == TOOL && n.id == id;
    assert forall e | e in p.edges :: f(e) == [] <==> !(e.source in ToolIds(p.nodes) && e.target in ToolIds(p.nodes));
  }

  lemma GuardsExact(edges: seq<Edge>)
    ensures Raise(edges, e => GuardIssues(e)) == []
        <==> forall e | e in edges && e.condition.Some? :: Accepted(e.condition.value)
  {
    var f := e => GuardIssues(e);
    RaiseNothing(edges, f);
    assert forall e | e in edges :: f(e) == [] <==> (e.condition.Some? ==> Accepted(e.condition.value));
  }

  /** Validation is sound and complete for well-formedness. */
  lemma ValidationExact(p: Pipeline)
    ensures IssuesOf(p) == [] <==> ValidPipeline(p)
  {
    hide ExactlyOne, Assignee, Accepted, AllReachable, NoToolToTool, WithShape, Raise, ReachableFromStart, Ids;
    var ids, reachable := Ids(p.nodes), ReachableFromStart(p);
    OneHasShape(p.nodes, START);
    OneHasShape(p.nodes, EXIT);
    EdgesExact(p.edges, ids);
    ProfilesExact(p);
    ToolsExact(p);
    GuardsExact(p.edges);
    if |WithShape(p.nodes, START)| == 1 {
      ReachabilityExact(p);
      if AllReachable(p) {
        GatesExact(p.nodes, ids, reachable);
      }
    }
  }

  ghost predicate AllReachable(p: Pipeline) {
    forall s, n | s in p.nodes && s.shape == START && n in p.nodes :: Reaches(AdjacencyOf(p), s.id, n.id)
  }

  lemma ReachabilityExact(p: Pipeline)
    requires |WithShape(p.nodes, START)| == 1
    ensures Raise(p.nodes, n => ReachIssues(ReachableFromStart(p), n)) == [] <==> AllReachable(p)
    ensures AllReachable(p) ==> Ids(p.nodes) <= ReachableFromStart(p)
  {
    var starts, reachable := WithShape(p.nodes, START), ReachableFromStart(p);
    ReachesWithin(AdjacencyOf(p), starts[0].id);
    assert starts[0] in starts;
    assert forall s | s in p.nodes && s.shape == START :: s in starts && s == starts[0];
    assert forall x :: x in reachable <==> Reaches(AdjacencyOf(p), starts[0].id, x);
    var f := n => ReachIssues(reachable, n);
    RaiseNothing(p.nodes, f);
    assert forall n | n in p.nodes :: f(n) == [] <==> n.id in reachable;
  }

  method Validate(p: Pipeline) returns (issues: seq<Issue>)
    ensures issues == IssuesOf(p)
    ensures issues == [] <==> ValidPipeline(p)
  {
    ValidationExact(p);
    var ids := Ids(p.nodes);
    issues := ValidateStructure(p.nodes);
    var edgeIssues := ValidateEdges(p.edges, ids);
    var reachIssues, reachable := ValidateReachability(p);
    var gateIssues := ValidateGoalGates(p.nodes, ids, reachable);
    var profileIssues := ValidateProfiles(p);
    var toolIssues := ValidateToolEdges(p);
    var guardIssues := ValidateGuards(p.edges);
    issues := issues + edgeIssues + reachIssues + gateIssues + profileIssues + toolIssues + guardIssues;
  }

  method ValidateStructure(nodes: seq<Node>) returns (issues: seq<Issue>)
    ensures issues == StructureIssues(nodes)
  {
    issues := [];
    var starts, exits := WithShape(nodes, START), WithShape(nodes, EXIT);
    if |starts| != 1 {
      issues := issues + [Issue("pipeline", StartCount(|starts|))];
    }
    if |exits| != 1 {
      issues := issues + [Issue("pipeline", ExitCount(|exits|))];
    }
  }

  method ValidateEdges(edges: seq<Edge>, ids: set<string>) returns (issues: seq<Issue>)
    ensures issues == Raise(edges, e => EdgeIssues(ids, e))
  {
    issues := [];
    for i := 0 to |edges|
      invariant issues == Raise(edges[..i], e => EdgeIssues(ids, e))
    {
      assert edges[..i + 1][..i] == edges[..i];
      if edges[i].source !in ids {
        issues := issues + [Issue(edges[i].source, DanglingSource)];
      }
      if edges[i].target !in ids {
        issues := issues + [Issue(edges[i].target, DanglingTarget)];
      }
    }
    assert edges[..|edges|] == edges;
  }

  lemma ReachableMembers(p: Pipeline)
    ensures
      var starts := WithShape(p.nodes, START);
      if |starts| != 1 then ReachableFromStart(p) == {}
      else forall x :: x in ReachableFromStart(p) <==> Reaches(AdjacencyOf(p), starts[0].id, x)
  {
    if |WithShape(p.nodes, START)| == 1 {
      ReachesWithin(AdjacencyOf(p), WithShape(p.nodes, START)[0].id);
    }
  }

  method ValidateReachability(p: Pipeline) returns (issues: seq<Issue>, reachable: set<string>)
    ensures reachable == ReachableFromStart(p)
    ensures issues == if |WithShape(p.nodes, START)| != 1 then [] else Raise(p.nodes, n => ReachIssues(reachable, n))
  {
    hide ReachableFromStart, Reaches, AdjacencyOf, WithShape;
    var starts := WithShape(p.nodes, START);
    ReachableMembers(p);
    if |starts| != 1 {
      return [], {};
    }
    var adj := Adjacency(p);
    reachable := FindReachable(starts[0].id, adj);
    assert reachable == ReachableFromStart(p);
    issues := [];
    for i := 0 to |p.nodes|
      invariant issues == Raise(p.nodes[..i], n => ReachIssues(reachable, n))
    {
      assert p.nodes[..i + 1][..i] == p.nodes[..i];
      if p.nodes[i].id !in reachable {
        issues := issues + [Issue(p.nodes[i].id, Unreachable)];
      }
    }
    assert p.nodes[..|p.nodes|] == p.nodes;
  }

  method ValidateGoalGates(nodes: seq<Node>, ids: set<string>, reachable: set<string>) returns (issues: seq<Issue>)
    ensures issues == Raise(nodes, n => GateIssues(ids, reachable, n))
  {
    issues := [];
    for i := 0 to |nodes|
      invariant issues == Raise(nodes[..i], n => GateIssues(ids, reachable, n))
    {
      assert nodes[..i + 1][..i] == nodes[..i];
      if nodes[i].goalGate == None {
        continue;
      }
      var target := nodes[i].goalGate.value.retryTarget;
      if target !in ids {
        issues := issues + [Issue(nodes[i].id, RetryTargetMissing(target))];
      } else if reachable != {} && target !in reachable {
        issues := issues + [Issue(nodes[i].id, RetryTargetUnreachable(target))];
      }
    }
    assert nodes[..|nodes|] == nodes;
  }

  method ValidateProfiles(p: Pipeline) returns (issues: seq<Issue>)
    ensures issues == Raise(p.nodes, n => ProfileIssues(p, n))
  {
    issues := [];
    for i := 0 to |p.nodes|
      invariant issues == Raise(p.nodes[..i], n => ProfileIssues(p, n))
    {
      assert p.nodes[..i + 1][..i] == p.nodes[..i];
      if IsWorker(p.nodes[i].shape) {
        var profile := ResolveProfile(p, p.nodes[i]);
        if profile == None || profile.value == "" {
          issues := issues + [Issue(p.nodes[i].id, NoProfile)];
        }
      }
    }
    assert p.nodes[..|p.nodes|] == p.nodes;
  }

  method ValidateToolEdges(p: Pipeline) returns (issues: seq<Issue>)
    ensures issues == Raise(p.edges, e => ToolIssues(ToolIds(p.nodes), e))
  {
    var tools := ToolIds(p.nodes);
    issues := [];
    for i := 0 to |p.edges|
      invariant issues == Raise(p.edges[..i], e => ToolIssues(ToolIds(p.nodes), e))
    {
      assert p.edges[..i + 1][..i] == p.edges[..i];
      if p.edges[i].source in tools && p.edges[i].target in tools {
        issues := issues + [Issue(p.edges[i].source, ToolToTool(p.edges[i].target))];
      }
    }
    assert p.edges[..|p.edges|] == p.edges;
  }

  method ValidateGuards(edges: seq<Edge>) returns (issues: seq<Issue>)
    ensures issues == Raise(edges, e => GuardIssues(e))
  {
    issues := [];
    for i := 0 to |edges|
      invariant issues == Raise(edges[..i], e => GuardIssues(e))
    {
      assert edges[..i + 1][..i] == edges[..i];
      if edges[i].condition == None {
        continue;
      }
      var result := Evaluate(edges[i].condition.value, map[]);
      if result == Raised {
        issues := issues + [Issue(edges[i].source, InvalidCondition(edges[i].target))];
      }
    }
    assert edges[..|edges|] == edges;
  }
}

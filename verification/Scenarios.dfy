/** Tools for concrete histories: valid pipelines by construction, launches and
    deliveries in closed form. */
module Scenarios {
  import opened Basics
  import opened Guard
  import opened Pipelines
  import opened EdgeSelector
  import opened Keys
  import opened RunState
  import opened Advance
  import opened Invariants
  import opened CrashReplay
  import opened Launching
  import opened Histories
  import opened GateLoop
  import opened Redelivery

  // ---- Pipelines -------------------------------------------------------------------

  function Coder(id: string, shape: NodeShape): Node {
    Node(id, shape, None, Some("coder"), 0, None, None)
  }

  function Bare(id: string, shape: NodeShape): Node {
    Node(id, shape, None, None, 0, None, None)
  }

  function Link(from: string, to: string): Edge {
    Edge(from, to, None, None, 0)
  }

  lemma LookupIs(nodes: seq<Node>, n: Node)
    requires n in nodes && forall m | m in nodes && m.id == n.id :: m == n
    ensures Lookup(nodes, n.id) == Some(n)
  {
    assert n.id in Ids(nodes);
  }

  /** The edges of a source, found by position. */
  lemma {:induction false} OutEdgesOne(edges: seq<Edge>, source: string, i: nat)
    requires i < |edges| && edges[i].source == source
    requires forall j | 0 <= j < |edges| && j != i :: edges[j].source != source
    ensures OutEdges(edges, source) == [edges[i]]
    decreases |edges|
  {
    var n := |edges| - 1;
    if i == n {
      NoOutEdges(edges[..n], source);
    } else {
      OutEdgesOne(edges[..n], source, i);
    }
  }

  lemma {:induction false} NoOutEdges(edges: seq<Edge>, source: string)
    requires forall j | 0 <= j < |edges| :: edges[j].source != source
    ensures OutEdges(edges, source) == []
    decreases |edges|
  {
    if edges != [] {
      NoOutEdges(edges[..|edges| - 1], source);
    }
  }

  lemma {:induction false} OutEdgesTwo(edges: seq<Edge>, source: string, i: nat, j: nat)
    requires i < j < |edges| && edges[i].source == source && edges[j].source == source
    requires forall k | 0 <= k < |edges| && k != i && k != j :: edges[k].source != source
    ensures OutEdges(edges, source) == [edges[i], edges[j]]
    decreases |edges|
  {
    var n := |edges| - 1;
    if j == n {
      OutEdgesOne(edges[..n], source, i);
    } else {
      OutEdgesTwo(edges[..n], source, i, j);
    }
  }

  /** START first, EXIT last, every other node fed by an earlier one (`up` says
      which), a profile on every worker, no guards and no TOOL behind a TOOL. */
  ghost predicate Forward(p: Pipeline, up: seq<nat>) {
    var n := |p.nodes|;
    && n >= 2 && |up| == n
    && p.nodes[0].shape == START && p.nodes[n - 1].shape == EXIT
    && (forall i | 0 < i < n - 1 :: Middle(p, p.nodes[i]))
    && (forall i | 0 < i < n :: up[i] < i && Fed(p, p.nodes[up[i]].id, p.nodes[i].id))
    && (forall e | e in p.edges :: e.source in Ids(p.nodes) && e.target in Ids(p.nodes) && e.condition == None)
    && p.nodes[0].goalGate == None && p.nodes[n - 1].goalGate == None
  }

  ghost predicate Middle(p: Pipeline, n: Node) {
    && n.shape !in {START, EXIT} && n.profile.Some? && n.profile.value != ""
    && (n.shape == TOOL ==>
      forall e, m | e in p.edges && e.target == n.id && m in p.nodes && m.id == e.source :: m.shape != TOOL)
    && (n.goalGate.Some? ==> n.goalGate.value.retryTarget in Ids(p.nodes))
  }

  ghost predicate Fed(p: Pipeline, from: string, to: string) {
    exists e :: e in p.edges && e.source == from && e.target == to
  }

  lemma ShapeOf(p: Pipeline, up: seq<nat>, i: nat)
    requires Forward(p, up) && i < |p.nodes|
    ensures p.nodes[i].shape == START <==> i == 0
    ensures p.nodes[i].shape == EXIT <==> i == |p.nodes| - 1
  {
    assert 0 < i < |p.nodes| - 1 ==> Middle(p, p.nodes[i]);
  }

  lemma {:induction false} ForwardReaches(p: Pipeline, up: seq<nat>, i: nat)
    requires Forward(p, up) && i < |p.nodes|
    ensures Reaches(AdjacencyOf(p), p.nodes[0].id, p.nodes[i].id)
    decreases i
  {
    var g, start := AdjacencyOf(p), p.nodes[0].id;
    if i == 0 {
      assert IsPath(g, [start]);
    } else {
      ForwardReaches(p, up, up[i]);
      assert Fed(p, p.nodes[up[i]].id, p.nodes[i].id);
      assert p.nodes[up[i]] in p.nodes;
      ReachesStep(g, start, p.nodes[up[i]].id, p.nodes[i].id);
    }
  }

  /** Such a pipeline is valid. */
  lemma ForwardValid(p: Pipeline, up: seq<nat>)
    requires Forward(p, up)
    ensures ValidPipeline(p)
  {
    hide Reaches, Accepted, AdjacencyOf;
    var n := |p.nodes|;
    forall i | 0 <= i < n
      ensures p.nodes[i].shape == START <==> i == 0
      ensures p.nodes[i].shape == EXIT <==> i == n - 1
      ensures Reaches(AdjacencyOf(p), p.nodes[0].id, p.nodes[i].id)
    {
      ShapeOf(p, up, i);
      ForwardReaches(p, up, i);
    }
    assert OnlyAt(p.nodes, START, 0) && OnlyAt(p.nodes, EXIT, n - 1);
    forall m | m in p.nodes
      ensures m.goalGate.Some? ==> m.goalGate.value.retryTarget in Ids(p.nodes)
      ensures IsWorker(m.shape) ==> Assignee(p, m) != ""
      ensures m.shape == START ==> m == p.nodes[0]
      ensures m.shape == TOOL ==> Middle(p, m)
    {
      var i :| 0 <= i < n && p.nodes[i] == m;
      assert 0 < i < n - 1 ==> Middle(p, p.nodes[i]);
    }
    assert NoToolToTool(p);
  }

  // ---- Histories ---------------------------------------------------------------------

  /** More writes than any step has. */
  const WHOLE := 2 * MAX_FAN_OUT_WIDTH + 2

  lemma {:induction false} BranchesLength(t: Turn, edges: seq<Edge>)
    ensures |Branches(t, edges).0| <= 2 * |edges|
    decreases |edges|
  {
    hide ForNode, CardFor, DispatchedRow;
    if edges != [] {
      BranchesLength(t, edges[..|edges| - 1]);
    }
  }

  lemma TailLength(t: Turn, rows: Rows)
    ensures |TailOf(t, rows).dispatch| <= 2 * MAX_FAN_OUT_WIDTH
  {
    hide Branches, RouteTail, ForNode, CardFor, DispatchedRow;
    BranchesLength(t, OutEdges(t.env.pipeline.edges, t.key.node));
    RouteLength(t, rows);
  }

  lemma RouteLength(t: Turn, rows: Rows)
    ensures |RouteTail(t, rows).dispatch| <= 3
  {
    hide Select, EnterTail;
    forall next
      ensures |EnterTail(t, next, rows).dispatch| <= 3
    {
      EnterLength(t, next, rows);
    }
  }

  lemma EnterLength(t: Turn, next: Node, rows: Rows)
    ensures |EnterTail(t, next, rows).dispatch| <= 3
  {
    hide Select, ForNode, CardFor, DispatchedRow, ToolContext, AllDone, FanInContext, NextAttempt;
    match next.shape
    case TOOL =>
    case _ =>
  }

  /** No step writes more than that. */
  lemma WritesBounded(env: Env, s: State, e: Event)
    ensures |PlanOf(env, s, e).writes| <= WHOLE
  {
    hide TailOf;
    if TurnAt(env, s, e).Some? {
      var t := TurnAt(env, s, e).value;
      TailLength(t, MarkedRows(t, s.rows));
    }
  }

  lemma AfterSnoc(cfg: Config, actions: seq<Action>, a: Action)
    ensures After(cfg, actions + [a]) == Next(cfg, After(cfg, actions), a)
  {
    assert (actions + [a])[..|actions|] == actions;
  }

  ghost function StateAfter(cfg: Config, actions: seq<Action>): State {
    After(cfg, actions).state
  }

  /** A configuration that stores one pipeline under one id. */
  function Equipped(id: string, p: Pipeline, tools: Tools): Config {
    Config(map[id := p], tools, None)
  }

  function Solo(id: string, p: Pipeline): Config {
    Equipped(id, p, None)
  }

  /** In such a configuration a delivery is the step, cut where it is cut. */
  lemma EquippedDelivers(id: string, p: Pipeline, tools: Tools, actions: seq<Action>, e: Event, upto: nat)
    ensures
      var cfg, s := Equipped(id, p, tools), StateAfter(Equipped(id, p, tools), actions);
      StateAfter(cfg, actions + [Deliver(e, upto)]) == CrashAt(Env(p, tools), s, e, upto)
    ensures Bijective(StateAfter(Equipped(id, p, tools), actions))
  {
    hide PlanOf, Launchable, CardsSound, Bijective, DoneDelivered;
    var cfg, env := Equipped(id, p, tools), Env(p, tools);
    var s := StateAfter(cfg, actions);
    HistoriesHealthy(cfg, actions);
    AfterSnoc(cfg, actions, Deliver(e, upto));
    FoundIn(s.rows, e.task);
    match EnvAt(cfg, s, e)
    case Some(found) => assert found == env;
    case None => Unfound(env, s, e);
  }

  lemma DeliverIsStep(id: string, p: Pipeline, actions: seq<Action>, e: Event, upto: nat)
    ensures
      var cfg, s := Solo(id, p), StateAfter(Solo(id, p), actions);
      StateAfter(cfg, actions + [Deliver(e, upto)]) == CrashAt(Env(p, None), s, e, upto)
    ensures Bijective(StateAfter(Solo(id, p), actions))
  {
    hide StateAfter, CrashAt, Bijective;
    EquippedDelivers(id, p, None, actions, e, upto);
  }

  lemma WholeIsStep(env: Env, s: State, e: Event, upto: nat)
    requires upto >= WHOLE
    ensures CrashAt(env, s, e, upto) == Step(env, s, e)
  {
    hide PlanOf;
    WritesBounded(env, s, e);
    assert PlanOf(env, s, e).writes[..|PlanOf(env, s, e).writes|] == PlanOf(env, s, e).writes;
  }

  lemma FoundIn(rows: Rows, task: TaskId)
    ensures FindByTask(rows, task).Some? ==> FindByTask(rows, task).value in rows
  {
  }

  lemma Unfound(env: Env, s: State, e: Event)
    requires FindByTask(s.rows, e.task) == None
    ensures PlanOf(env, s, e).writes == []
  {
  }

  function Whole(es: seq<Event>): (r: seq<Action>)
    ensures |r| == |es|
  {
    if es == [] then [] else Whole(es[..|es| - 1]) + [Deliver(es[|es| - 1], WHOLE)]
  }

  /** Whole deliveries after any history are the steps one after the other. */
  lemma {:induction false} WholeDeliveries(id: string, p: Pipeline, actions: seq<Action>, es: seq<Event>)
    ensures StateAfter(Solo(id, p), actions + Whole(es)) ==
      Deliveries(Env(p, None), StateAfter(Solo(id, p), actions), es)
    decreases |es|
  {
    hide Step, StateAfter, CrashAt;
    if es == [] {
      assert actions + Whole(es) == actions;
    } else {
      var n := |es| - 1;
      WholeDeliveries(id, p, actions, es[..n]);
      DeliverIsStep(id, p, actions + Whole(es[..n]), es[n], WHOLE);
      WholeIsStep(Env(p, None), StateAfter(Solo(id, p), actions + Whole(es[..n])), es[n], WHOLE);
      assert actions + Whole(es) == actions + Whole(es[..n]) + [Deliver(es[n], WHOLE)];
    }
  }

  /** What a launch leaves, when START has one unconditional edge to a worker. */
  lemma EquippedLaunched(id: string, p: Pipeline, tools: Tools, run: string, entry: Node)
    requires ValidPipeline(p) && SafeId(run) && SafeId(entry.id) && IsWorker(entry.shape)
    requires p.nodes != [] && p.nodes[0].shape == START
    requires OutEdges(p.edges, p.nodes[0].id) == [Link(p.nodes[0].id, entry.id)]
    requires Lookup(p.nodes, entry.id) == Some(entry)
    ensures
      var s, k := StateAfter(Equipped(id, p, tools), [Launch(run, id, map[], WHOLE)]), RowKey(run, entry.id, 1);
      && s.runs == map[run := FreshRun(id, map[])]
      && s.rows == map[k := DispatchedRow(k, {p.nodes[0].id}, entry.goalGate)]
      && Bijective(s)
  {
    hide ValidPipeline, SafeId, KeyText, Bijective, StateAfter, CardFor, ApplyAll;
    var cfg := Equipped(id, p, tools);
    var launch := Launch(run, id, map[], WHOLE);
    StartIsFirst(p);
    var start := p.nodes[0];
    SelectOnly(OutEdges(p.edges, start.id), Link(start.id, entry.id), map[], Hints(None, []));
    assert EntryOf(p, start, map[]) == Some(entry);
    var k := RowKey(run, entry.id, 1);
    var unit := Unit(p, entry, k, map[], [], {start.id}, entry.goalGate);
    LaunchNow(id, p, tools, run, entry, unit);
    EquippedDelivers(id, p, tools, [launch], Done(k, 0), 0);
    ThreeWrites(Insert(run, FreshRun(id, map[])), unit);
    assert unit[0].Create? && unit[1] == Upsert(k, DispatchedRow(k, {start.id}, entry.goalGate));
  }

  lemma Launched(id: string, p: Pipeline, run: string, entry: Node)
    requires ValidPipeline(p) && SafeId(run) && SafeId(entry.id) && IsWorker(entry.shape)
    requires p.nodes != [] && p.nodes[0].shape == START
    requires OutEdges(p.edges, p.nodes[0].id) == [Link(p.nodes[0].id, entry.id)]
    requires Lookup(p.nodes, entry.id) == Some(entry)
    ensures
      var s, k := StateAfter(Solo(id, p), [Launch(run, id, map[], WHOLE)]), RowKey(run, entry.id, 1);
      && s.runs == map[run := FreshRun(id, map[])]
      && s.rows == map[k := DispatchedRow(k, {p.nodes[0].id}, entry.goalGate)]
      && Bijective(s)
  {
    hide ValidPipeline, SafeId, StateAfter, Bijective;
    EquippedLaunched(id, p, None, run, entry);
  }

  lemma ThreeWrites(insert: Write, unit: seq<Write>)
    requires insert.Insert? && |unit| == 2 && unit[0].Create? && unit[1].Upsert?
    ensures
      var s := ApplyAll(EMPTY, [insert] + unit);
      s.runs == map[insert.runId := insert.run] && s.rows == map[unit[1].key := unit[1].row]
  {
    var c, u := unit[0], unit[1];
    assert [insert] + unit == [insert, c, u];
    assert [insert, c, u][..2] == [insert, c] && [insert, c][..1] == [insert] && [insert][..0] == [];
    assert ApplyAll(EMPTY, [insert]) == Apply(EMPTY, insert);
    assert ApplyAll(EMPTY, [insert, c]) == Apply(Apply(EMPTY, insert), c);
  }

  lemma StartIsFirst(p: Pipeline)
    requires ValidPipeline(p) && p.nodes != [] && p.nodes[0].shape == START
    ensures WithShape(p.nodes, START) != [] && WithShape(p.nodes, START)[0] == p.nodes[0]
  {
    hide AllReachable, Accepted;
    var starts := WithShape(p.nodes, START);
    assert p.nodes[0] in starts;
    assert starts[0] in p.nodes;
    var i :| OnlyAt(p.nodes, START, i);
  }

  lemma LaunchNow(id: string, p: Pipeline, tools: Tools, run: string, entry: Node, unit: seq<Write>)
    requires ValidPipeline(p) && SafeId(run) && SafeId(entry.id) && WithShape(p.nodes, START) != []
    requires EntryOf(p, WithShape(p.nodes, START)[0], map[]) == Some(entry)
    requires unit == Unit(p, entry, RowKey(run, entry.id, 1), map[], [], {WithShape(p.nodes, START)[0].id},
      entry.goalGate)
    ensures StateAfter(Equipped(id, p, tools), [Launch(run, id, map[], WHOLE)]) ==
      ApplyAll(EMPTY, [Insert(run, FreshRun(id, map[]))] + unit)
  {
    hide ValidPipeline, SafeId, KeyText, EntryOf, ApplyAll;
    var launch := Launch(run, id, map[], WHOLE);
    var cfg := Equipped(id, p, tools);
    assert [launch][..0] == [];
    assert After(cfg, []) == START_WORLD;
    assert WritesOf(cfg, EMPTY, launch) == LaunchWrites(p, None, id, run, map[]);
    assert LaunchWrites(p, None, id, run, map[]) == [Insert(run, FreshRun(id, map[]))] + unit;
  }

  // ---- Plain completions -----------------------------------------------------------

  /** The examples' run is called r. */
  function Key(node: string): RowKey {
    RowKey("r", node, 1)
  }

  /** A completion without any metadata. */
  function Done(k: RowKey, id: int): Event {
    Event(TaskOf(k), id, map[])
  }

  function Completed(row: Row): Row {
    row.(status := NodeSucceeded, updates := map[])
  }

  ghost predicate Ungated(p: Pipeline, id: string, shape: NodeShape) {
    var node := Lookup(p.nodes, id);
    node.Some? && node.value.shape == shape && node.value.goalGate == None
  }

  lemma PlainTurn(env: Env, s: State, k: RowKey, id: int)
    requires Bijective(s) && k in s.rows
    requires Lookup(env.pipeline.nodes, k.node).Some? && Lookup(env.pipeline.nodes, k.node).value.goalGate == None
    ensures k.run in s.runs && SafeKey(k)
    ensures
      var t := TurnOf(env, k, s.runs[k.run], Done(k, id));
      && TurnAt(env, s, Done(k, id)) == Some(t) && t.passed && t.run == t.before == s.runs[k.run]
      && MarkedRows(t, s.rows) == s.rows[k := Completed(s.rows[k])]
  {
    hide KeyText;
    FindsOwn(s, k);
  }

  /** One unconditional edge to an ordinary or HUMAN node. */
  lemma LinkSteps(env: Env, s: State, k: RowKey, id: int, next: string)
    requires Bijective(s) && k in s.rows && ChainLink(env.pipeline, k.node, next)
    requires ChainNode(env.pipeline, k.node, false) && ChainNode(env.pipeline, next, true)
    ensures k.run in s.runs
    ensures
      var node := Lookup(env.pipeline.nodes, next).value;
      var j := RowKey(k.run, next, |AttemptsOf(s.rows, k.run, next)| + 1);
      var status := if node.shape == HUMAN then PAUSED_HUMAN
        else if s.runs[k.run].status == PAUSED_HUMAN then RUNNING else s.runs[k.run].status;
      var after := Step(env, s, Done(k, id));
      && after.rows == s.rows[k := Completed(s.rows[k])][j := DispatchedRow(j, {k.node}, node.goalGate)]
      && after.runs == s.runs[k.run := s.runs[k.run].(status := status, cursor := id)]
      && (node.shape == HUMAN ==> TaskOf(j) in after.blocked)
  {
    hide TailOf, Step, Bijective, Entered, Select, EnterTail, CountedTail, SafeId, KeyText, Imprint, CountedEffect;
    hide AttemptsOf;
    var e := Done(k, id);
    PlainTurn(env, s, k, id);
    LinkTurn(env, s, e, k, next);
    var t := TurnOf(env, k, s.runs[k.run], e);
    var rows, node := MarkedRows(t, s.rows), Lookup(env.pipeline.nodes, next).value;
    TailEnters(t, rows, rows);
    CountedEnters(t, node, rows);
    KeysDecideAttempts(rows, s.rows, k.run, next);
    var attempt := NextAttempt(t, node, rows);
    CountedAdds(t, node, attempt);
    CountedWhole(t, node, attempt);
    FirstStep(env, s, e, t);
    CountedRows(s.(rows := rows), t, node, attempt);
    CountedBlocks(s.(rows := rows), t, node, attempt);
  }

  lemma CountedBlocks(s: State, t: Turn, next: Node, attempt: nat)
    ensures next.shape == HUMAN ==>
      TaskOf(RowKey(t.key.run, next.id, attempt))
        in Imprint(s, CountedEffect(t, next, attempt, CountedLength(next))).blocked
  {
    hide KeyText;
  }

  /** One unconditional edge to EXIT. */
  lemma ExitSteps(env: Env, s: State, k: RowKey, id: int, next: string)
    requires Bijective(s) && k in s.rows && ChainLink(env.pipeline, k.node, next)
    requires Lookup(env.pipeline.nodes, k.node).value.shape != FAN_OUT && Ungated(env.pipeline, next, EXIT)
    ensures k.run in s.runs
    ensures
      var after := Step(env, s, Done(k, id));
      && after.rows == s.rows[k := Completed(s.rows[k])]
      && after.runs == s.runs[k.run := s.runs[k.run].(status := SUCCEEDED, cursor := id)]
  {
    hide TailOf, Step, Bijective, Entered, Select, SafeId, KeyText;
    var e := Done(k, id);
    PlainTurn(env, s, k, id);
    var t := TurnOf(env, k, s.runs[k.run], e);
    OneEdgeEnters(t, next);
    TailEnters(t, MarkedRows(t, s.rows), MarkedRows(t, s.rows));
    FirstStep(env, s, e, t);
    ImprintNothing(s.(rows := MarkedRows(t, s.rows)));
  }

  lemma OneEdgeEnters(t: Turn, next: string)
    requires ChainLink(t.env.pipeline, t.key.node, next) && t.passed
    requires Lookup(t.env.pipeline.nodes, t.key.node).value.shape != FAN_OUT
    ensures Entered(t) == Lookup(t.env.pipeline.nodes, next)
  {
    hide Select;
    var edges := OutEdges(t.env.pipeline.edges, t.key.node);
    assert edges == [edges[0]];
    SelectOnly(edges, edges[0], t.run.context, HintsOf(t));
  }

  // ---- A fan-out -------------------------------------------------------------------

  ghost function BranchRows(t: Turn, edges: seq<Edge>): set<RowKey> {
    set e | e in edges :: RowKey(t.key.run, e.target, 1)
  }

  ghost predicate Branchable(t: Turn, edges: seq<Edge>) {
    SafeId(t.key.run) && forall e | e in edges :: SafeId(e.target) && Lookup(t.env.pipeline.nodes, e.target).Some?
  }

  lemma {:induction false} BranchesEffect(t: Turn, edges: seq<Edge>)
    requires Branchable(t, edges)
    ensures Branches(t, edges).1
    ensures
      var rows := EffectOf(Branches(t, edges).0).rows;
      && rows.Keys == BranchRows(t, edges)
      && forall k | k in rows ::
        rows[k].status == Dispatched && rows[k].gate == Lookup(t.env.pipeline.nodes, k.node).value.goalGate
    decreases |edges|
  {
    hide SafeId, KeyText, Branch, EffectOf;
    if edges == [] {
      EmptyEffect();
    } else {
      var n := |edges| - 1;
      assert edges == edges[..n] + [edges[n]];
      BranchesEffect(t, edges[..n]);
      OneBranch(t, edges[n], Branches(t, edges[..n]).0);
      assert BranchRows(t, edges) == BranchRows(t, edges[..n]) + {RowKey(t.key.run, edges[n].target, 1)};
    }
  }

  lemma EmptyEffect()
    ensures EffectOf([]) == Effect(map[], map[], {})
  {
  }

  lemma OneBranch(t: Turn, edge: Edge, ws: seq<Write>)
    requires SafeId(t.key.run) && SafeId(edge.target) && Lookup(t.env.pipeline.nodes, edge.target).Some?
    ensures Branch(t, edge).1
    ensures
      var key, gate := RowKey(t.key.run, edge.target, 1), Lookup(t.env.pipeline.nodes, edge.target).value.goalGate;
      EffectOf(ws + Branch(t, edge).0).rows == EffectOf(ws).rows[key := DispatchedRow(key, {t.key.node}, gate)]
  {
    hide SafeId, KeyText, CardFor, EffectOf;
    var node := Lookup(t.env.pipeline.nodes, edge.target).value;
    var key := RowKey(t.key.run, node.id, 1);
    UnitSnoc(ws, Create(KeyText(key), CardFor(t.env.pipeline, node, t.run.context, [t.event.task])),
      Upsert(key, DispatchedRow(key, {t.key.node}, node.goalGate)));
  }

  lemma UnitSnoc(ws: seq<Write>, c: Write, u: Write)
    requires c.Create? && u.Upsert?
    ensures EffectOf(ws + [c, u]).rows == EffectOf(ws).rows[u.key := u.row]
  {
    assert ws + [c, u] == ws + [c] + [u];
    EffectSnoc(ws + [c], u);
    EffectSnoc(ws, c);
  }

  /** A FAN_OUT dispatches each of its edges' targets, first attempt. */
  lemma SplitSteps(env: Env, s: State, k: RowKey, id: int)
    requires Bijective(s) && k in s.rows && Ungated(env.pipeline, k.node, FAN_OUT)
    requires |OutEdges(env.pipeline.edges, k.node)| <= MAX_FAN_OUT_WIDTH
    requires forall e | e in OutEdges(env.pipeline.edges, k.node) ::
      SafeId(e.target) && Lookup(env.pipeline.nodes, e.target).Some?
    ensures k.run in s.runs
    ensures
      var after := Step(env, s, Done(k, id));
      var added := set e | e in OutEdges(env.pipeline.edges, k.node) :: RowKey(k.run, e.target, 1);
      && after.rows.Keys == s.rows.Keys + added
      && (forall j | j in after.rows ::
        if j in added
        then after.rows[j].status == Dispatched
          && after.rows[j].gate == Lookup(env.pipeline.nodes, j.node).value.goalGate
        else after.rows[j] == if j == k then Completed(s.rows[k]) else s.rows[j])
      && after.runs == s.runs[k.run := s.runs[k.run].(cursor := id)]
  {
    hide Step, Bijective, SafeId, KeyText, Branches, RouteTail;
    var e := Done(k, id);
    PlainTurn(env, s, k, id);
    var t := TurnOf(env, k, s.runs[k.run], e);
    var edges := OutEdges(env.pipeline.edges, k.node);
    BranchesEffect(t, edges);
    assert TailOf(t, MarkedRows(t, s.rows)) == Tail(Branches(t, edges).0, Some(t.run.(cursor := id)), FannedOut);
    FirstStep(env, s, e, t);
  }
}

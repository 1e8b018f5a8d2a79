/** One advancement step as the ordered list of writes it performs. */
module Advance {
  import opened Basics
  import opened Values
  import opened Pipelines
  import opened EdgeSelector
  import opened ContextMerge
  import opened Keys
  import opened RunState

  const MAX_FAN_OUT_WIDTH := 16

  /** A terminal event; the step never looks at its kind. */
  datatype Event = Event(task: TaskId, id: int, metadata: Data)

  /** A TOOL body is a pure function of its name and the run context. */
  type Tools = Option<(string, Data) -> Value>

  datatype Env = Env(pipeline: Pipeline, tools: Tools)

  /** Which way a step leaves `advance_on_completion`. */
  datatype Exit =
    | Ignored        // no row or no run for the event
    | Errored        // an exception was raised
    | FannedOut
    | GateBlocked
    | GateRetried
    | FanInWaiting
    | FanInFired
    | HumanPaused
    | ToolFinished   // TOOL then EXIT
    | ToolForwarded  // TOOL then a card
    | ToolStalled    // TOOL then a shape that is not dispatched
    | ToolDeadEnd    // TOOL without a selectable edge
    | Forwarded
    | Finished
    | NoEdge

  // ---- Reading the event -------------------------------------------------

  predicate VerdictPass(metadata: Data) {
    "gate" in metadata && metadata["gate"].Str? && LowerIsPass(metadata["gate"].s)
  }

  predicate LowerIsPass(s: string) {
    |s| == 4 && s[0] in "pP" && s[1] in "aA" && s[2] in "sS" && s[3] in "sS"
  }

  function ContextUpdates(metadata: Data): Data {
    if "context_updates" in metadata && metadata["context_updates"].Dict? then metadata["context_updates"].fields
      else map[]
  }

  function PreferredLabel(metadata: Data): Option<string> {
    if "preferred_label" in metadata && metadata["preferred_label"].Str? then Some(metadata["preferred_label"].s)
      else None
  }

  function Strings(items: seq<Value>): seq<string> {
    if items == [] then [] else
      Strings(items[..|items| - 1]) + if items[|items| - 1].Str? then [items[|items| - 1].s] else []
  }

  function SuggestedNext(metadata: Data): seq<string> {
    if "suggested_next" !in metadata then [] else
      match metadata["suggested_next"]
      case Str(s) => [s]
      case List(items) => Strings(items)
      case _ => []
  }

  // ---- One turn ----------------------------------------------------------

  /** What a step knows after marking its row: none of it depends on the rows. */
  datatype Turn = Turn(
    env: Env,
    key: RowKey,
    event: Event,
    before: Run,   // as stored
    run: Run,      // with the event's context updates applied, unless a fan-in will merge them
    isGate: bool,
    passed: bool)

  predicate FeedsFanIn(p: Pipeline, node: string) {
    exists e | e in p.edges && e.source == node ::
      Lookup(p.nodes, e.target).Some? && Lookup(p.nodes, e.target).value.shape == FAN_IN
  }

  function TurnOf(env: Env, key: RowKey, run: Run, event: Event): Turn {
    var node := Lookup(env.pipeline.nodes, key.node);
    var isGate := node.Some? && node.value.goalGate.Some?;
    var updates := ContextUpdates(event.metadata);
    var applied :=
      if updates != map[] && !FeedsFanIn(env.pipeline, key.node) then run.(context := run.context + updates) else run;
    Turn(env, key, event, run, applied, isGate, isGate ==> VerdictPass(event.metadata))
  }

  /** The completed row: its task, parents, policy and output stay. */
  function Marked(t: Turn, row: Row): Row {
    row.(status := if t.passed then NodeSucceeded else Partial, updates := ContextUpdates(t.event.metadata))
  }

  /** The final save of the ordinary exits: a paused run resumes. */
  function Resumed(t: Turn, run: Run): Run {
    run.(status := if run.status == PAUSED_HUMAN then RUNNING else run.status, cursor := t.event.id)
  }

  function HintsOf(t: Turn): Hints {
    Hints(
      if t.isGate then Some(if t.passed then "pass" else "fail") else PreferredLabel(t.event.metadata),
      SuggestedNext(t.event.metadata))
  }

  function KindFor(shape: NodeShape): CardKind {
    if shape == HUMAN then HumanCard else WorkCard
  }

  function PromptOf(node: Node): string {
    match node.prompt
    case None => ""
    case Some(text) => text
  }

  ghost function CardFor(p: Pipeline, node: Node, ctx: Data, parents: seq<TaskId>): Card {
    Card(Assignee(p, node), PromptOf(node), ctx, parents, node.retryLimit, KindFor(node.shape))
  }

  function DispatchedRow(key: RowKey, parents: set<string>, gate: Option<GoalGatePolicy>): Row {
    Row(TaskOf(key), Dispatched, parents, gate, None, map[])
  }

  /** Create the card, then record its row. */
  ghost function Unit(p: Pipeline, node: Node, key: RowKey, ctx: Data, tasks: seq<TaskId>,
                      parents: set<string>, gate: Option<GoalGatePolicy>): seq<Write>
  {
    [Create(KeyText(key), CardFor(p, node, ctx, tasks)), Upsert(key, DispatchedRow(key, parents, gate))]
  }

  /** Everything a step does after marking its row: dispatching writes, then
      the saved run unless an exception was raised. */
  datatype Tail = Tail(dispatch: seq<Write>, saved: Option<Run>, exit: Exit)

  const RAISED := Tail([], None, Errored)

  /** Dispatch one node and save, or raise when an id is unsafe. */
  ghost function SendOne(t: Turn, node: Node, attempt: nat, ctx: Data, parents: set<string>,
                         gate: Option<GoalGatePolicy>, more: seq<Write>, saved: Run, exit: Exit): Tail
  {
    var key := RowKey(t.key.run, node.id, attempt);
    if ForNode(key) == Raised then RAISED
    else Tail(Unit(t.env.pipeline, node, key, ctx, [t.event.task], parents, gate) + more, Some(saved), exit)
  }

  ghost function TailOf(t: Turn, rows: Rows): Tail {
    var node := Lookup(t.env.pipeline.nodes, t.key.node);
    if node.Some? && node.value.shape == FAN_OUT then FanOutTail(t)
    else if !t.passed && node.Some? && node.value.goalGate.Some? then GateTail(t, node.value.goalGate.value, rows)
    else RouteTail(t, rows)
  }

  // FAN_OUT: one card per edge.

  /** The writes for one edge, and whether the loop goes on. */
  ghost function Branch(t: Turn, edge: Edge): (seq<Write>, bool) {
    match Lookup(t.env.pipeline.nodes, edge.target)
    case None => ([], true)
    case Some(node) =>
      var key := RowKey(t.key.run, node.id, 1);
      if ForNode(key) == Raised then ([], false)
      else (Unit(t.env.pipeline, node, key, t.run.context, [t.event.task], {t.key.node}, node.goalGate), true)
  }

  ghost function Branches(t: Turn, edges: seq<Edge>): (seq<Write>, bool) {
    if edges == [] then ([], true) else
      var (ws, ok) := Branches(t, edges[..|edges| - 1]);
      if !ok then (ws, ok) else
        var (more, goOn) := Branch(t, edges[|edges| - 1]);
        (ws + more, goOn)
  }

  ghost function FanOutTail(t: Turn): Tail {
    var edges := OutEdges(t.env.pipeline.edges, t.key.node);
    if |edges| > MAX_FAN_OUT_WIDTH then RAISED else
      var (ws, ok) := Branches(t, edges);
      if ok then Tail(ws, Some(t.run.(cursor := t.event.id)), FannedOut) else Tail(ws, None, Errored)
  }

  // A failed gate: block, or retry with the gate's own attempt plus one.

  ghost function GateTail(t: Turn, gate: GoalGatePolicy, rows: Rows): Tail {
    var next := t.key.attempt + 1;
    var target := Lookup(t.env.pipeline.nodes, gate.retryTarget);
    if next > gate.maxAttempts then Tail([], Some(t.run.(status := BLOCKED, cursor := t.event.id)), GateBlocked)
    else if target == None then RouteTail(t, rows)
    else SendOne(t, target.value, next, t.run.context, {t.key.node}, None, [], t.run.(cursor := t.event.id),
      GateRetried)
  }

  // Otherwise: select an edge and act on its target.

  ghost function RouteTail(t: Turn, rows: Rows): Tail {
    match Select(OutEdges(t.env.pipeline.edges, t.key.node), t.run.context, HintsOf(t))
    case Raised => RAISED
    case Ok(None) => Tail([], Some(Resumed(t, t.run)), NoEdge)
    case Ok(Some(edge)) =>
      match Lookup(t.env.pipeline.nodes, edge.target)
      case None => Tail([], Some(Resumed(t, t.run)), NoEdge)
      case Some(next) => EnterTail(t, next, rows)
  }

  ghost function EnterTail(t: Turn, next: Node, rows: Rows): Tail {
    match next.shape
    case HUMAN => HumanTail(t, next, rows)
    case FAN_IN => FanInTail(t, next, rows)
    case TOOL => ToolTail(t, next)
    case EXIT => Tail([], Some(t.run.(status := SUCCEEDED, cursor := t.event.id)), Finished)
    case _ =>
      SendOne(t, next, NextAttempt(t, next, rows), t.run.context, {t.key.node}, next.goalGate, [], Resumed(t, t.run),
        Forwarded)
  }

  /** One more than the number of rows the node already has. */
  ghost function NextAttempt(t: Turn, node: Node, rows: Rows): (attempt: nat)
    ensures attempt >= 1
  {
    |AttemptsOf(rows, t.key.run, node.id)| + 1
  }

  ghost function HumanTail(t: Turn, next: Node, rows: Rows): Tail {
    var attempt := NextAttempt(t, next, rows);
    SendOne(t, next, attempt, t.run.context, {t.key.node}, next.goalGate,
      [Block(TaskOf(RowKey(t.key.run, next.id, attempt)))],
      t.run.(status := PAUSED_HUMAN, cursor := t.event.id), HumanPaused)
  }

  ghost function FanInContext(t: Turn, next: Node, rows: Rows): Data {
    Merged(t.run.context, UpdatesOf(rows, t.key.run, Sorted(Predecessors(t.env.pipeline.edges, next.id))))
  }

  ghost function FanInTail(t: Turn, next: Node, rows: Rows): Tail {
    var preds := Predecessors(t.env.pipeline.edges, next.id);
    if !AllDone(rows, t.key.run, preds) then
      Tail([], Some(t.before.(cursor := t.event.id)), FanInWaiting)
    else
      var run := t.run.(context := FanInContext(t, next, rows));
      SendOne(t, next, 1, run.context, preds, next.goalGate, [], Resumed(t, run), FanInFired)
  }

  function ToolContext(t: Turn, tool: Node): Data {
    if t.env.tools == None || PromptOf(tool) == "" then t.run.context else
      match t.env.tools.value(PromptOf(tool), t.run.context)
      case Dict(result) => t.run.context + ContextUpdates(result)
      case _ => t.run.context
  }

  ghost function ToolTail(t: Turn, tool: Node): Tail {
    var run := t.run.(context := ToolContext(t, tool));
    var saved := run.(cursor := t.event.id);
    match Select(OutEdges(t.env.pipeline.edges, tool.id), run.context, Hints(None, []))
    case Raised => RAISED
    case Ok(None) => Tail([], Some(saved), ToolDeadEnd)
    case Ok(Some(edge)) =>
      match Lookup(t.env.pipeline.nodes, edge.target)
      case None => Tail([], Some(saved), ToolStalled)
      case Some(next) =>
        match next.shape
        case EXIT => Tail([], Some(saved.(status := SUCCEEDED)), ToolFinished)
        case TOOL => Tail([], Some(saved), ToolStalled)
        case HUMAN => Tail([], Some(saved), ToolStalled)
        case FAN_IN => Tail([], Some(saved), ToolStalled)
        case _ => SendOne(t, next, 1, run.context, {tool.id}, next.goalGate, [], saved, ToolForwarded)
  }

  // ---- The whole step ----------------------------------------------------

  datatype Plan = Plan(writes: seq<Write>, exit: Exit)

  function Saves(runId: string, saved: Option<Run>): seq<Write> {
    match saved
    case None => []
    case Some(run) => [Save(runId, run)]
  }

  ghost function TurnAt(env: Env, s: State, e: Event): Option<Turn> {
    match FindByTask(s.rows, e.task)
    case None => None
    case Some(k) => if k.run in s.runs then Some(TurnOf(env, k, s.runs[k.run], e)) else None
  }

  /** The rows as the rest of the step sees them: its own row is marked. */
  ghost function MarkedRows(t: Turn, rows: Rows): Rows
    requires t.key in rows
  {
    rows[t.key := Marked(t, rows[t.key])]
  }

  ghost function PlanOf(env: Env, s: State, e: Event): Plan {
    match TurnAt(env, s, e)
    case None => Plan([], Ignored)
    case Some(t) =>
      var tail := TailOf(t, MarkedRows(t, s.rows));
      Plan([Upsert(t.key, Marked(t, s.rows[t.key]))] + tail.dispatch + Saves(t.key.run, tail.saved), tail.exit)
  }

  ghost function Step(env: Env, s: State, e: Event): State {
    ApplyAll(s, PlanOf(env, s, e).writes)
  }

  /** Events delivered one after the other. */
  ghost function Deliveries(env: Env, s: State, es: seq<Event>): State
    decreases |es|
  {
    if es == [] then s else Step(env, Deliveries(env, s, es[..|es| - 1]), es[|es| - 1])
  }

  lemma PlanParts(env: Env, s: State, e: Event, t: Turn)
    requires TurnAt(env, s, e) == Some(t)
    ensures
      var tail := TailOf(t, MarkedRows(t, s.rows));
      && PlanOf(env, s, e).exit == tail.exit
      && PlanOf(env, s, e).writes ==
        [Upsert(t.key, Marked(t, s.rows[t.key]))] + (tail.dispatch + Saves(t.key.run, tail.saved))
  {
    hide TailOf;
  }

  // ---- Shape of a step's writes ------------------------------------------

  /** A card fits its key: same node, same profile, retry limit and kind. */
  ghost predicate CardFits(p: Pipeline, k: RowKey, card: Card) {
    exists n, ctx, tasks :: Lookup(p.nodes, k.node) == Some(n) && card == CardFor(p, n, ctx, tasks)
  }

  /** Every dispatching write concerns a safe key of this run and an existing
      node; a row follows its own card, a block follows its own row. */
  ghost predicate OrderlyAt(p: Pipeline, run: string, ws: seq<Write>, i: nat)
    requires i < |ws|
  {
    match ws[i]
    case Create(text, card) => exists k :: SafeKey(k) && k.run == run && text == KeyText(k) && CardFits(p, k, card)
    case Upsert(k, row) =>
      && SafeKey(k) && k.run == run && k.node in Ids(p.nodes)
      && row.task == TaskOf(k) && row.status == Dispatched && row.updates == map[]
      && i > 0 && ws[i - 1].Create? && ws[i - 1].text == KeyText(k)
    case Block(task) => i > 0 && ws[i - 1].Upsert? && ws[i - 1].row.task == task
    case _ => false
  }

  ghost predicate Orderly(p: Pipeline, run: string, ws: seq<Write>) {
    forall i | 0 <= i < |ws| :: OrderlyAt(p, run, ws, i)
  }

  lemma UnitOrderly(p: Pipeline, node: Node, key: RowKey, ctx: Data, tasks: seq<TaskId>,
                    parents: set<string>, gate: Option<GoalGatePolicy>, blocked: bool)
    requires SafeKey(key) && Lookup(p.nodes, key.node) == Some(node)
    ensures Orderly(p, key.run,
      Unit(p, node, key, ctx, tasks, parents, gate) + if blocked then [Block(TaskOf(key))] else [])
    ensures Orderly(p, key.run, Unit(p, node, key, ctx, tasks, parents, gate))
  {
    assert CardFits(p, key, CardFor(p, node, ctx, tasks));
  }

  lemma OrderlyConcat(p: Pipeline, run: string, a: seq<Write>, b: seq<Write>)
    requires Orderly(p, run, a) && Orderly(p, run, b)
    ensures Orderly(p, run, a + b)
  {
    var ws := a + b;
    forall i | 0 <= i < |ws|
      ensures OrderlyAt(p, run, ws, i)
    {
      if i < |a| {
        assert OrderlyAt(p, run, a, i);
      } else {
        assert OrderlyAt(p, run, b, i - |a|);
      }
    }
  }

  lemma LookupAgain(nodes: seq<Node>, id: string)
    requires Lookup(nodes, id).Some?
    ensures Lookup(nodes, Lookup(nodes, id).value.id) == Lookup(nodes, id)
  {
  }

  lemma SendOneOrderly(t: Turn, node: Node, attempt: nat, ctx: Data, parents: set<string>,
                       gate: Option<GoalGatePolicy>, blocked: bool, saved: Run, exit: Exit)
    requires attempt >= 1 && Lookup(t.env.pipeline.nodes, node.id) == Some(node)
    ensures
      var more := if blocked then [Block(TaskOf(RowKey(t.key.run, node.id, attempt)))] else [];
      Orderly(t.env.pipeline, t.key.run, SendOne(t, node, attempt, ctx, parents, gate, more, saved, exit).dispatch)
  {
    var key := RowKey(t.key.run, node.id, attempt);
    if ForNode(key) != Raised {
      UnitOrderly(t.env.pipeline, node, key, ctx, [t.event.task], parents, gate, blocked);
    }
  }

  lemma BranchOrderly(t: Turn, edge: Edge)
    ensures Orderly(t.env.pipeline, t.key.run, Branch(t, edge).0)
  {
    hide Orderly;
    NothingOrderly(t.env.pipeline, t.key.run);
    var node := Lookup(t.env.pipeline.nodes, edge.target);
    if node.Some? && ForNode(RowKey(t.key.run, node.value.id, 1)) != Raised {
      LookupAgain(t.env.pipeline.nodes, edge.target);
      UnitOrderly(t.env.pipeline, node.value, RowKey(t.key.run, node.value.id, 1), t.run.context, [t.event.task],
        {t.key.node}, node.value.goalGate, false);
    }
  }

  lemma {:induction false} BranchesOrderly(t: Turn, edges: seq<Edge>)
    ensures Orderly(t.env.pipeline, t.key.run, Branches(t, edges).0)
    decreases |edges|
  {
    hide Orderly, Branch;
    NothingOrderly(t.env.pipeline, t.key.run);
    if edges != [] {
      BranchesOrderly(t, edges[..|edges| - 1]);
      BranchOrderly(t, edges[|edges| - 1]);
      OrderlyConcat(t.env.pipeline, t.key.run, Branches(t, edges[..|edges| - 1]).0, Branch(t, edges[|edges| - 1]).0);
    }
  }

  lemma TailOrderly(t: Turn, rows: Rows)
    ensures Orderly(t.env.pipeline, t.key.run, TailOf(t, rows).dispatch)
  {
    var node := Lookup(t.env.pipeline.nodes, t.key.node);
    if node.Some? && node.value.shape == FAN_OUT {
      BranchesOrderly(t, OutEdges(t.env.pipeline.edges, t.key.node));
    } else if !t.passed && node.Some? && node.value.goalGate.Some? {
      GateOrderly(t, node.value.goalGate.value, rows);
    } else {
      RouteOrderly(t, rows);
    }
  }

  lemma NothingOrderly(p: Pipeline, run: string)
    ensures Orderly(p, run, [])
  {
  }

  lemma GateOrderly(t: Turn, gate: GoalGatePolicy, rows: Rows)
    ensures Orderly(t.env.pipeline, t.key.run, GateTail(t, gate, rows).dispatch)
  {
    hide Orderly, SendOne, RouteTail;
    var target := Lookup(t.env.pipeline.nodes, gate.retryTarget);
    NothingOrderly(t.env.pipeline, t.key.run);
    if target.Some? {
      LookupAgain(t.env.pipeline.nodes, gate.retryTarget);
      SendOneOrderly(t, target.value, t.key.attempt + 1, t.run.context, {t.key.node}, None, false,
        t.run.(cursor := t.event.id), GateRetried);
    } else {
      RouteOrderly(t, rows);
    }
  }

  lemma RouteOrderly(t: Turn, rows: Rows)
    ensures Orderly(t.env.pipeline, t.key.run, RouteTail(t, rows).dispatch)
  {
    hide Orderly, EnterTail, Select;
    NothingOrderly(t.env.pipeline, t.key.run);
    match Select(OutEdges(t.env.pipeline.edges, t.key.node), t.run.context, HintsOf(t))
    case Raised =>
    case Ok(None) =>
    case Ok(Some(edge)) =>
      if Lookup(t.env.pipeline.nodes, edge.target).Some? {
        LookupAgain(t.env.pipeline.nodes, edge.target);
        EnterOrderly(t, Lookup(t.env.pipeline.nodes, edge.target).value, rows);
      }
  }

  lemma EnterOrderly(t: Turn, next: Node, rows: Rows)
    requires Lookup(t.env.pipeline.nodes, next.id) == Some(next)
    ensures Orderly(t.env.pipeline, t.key.run, EnterTail(t, next, rows).dispatch)
  {
    hide Orderly, SendOne, ToolTail;
    NothingOrderly(t.env.pipeline, t.key.run);
    var attempt := NextAttempt(t, next, rows);
    match next.shape
    case HUMAN =>
      SendOneOrderly(t, next, attempt, t.run.context, {t.key.node}, next.goalGate, true,
        t.run.(status := PAUSED_HUMAN, cursor := t.event.id), HumanPaused);
    case FAN_IN =>
      var run := t.run.(context := FanInContext(t, next, rows));
      SendOneOrderly(t, next, 1, run.context, Predecessors(t.env.pipeline.edges, next.id), next.goalGate, false,
        Resumed(t, run), FanInFired);
    case EXIT =>
    case TOOL => ToolOrderly(t, next);
    case _ =>
      SendOneOrderly(t, next, attempt, t.run.context, {t.key.node}, next.goalGate, false, Resumed(t, t.run), Forwarded);
  }

  lemma ToolOrderly(t: Turn, tool: Node)
    ensures Orderly(t.env.pipeline, t.key.run, ToolTail(t, tool).dispatch)
  {
    hide Orderly, SendOne, Select, ToolContext;
    NothingOrderly(t.env.pipeline, t.key.run);
    var run := t.run.(context := ToolContext(t, tool));
    match Select(OutEdges(t.env.pipeline.edges, tool.id), run.context, Hints(None, []))
    case Raised =>
    case Ok(None) =>
    case Ok(Some(edge)) =>
      var next := Lookup(t.env.pipeline.nodes, edge.target);
      if next.Some? {
        LookupAgain(t.env.pipeline.nodes, edge.target);
        SendOneOrderly(t, next.value, 1, run.context, {tool.id}, next.value.goalGate, false,
          run.(cursor := t.event.id), ToolForwarded);
      }
  }

  lemma OrderlyPlain(p: Pipeline, run: string, ws: seq<Write>)
    requires Orderly(p, run, ws)
    ensures Plain(ws)
  {
    forall w | w in ws
      ensures w.Upsert? || w.Create? || w.Block?
    {
      var i :| 0 <= i < |ws| && ws[i] == w;
      assert OrderlyAt(p, run, ws, i);
    }
  }

  /** Cursor last, on every path: a step that finds its row and run and does
      not raise saves the run exactly once, as its last write, with the event's
      id as cursor; a step that raises never saves. */
  lemma CursorLast(env: Env, s: State, e: Event)
    requires TurnAt(env, s, e).Some?
    ensures
      var plan, t := PlanOf(env, s, e), TurnAt(env, s, e).value;
      var n := |plan.writes| - 1;
      && n >= 0
      && Plain(plan.writes[..n])
      && (plan.exit == Errored ==> Plain(plan.writes))
      && (plan.exit != Errored ==>
        plan.writes[n].Save? && plan.writes[n].runId == t.key.run && plan.writes[n].run.cursor == e.id)
  {
    hide TailOf;
    var t := TurnAt(env, s, e).value;
    var rows := MarkedRows(t, s.rows);
    var tail := TailOf(t, rows);
    TailOrderly(t, rows);
    OrderlyPlain(env.pipeline, t.key.run, tail.dispatch);
    TailSaves(t, rows);
    var front := [Upsert(t.key, Marked(t, s.rows[t.key]))] + tail.dispatch;
    assert Plain(front);
    if tail.saved.Some? {
      assert PlanOf(env, s, e).writes[..|front|] == front;
    } else {
      assert PlanOf(env, s, e).writes == front;
    }
  }

  /** The exit and the saved run go together, whatever the branch. */
  ghost predicate Settles(t: Turn, tail: Tail) {
    && (tail.exit == Errored <==> tail.saved == None)
    && tail.exit != Ignored
    && (tail.saved.Some? ==> tail.saved.value.cursor == t.event.id && tail.saved.value.specId == t.before.specId)
  }

  lemma ToolSaves(t: Turn, tool: Node)
    requires t.run.specId == t.before.specId
    ensures Settles(t, ToolTail(t, tool))
  {
    hide Select, ToolContext, Unit, ForNode;
    var run := t.run.(context := ToolContext(t, tool));
    match Select(OutEdges(t.env.pipeline.edges, tool.id), run.context, Hints(None, []))
    case Raised =>
    case Ok(None) =>
    case Ok(Some(edge)) =>
      match Lookup(t.env.pipeline.nodes, edge.target)
      case None =>
      case Some(next) =>
  }

  lemma EnterSaves(t: Turn, next: Node, rows: Rows)
    requires t.run.specId == t.before.specId
    ensures Settles(t, EnterTail(t, next, rows))
  {
    hide ToolTail, Unit, ForNode, AllDone, FanInContext, NextAttempt;
    match next.shape
    case HUMAN =>
    case FAN_IN =>
    case TOOL => ToolSaves(t, next);
    case EXIT =>
    case _ =>
  }

  lemma RouteSaves(t: Turn, rows: Rows)
    requires t.run.specId == t.before.specId
    ensures Settles(t, RouteTail(t, rows))
  {
    hide EnterTail, Select;
    forall next
      ensures Settles(t, EnterTail(t, next, rows))
    {
      EnterSaves(t, next, rows);
    }
  }

  lemma TailSaves(t: Turn, rows: Rows)
    requires t.run.specId == t.before.specId
    ensures Settles(t, TailOf(t, rows))
  {
    hide RouteTail, Unit, ForNode, Branches;
    RouteSaves(t, rows);
  }
}

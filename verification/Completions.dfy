/** What one completion does, in terms of the event's metadata, the pipeline's
    nodes and edges, and the stored records. */
module Completions {
  import opened Basics
  import opened Values
  import opened Pipelines
  import opened EdgeSelector
  import opened Keys
  import opened RunState
  import opened Advance
  import opened Invariants
  import opened CrashReplay
  import opened Reconciling

  // ---- What the metadata says --------------------------------------------------------------

  ghost predicate Reports(metadata: Data, key: string, v: Value) {
    && "context_updates" in metadata && metadata["context_updates"].Dict?
    && key in metadata["context_updates"].fields && metadata["context_updates"].fields[key] == v
  }

  /** `after` is `before` with the reported updates: a reported key has the new
      value, every other key is as it was. */
  ghost predicate Updated(after: Data, before: Data, metadata: Data) {
    forall key ::
      && (forall v | Reports(metadata, key, v) :: key in after && after[key] == v)
      && ((forall v :: !Reports(metadata, key, v)) ==>
        (key in after <==> key in before) && (key in before ==> after[key] == before[key]))
  }

  /** The text is "pass" in any mixture of cases. */
  predicate SaysPass(text: string) {
    |text| == 4 && forall i | 0 <= i < 4 :: text[i] == "pass"[i] || text[i] == "PASS"[i]
  }

  ghost predicate Gated(p: Pipeline, node: string) {
    exists n :: Lookup(p.nodes, node) == Some(n) && n.goalGate.Some?
  }

  /** A node without a gate passes; a gate passes on the explicit verdict only. */
  ghost predicate Passing(p: Pipeline, node: string, metadata: Data) {
    Gated(p, node) ==> exists text :: "gate" in metadata && metadata["gate"] == Str(text) && SaysPass(text)
  }

  /** Some edge leads from the node to a FAN_IN. */
  ghost predicate LeadsToFanIn(p: Pipeline, node: string) {
    exists e, n :: e in p.edges && e.source == node && Lookup(p.nodes, e.target) == Some(n) && n.shape == FAN_IN
  }

  lemma UpdatesReported(metadata: Data)
    ensures forall key, v ::
      Reports(metadata, key, v) <==> key in ContextUpdates(metadata) && ContextUpdates(metadata)[key] == v
    ensures forall before :: Updated(before + ContextUpdates(metadata), before, metadata)
    ensures ContextUpdates(metadata) == map[] ==> forall before :: Updated(before, before, metadata)
  {
    forall before: Data, key
      ensures
        var after := before + ContextUpdates(metadata);
        && (forall v | Reports(metadata, key, v) :: key in after && after[key] == v)
        && ((forall v :: !Reports(metadata, key, v)) ==>
          (key in after <==> key in before) && (key in before ==> after[key] == before[key]))
    {
      if key in ContextUpdates(metadata) {
        assert Reports(metadata, key, ContextUpdates(metadata)[key]);
      }
    }
  }

  /** What a step knows of its event. */
  lemma TurnReads(env: Env, s: State, e: Event, k: RowKey)
    requires Bijective(s) && k in s.rows && e.task == s.rows[k].task
    ensures TurnAt(env, s, e).Some? && k.run in s.runs && SafeId(k.run)
    ensures
      var t := TurnAt(env, s, e).value;
      && t.key == k && t.env == env && t.event == e && t.before == s.runs[k.run]
      && t.run == t.before.(context := t.run.context)
      && (t.isGate <==> Gated(env.pipeline, k.node)) && (t.passed <==> Passing(env.pipeline, k.node, e.metadata))
      && (LeadsToFanIn(env.pipeline, k.node) ==> t.run == t.before)
      && (!LeadsToFanIn(env.pipeline, k.node) ==> Updated(t.run.context, t.before.context, e.metadata))
  {
    hide KeyText, SafeId, Lookup, Updated;
    HasRun(s, k);
    FindsOwn(s, k);
    UpdatesReported(e.metadata);
    var t := TurnAt(env, s, e).value;
    assert t == TurnOf(env, k, s.runs[k.run], e);
    VerdictReads(e.metadata);
  }

  lemma VerdictReads(metadata: Data)
    ensures VerdictPass(metadata) <==>
      exists text :: "gate" in metadata && metadata["gate"] == Str(text) && SaysPass(text)
  {
    if VerdictPass(metadata) {
      assert metadata["gate"] == Str(metadata["gate"].s);
    }
  }

  // ---- The saved context -------------------------------------------------------------------

  /** What the tool is run on and what it leaves: nothing happens without a
      registry or a name; otherwise the updates its result reports are applied. */
  ghost predicate ToolLeaves(tools: Tools, tool: Node, before: Data, after: Data) {
    match (tools, tool.prompt)
    case (Some(run), Some(name)) =>
      if name == "" then after == before else
        (match run(name, before)
         case Dict(result) => Updated(after, before, result)
         case _ => after == before)
    case _ => after == before
  }

  ghost predicate ByTool(exit: Exit) {
    exit in {ToolFinished, ToolForwarded, ToolStalled, ToolDeadEnd}
  }

  ghost predicate ByFanIn(exit: Exit) {
    exit in {FanInWaiting, FanInFired}
  }

  /** The saved context, by the exit. */
  ghost predicate SavesContext(t: Turn, tail: Tail, rows: Rows) {
    tail.saved.Some? ==>
      var after := tail.saved.value.context;
      if tail.exit == FanInWaiting then after == t.before.context
      else if tail.exit == FanInFired then
        Entered(t).Some? && Entered(t).value.shape == FAN_IN && after == FanInContext(t, Entered(t).value, rows)
      else if ByTool(tail.exit) then
        Entered(t).Some? && Entered(t).value.shape == TOOL
        && ToolLeaves(t.env.tools, Entered(t).value, t.run.context, after)
      else after == t.run.context
  }

  lemma ToolSavesContext(t: Turn, tool: Node, rows: Rows)
    requires Entered(t) == Some(tool) && tool.shape == TOOL
    ensures SavesContext(t, ToolTail(t, tool), rows)
  {
    hide Select, Unit, ForNode, Entered, Updated;
    forall result
      ensures Updated(t.run.context + ContextUpdates(result), t.run.context, result)
    {
      UpdatesReported(result);
    }
  }

  lemma EnterSavesContext(t: Turn, next: Node, rows: Rows)
    requires Entered(t) == Some(next)
    ensures SavesContext(t, EnterTail(t, next, rows), rows)
  {
    hide ToolTail, Unit, ForNode, AllDone, FanInContext, NextAttempt, Entered;
    match next.shape
    case TOOL => ToolSavesContext(t, next, rows);
    case _ =>
  }

  lemma TailSavesContext(t: Turn, rows: Rows)
    ensures SavesContext(t, TailOf(t, rows), rows)
  {
    hide EnterTail, Select, Unit, ForNode, Branches, FanInContext;
    if Entered(t).Some? {
      TailEnters(t, rows, rows);
      EnterSavesContext(t, Entered(t).value, rows);
    }
  }

  // ---- What is written for a dispatched node ---------------------------------------------------

  /** The node's own profile, else the stylesheet's, else nobody. */
  ghost predicate AddressedTo(p: Pipeline, n: Node, assignee: string) {
    match (n.profile, StyleProfile(p.stylesheet, n))
    case (Some(name), _) => assignee == name
    case (None, Some(name)) => assignee == name
    case (None, None) => assignee == ""
  }

  /** The card of a dispatched node: its worker, its prompt over the context, its
      parent cards, its retry limit, and HUMAN marked as such. */
  ghost predicate CardOf(p: Pipeline, n: Node, ctx: Data, parents: seq<TaskId>, card: Card) {
    && AddressedTo(p, n, card.assignee)
    && card.prompt == (match n.prompt case Some(text) => text case None => "")
    && card.promptContext == ctx && card.parents == parents
    && card.retryLimit == n.retryLimit && card.kind == (if n.shape == HUMAN then HumanCard else WorkCard)
  }

  /** The row's recorded parents: a fan-in's predecessors, the TOOL for the node
      behind it, and otherwise the completed node. */
  ghost function ParentsFor(t: Turn, exit: Exit, node: string): set<string> {
    if exit == FanInFired then set e | e in t.env.pipeline.edges && e.target == node :: e.source
    else if exit == ToolForwarded && Entered(t).Some? then {Entered(t).value.id}
    else {t.key.node}
  }

  /** A card is written for a node of the pipeline under a key of the run; a row
      records that node as dispatched, with its gate unless it is a gate's retry. */
  ghost predicate WrittenFor(t: Turn, exit: Exit, ctx: Data, w: Write) {
    match w
    case Create(text, card) =>
      (exists k, n ::
        && text == KeyText(k) && SafeKey(k) && k.run == t.key.run && Lookup(t.env.pipeline.nodes, k.node) == Some(n)
        && CardOf(t.env.pipeline, n, ctx, [t.event.task], card))
    case Upsert(k, row) =>
      && k.run == t.key.run && Lookup(t.env.pipeline.nodes, k.node).Some?
      && row == Row(TaskOf(k), Dispatched, ParentsFor(t, exit, k.node),
        if exit == GateRetried then None else Lookup(t.env.pipeline.nodes, k.node).value.goalGate, None, map[])
    case _ => true
  }

  ghost predicate AllWritten(t: Turn, exit: Exit, ctx: Data, ws: seq<Write>) {
    forall w | w in ws :: WrittenFor(t, exit, ctx, w)
  }

  ghost predicate Writes(t: Turn, tail: Tail) {
    tail.saved.Some? ==> AllWritten(t, tail.exit, tail.saved.value.context, tail.dispatch)
  }

  lemma CardForFits(p: Pipeline, n: Node, ctx: Data, parents: seq<TaskId>)
    ensures CardOf(p, n, ctx, parents, CardFor(p, n, ctx, parents))
  {
    hide StyleProfile;
  }

  lemma UnitWritten(t: Turn, exit: Exit, n: Node, key: RowKey, ctx: Data)
    requires SafeKey(key) && key.run == t.key.run && Lookup(t.env.pipeline.nodes, key.node) == Some(n)
    ensures AllWritten(t, exit, ctx, Unit(t.env.pipeline, n, key, ctx, [t.event.task], ParentsFor(t, exit, key.node),
      if exit == GateRetried then None else n.goalGate))
  {
    hide KeyText, SafeId, StyleProfile, Entered, ParentsFor;
    CardForFits(t.env.pipeline, n, ctx, [t.event.task]);
  }

  lemma SendOneWritten(t: Turn, n: Node, attempt: nat, ctx: Data, parents: set<string>, gate: Option<GoalGatePolicy>,
                       more: seq<Write>, saved: Run, exit: Exit)
    requires attempt >= 1 && Lookup(t.env.pipeline.nodes, n.id) == Some(n) && saved.context == ctx
    requires parents == ParentsFor(t, exit, n.id) && gate == if exit == GateRetried then None else n.goalGate
    requires forall w | w in more :: w.Block?
    ensures Writes(t, SendOne(t, n, attempt, ctx, parents, gate, more, saved, exit))
  {
    hide KeyText, SafeId, CardOf, CardFor, ParentsFor, Unit;
    var key := RowKey(t.key.run, n.id, attempt);
    if ForNode(key) != Raised {
      UnitWritten(t, exit, n, key, ctx);
      assert forall w | w in more :: WrittenFor(t, exit, ctx, w);
    }
  }

  lemma {:induction false} BranchesWritten(t: Turn, edges: seq<Edge>)
    ensures AllWritten(t, FannedOut, t.run.context, Branches(t, edges).0)
    decreases |edges|
  {
    hide Unit, WrittenFor, KeyText;
    if edges != [] {
      BranchesWritten(t, edges[..|edges| - 1]);
      var edge := edges[|edges| - 1];
      var node := Lookup(t.env.pipeline.nodes, edge.target);
      if node.Some? && ForNode(RowKey(t.key.run, node.value.id, 1)) != Raised {
        UnitWritten(t, FannedOut, node.value, RowKey(t.key.run, node.value.id, 1), t.run.context);
      }
    }
  }

  lemma ToolWritten(t: Turn, tool: Node)
    requires Entered(t) == Some(tool)
    ensures Writes(t, ToolTail(t, tool))
  {
    hide Select, SendOne, ToolContext, WrittenFor, Entered;
    var run := t.run.(context := ToolContext(t, tool));
    match Select(OutEdges(t.env.pipeline.edges, tool.id), run.context, Hints(None, []))
    case Raised =>
    case Ok(None) =>
    case Ok(Some(edge)) =>
      var next := Lookup(t.env.pipeline.nodes, edge.target);
      if next.Some? {
        LookupAgain(t.env.pipeline.nodes, edge.target);
        SendOneWritten(t, next.value, 1, run.context, {tool.id}, next.value.goalGate, [],
          run.(cursor := t.event.id), ToolForwarded);
      }
  }

  lemma EnterWritten(t: Turn, next: Node, rows: Rows)
    requires Entered(t) == Some(next) && Lookup(t.env.pipeline.nodes, next.id) == Some(next)
    ensures Writes(t, EnterTail(t, next, rows))
  {
    hide SendOne, ToolTail, WrittenFor, Entered, FanInContext, AllDone;
    var attempt := NextAttempt(t, next, rows);
    match next.shape
    case HUMAN =>
      SendOneWritten(t, next, attempt, t.run.context, {t.key.node}, next.goalGate,
        [Block(TaskOf(RowKey(t.key.run, next.id, attempt)))],
        t.run.(status := PAUSED_HUMAN, cursor := t.event.id), HumanPaused);
    case FAN_IN =>
      var run := t.run.(context := FanInContext(t, next, rows));
      SendOneWritten(t, next, 1, run.context, Predecessors(t.env.pipeline.edges, next.id), next.goalGate, [],
        Resumed(t, run), FanInFired);
    case EXIT =>
    case TOOL => ToolWritten(t, next);
    case _ =>
      SendOneWritten(t, next, attempt, t.run.context, {t.key.node}, next.goalGate, [], Resumed(t, t.run), Forwarded);
  }

  lemma EnteredIs(t: Turn)
    requires Entered(t).Some?
    ensures Lookup(t.env.pipeline.nodes, Entered(t).value.id) == Some(Entered(t).value)
  {
    hide Select;
    forall id | Lookup(t.env.pipeline.nodes, id).Some?
      ensures Lookup(t.env.pipeline.nodes, Lookup(t.env.pipeline.nodes, id).value.id)
           == Lookup(t.env.pipeline.nodes, id)
    {
      LookupAgain(t.env.pipeline.nodes, id);
    }
  }

  lemma TailWritten(t: Turn, rows: Rows)
    ensures Writes(t, TailOf(t, rows))
  {
    hide EnterTail, Select, SendOne, Branches, WrittenFor;
    if Entered(t).Some? {
      TailEnters(t, rows, rows);
      EnteredIs(t);
      EnterWritten(t, Entered(t).value, rows);
    } else {
      UnenteredWritten(t, rows);
    }
  }

  lemma UnenteredWritten(t: Turn, rows: Rows)
    requires Entered(t) == None
    ensures Writes(t, TailOf(t, rows))
  {
    hide EnterTail, Select, SendOne, Branches, WrittenFor;
    BranchesWritten(t, OutEdges(t.env.pipeline.edges, t.key.node));
    var node := Lookup(t.env.pipeline.nodes, t.key.node);
    if node.Some? && node.value.goalGate.Some? {
      var target := Lookup(t.env.pipeline.nodes, node.value.goalGate.value.retryTarget);
      if target.Some? {
        LookupAgain(t.env.pipeline.nodes, node.value.goalGate.value.retryTarget);
        SendOneWritten(t, target.value, t.key.attempt + 1, t.run.context, {t.key.node}, None, [],
          t.run.(cursor := t.event.id), GateRetried);
      }
    }
  }

  // ---- The step ----------------------------------------------------------------------------------

  lemma {:induction false} EffectWritten(ws: seq<Write>)
    ensures forall text | text in EffectOf(ws).cards :: Create(text, EffectOf(ws).cards[text]) in ws
    ensures forall k | k in EffectOf(ws).rows :: Upsert(k, EffectOf(ws).rows[k]) in ws
    decreases |ws|
  {
    if ws != [] {
      var n := |ws| - 1;
      EffectWritten(ws[..n]);
      assert ws == ws[..n] + [ws[n]];
    }
  }

  /** The stores after a step that does not raise. */
  lemma StepStores(env: Env, s: State, e: Event, t: Turn)
    requires Bijective(s) && TurnAt(env, s, e) == Some(t) && PlanOf(env, s, e).exit != Errored
    ensures t.key in s.rows && t.key.run in s.runs
    ensures
      var rows := MarkedRows(t, s.rows);
      var tail := TailOf(t, rows);
      && tail.saved.Some? && tail.exit == PlanOf(env, s, e).exit
      && Step(env, s, e).runs == s.runs[t.key.run := tail.saved.value]
      && Step(env, s, e).cards == EffectOf(tail.dispatch).cards + s.cards
      && Step(env, s, e).rows == rows + EffectOf(tail.dispatch).rows
      && Step(env, s, e).blocked == s.blocked + EffectOf(tail.dispatch).blocked
  {
    hide TailOf, Step, Bijective, PlanOf, EffectOf;
    FoundTurn(env, s, e, t);
    PlanParts(env, s, e, t);
    TailSaves(t, MarkedRows(t, s.rows));
    StepRuns(env, s, e, t);
    EndsBeforeSave(env, s, e, t);
    assert Saves(t.key.run, TailOf(t, MarkedRows(t, s.rows)).saved) != [] ==>
      Saves(t.key.run, TailOf(t, MarkedRows(t, s.rows)).saved)[..0] == [];
  }

  lemma FoundTurn(env: Env, s: State, e: Event, t: Turn)
    requires TurnAt(env, s, e) == Some(t)
    ensures t.key in s.rows && t.key.run in s.runs && t.run.specId == t.before.specId
  {
  }

  /** Main result on sequential steps: a step that does not raise, and selects
      neither a FAN_IN nor a TOOL, saves the stored context with the reported
      updates, or the stored context itself when an edge of the node leads to a
      FAN_IN, whose merge will bring the updates in. */
  lemma SequentialContext(env: Env, s: State, e: Event, k: RowKey)
    requires Bijective(s) && k in s.rows && e.task == s.rows[k].task
    requires
      PlanOf(env, s, e).exit !in
        {Errored, FanInWaiting, FanInFired, ToolFinished, ToolForwarded, ToolStalled, ToolDeadEnd}
    ensures k.run in s.runs && k.run in Step(env, s, e).runs
    ensures
      var before, after := s.runs[k.run].context, Step(env, s, e).runs[k.run].context;
      if LeadsToFanIn(env.pipeline, k.node) then after == before else Updated(after, before, e.metadata)
  {
    hide TailOf, Step, Bijective, PlanOf, LeadsToFanIn, Updated, Passing, Gated, SafeId;
    TurnReads(env, s, e, k);
    var t := TurnAt(env, s, e).value;
    StepStores(env, s, e, t);
    TailSavesContext(t, MarkedRows(t, s.rows));
  }

  /** Main result on TOOL steps: the tool is run on the context with the updates,
      and what it reports is applied to that. */
  lemma ToolStepContext(env: Env, s: State, e: Event, k: RowKey)
    requires Bijective(s) && k in s.rows && e.task == s.rows[k].task
    requires ByTool(PlanOf(env, s, e).exit)
    ensures k.run in s.runs && k.run in Step(env, s, e).runs
    ensures
      var before, after := s.runs[k.run].context, Step(env, s, e).runs[k.run].context;
      exists tool, given ::
        && tool in env.pipeline.nodes && tool.shape == TOOL
        && (if LeadsToFanIn(env.pipeline, k.node) then given == before else Updated(given, before, e.metadata))
        && ToolLeaves(env.tools, tool, given, after)
  {
    hide TailOf, Step, Bijective, PlanOf, LeadsToFanIn, Updated, Passing, Gated, SafeId, Entered, ToolLeaves;
    TurnReads(env, s, e, k);
    var t := TurnAt(env, s, e).value;
    StepStores(env, s, e, t);
    TailSavesContext(t, MarkedRows(t, s.rows));
    EnteredIs(t);
  }

  /** Main result on what is created: every new card is for a node of the pipeline
      and written over the context the step saves; every new row records that node
      as dispatched. */
  lemma NewRecords(env: Env, s: State, e: Event, k: RowKey)
    requires Bijective(s) && k in s.rows && e.task == s.rows[k].task && PlanOf(env, s, e).exit != Errored
    ensures TurnAt(env, s, e).Some? && k.run in Step(env, s, e).runs
    ensures
      var t, after := TurnAt(env, s, e).value, Step(env, s, e);
      var exit, ctx := PlanOf(env, s, e).exit, after.runs[k.run].context;
      && (forall text | text in after.cards && text !in s.cards ::
        WrittenFor(t, exit, ctx, Create(text, after.cards[text])))
      && (forall j | j in after.rows && j !in s.rows :: WrittenFor(t, exit, ctx, Upsert(j, after.rows[j])))
  {
    hide TailOf, Step, Bijective, PlanOf, SafeId, Entered, WrittenFor, Gated, Passing, Updated, LeadsToFanIn;
    TurnReads(env, s, e, k);
    var t := TurnAt(env, s, e).value;
    StepStores(env, s, e, t);
    TailWritten(t, MarkedRows(t, s.rows));
    EffectWritten(TailOf(t, MarkedRows(t, s.rows)).dispatch);
  }

  // ---- The completed row -----------------------------------------------------------------------------

  /** The row of `k` once `e` has completed it: its verdict and its updates; task,
      parents, policy and output stay. */
  ghost predicate MarkedAs(p: Pipeline, k: RowKey, e: Event, was: Row, row: Row) {
    && row == was.(status := row.status, updates := row.updates)
    && row.status == (if Passing(p, k.node, e.metadata) then NodeSucceeded else Partial)
    && forall key, v :: Reports(e.metadata, key, v) <==> key in row.updates && row.updates[key] == v
  }

  /** Every step that finds its row marks it first, and only the dispatch of that
      very key overwrites the mark. */
  lemma StepMarks(env: Env, s: State, e: Event, k: RowKey)
    requires Bijective(s) && k in s.rows && e.task == s.rows[k].task
    ensures PlanOf(env, s, e).writes != []
    ensures
      var w := PlanOf(env, s, e).writes[0];
      && w.Upsert? && w.key == k && MarkedAs(env.pipeline, k, e, s.rows[k], w.row)
      && k in Step(env, s, e).rows && Step(env, s, e).rows[k].status in {w.row.status, Dispatched}
      && (Step(env, s, e).rows[k].status != Dispatched ==> Step(env, s, e).rows[k] == w.row)
  {
    hide TailOf, Step, Bijective, PlanOf, SafeId, Passing, Gated, LeadsToFanIn, Updated;
    TurnReads(env, s, e, k);
    var t := TurnAt(env, s, e).value;
    PlanParts(env, s, e, t);
    UpdatesReported(e.metadata);
    EndsBeforeSave(env, s, e, t);
    var tail := TailOf(t, MarkedRows(t, s.rows));
    TailOrderly(t, MarkedRows(t, s.rows));
    OrderlyDispatches(env.pipeline, k.run, tail.dispatch);
    assert Saves(k.run, tail.saved) != [] ==> Saves(k.run, tail.saved)[..0] == [];
  }
}

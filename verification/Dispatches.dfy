/** Which rows a step dispatches, exactly when it raises, and exactly when it
    reopens a row that was done. */
module Dispatches {
  import opened Basics
  import opened Values
  import opened Pipelines
  import opened EdgeSelector
  import opened Keys
  import opened RunState
  import opened Advance
  import opened Invariants
  import opened CrashReplay
  import opened Safety
  import opened Histories
  import opened Termination
  import opened GateLoop
  import opened Lifecycle

  // ---- The keys a step dispatches --------------------------------------------------

  ghost predicate IsSplit(t: Turn) {
    var node := Lookup(t.env.pipeline.nodes, t.key.node);
    node.Some? && node.value.shape == FAN_OUT
  }

  /** A failed gate that comes to retrying or blocking, before any edge. */
  ghost predicate GateStops(t: Turn) {
    !IsSplit(t) && !Selects(t)
  }

  /** A TOOL goes on to ordinary nodes only. */
  predicate AfterTool(shape: NodeShape) {
    shape !in {EXIT, TOOL, HUMAN, FAN_IN}
  }

  ghost function ToolKeys(t: Turn, tool: Node): set<RowKey> {
    match Select(OutEdges(t.env.pipeline.edges, tool.id), ToolContext(t, tool), Hints(None, []))
    case Ok(Some(edge)) =>
      (match Lookup(t.env.pipeline.nodes, edge.target)
       case None => {}
       case Some(next) => if AfterTool(next.shape) then {RowKey(t.key.run, next.id, 1)} else {})
    case _ => {}
  }

  ghost function EnteredKeys(t: Turn, next: Node, rows: Rows): set<RowKey> {
    match next.shape
    case EXIT => {}
    case TOOL => ToolKeys(t, next)
    case FAN_IN =>
      if AllDone(rows, t.key.run, Predecessors(t.env.pipeline.edges, next.id)) then {RowKey(t.key.run, next.id, 1)}
        else {}
    case _ => {RowKey(t.key.run, next.id, NextAttempt(t, next, rows))}
  }

  ghost function SplitKeys(t: Turn, edges: seq<Edge>): set<RowKey> {
    set e | e in edges && Lookup(t.env.pipeline.nodes, e.target).Some? :: RowKey(t.key.run, e.target, 1)
  }

  /** By the completed node, its verdict and the node it selects. */
  ghost function DispatchKeys(t: Turn, rows: Rows): set<RowKey> {
    if IsSplit(t) then SplitKeys(t, OutEdges(t.env.pipeline.edges, t.key.node))
    else if Exhausts(t) then {}
    else if GateStops(t) then
      {RowKey(t.key.run, Lookup(t.env.pipeline.nodes, t.key.node).value.goalGate.value.retryTarget, t.key.attempt + 1)}
    else
      match Entered(t)
      case None => {}
      case Some(next) => EnteredKeys(t, next, rows)
  }

  /** A step that selects an existing node dispatches by that node's rule. */
  lemma EnteredDispatches(t: Turn, rows: Rows)
    requires Entered(t).Some?
    ensures DispatchKeys(t, rows) == EnteredKeys(t, Entered(t).value, rows)
  {
    hide Entered, EnteredKeys, SplitKeys;
    EnteredSelects(t);
  }

  ghost predicate Refused(t: Turn, keys: set<RowKey>) {
    exists k :: k in keys && (!SafeId(t.key.run) || !SafeId(k.node))
  }

  /** What a tail dispatches, and that it raises only on a refused key. */
  ghost predicate Sends(t: Turn, tail: Tail, keys: set<RowKey>) {
    && (tail.exit == Errored <==> Refused(t, keys))
    && (tail.exit != Errored ==> Added(tail.dispatch) == keys)
  }

  lemma SendOneSends(t: Turn, node: Node, attempt: nat, ctx: Data, parents: set<string>,
                     gate: Option<GoalGatePolicy>, more: seq<Write>, saved: Run, exit: Exit)
    requires exit != Errored && forall w | w in more :: w.Block?
    ensures Sends(t, SendOne(t, node, attempt, ctx, parents, gate, more, saved, exit),
      {RowKey(t.key.run, node.id, attempt)})
  {
    hide Unit, SafeId, KeyText;
    var key := RowKey(t.key.run, node.id, attempt);
    assert key in {key};
    UnitAdds(t.env.pipeline, node, key, ctx, [t.event.task], parents, gate, more);
  }

  lemma NothingSent(t: Turn, saved: Option<Run>, exit: Exit)
    requires exit != Errored
    ensures Sends(t, Tail([], saved, exit), {})
  {
  }

  /** The branches added before the first refused one, if any. */
  lemma {:induction false} BranchesSend(t: Turn, edges: seq<Edge>)
    ensures Branches(t, edges).1 <==> !Refused(t, SplitKeys(t, edges))
    ensures Branches(t, edges).1 ==> Added(Branches(t, edges).0) == SplitKeys(t, edges)
    decreases |edges|
  {
    hide Unit, SafeId, KeyText, Added;
    if edges == [] {
      AddedNone();
    } else {
      var front, last := edges[..|edges| - 1], edges[|edges| - 1];
      assert edges == front + [last];
      BranchesSend(t, front);
      SplitKeysSnoc(t, front, last);
      BranchSends(t, last);
      AddedConcat(Branches(t, front).0, Branch(t, last).0);
    }
  }

  lemma AddedNone()
    ensures Added([]) == {}
  {
  }

  lemma SplitKeysSnoc(t: Turn, front: seq<Edge>, last: Edge)
    ensures SplitKeys(t, front + [last]) == SplitKeys(t, front) + SplitKeys(t, [last])
    ensures Refused(t, SplitKeys(t, front + [last])) <==>
      Refused(t, SplitKeys(t, front)) || Refused(t, SplitKeys(t, [last]))
  {
    hide SafeId;
    assert last in [last];
  }

  lemma BranchSends(t: Turn, edge: Edge)
    ensures Branch(t, edge).1 <==> !Refused(t, SplitKeys(t, [edge]))
    ensures Branch(t, edge).1 ==> Added(Branch(t, edge).0) == SplitKeys(t, [edge])
  {
    hide Unit, SafeId, KeyText, Added;
    assert edge in [edge];
    AddedNone();
    var node := Lookup(t.env.pipeline.nodes, edge.target);
    if node.Some? {
      var key := RowKey(t.key.run, edge.target, 1);
      assert SplitKeys(t, [edge]) == {key};
      assert key in {key};
      var unit := Unit(t.env.pipeline, node.value, key, t.run.context, [t.event.task], {t.key.node},
        node.value.goalGate);
      UnitAdds(t.env.pipeline, node.value, key, t.run.context, [t.event.task], {t.key.node}, node.value.goalGate, []);
      assert unit + [] == unit;
    } else {
      assert SplitKeys(t, [edge]) == {};
    }
  }

  lemma ToolSends(t: Turn, tool: Node)
    requires ValidPipeline(t.env.pipeline)
    ensures Sends(t, ToolTail(t, tool), ToolKeys(t, tool))
  {
    hide Select, ToolContext, SendOne, Sends, ValidPipeline, SafeId;
    SelectsSafely(t.env.pipeline, tool.id, ToolContext(t, tool), Hints(None, []));
    var saved := t.run.(context := ToolContext(t, tool), cursor := t.event.id);
    NothingSent(t, Some(saved), ToolDeadEnd);
    NothingSent(t, Some(saved), ToolStalled);
    NothingSent(t, Some(saved.(status := SUCCEEDED)), ToolFinished);
    match Select(OutEdges(t.env.pipeline.edges, tool.id), ToolContext(t, tool), Hints(None, []))
    case Ok(Some(edge)) =>
      var next := Lookup(t.env.pipeline.nodes, edge.target).value;
      SendOneSends(t, next, 1, ToolContext(t, tool), {tool.id}, next.goalGate, [], saved, ToolForwarded);
    case _ =>
  }

  lemma EnterSends(t: Turn, next: Node, rows: Rows)
    requires ValidPipeline(t.env.pipeline)
    ensures Sends(t, EnterTail(t, next, rows), EnteredKeys(t, next, rows))
  {
    hide SendOne, ToolTail, ToolKeys, Sends, AllDone, FanInContext, NextAttempt, ValidPipeline, SafeId;
    var attempt := NextAttempt(t, next, rows);
    match next.shape
    case TOOL => ToolSends(t, next);
    case EXIT => NothingSent(t, Some(t.run.(status := SUCCEEDED, cursor := t.event.id)), Finished);
    case FAN_IN =>
      var run := t.run.(context := FanInContext(t, next, rows));
      NothingSent(t, Some(t.before.(cursor := t.event.id)), FanInWaiting);
      SendOneSends(t, next, 1, run.context, Predecessors(t.env.pipeline.edges, next.id), next.goalGate, [],
        Resumed(t, run), FanInFired);
    case HUMAN =>
      SendOneSends(t, next, attempt, t.run.context, {t.key.node}, next.goalGate,
        [Block(TaskOf(RowKey(t.key.run, next.id, attempt)))],
        t.run.(status := PAUSED_HUMAN, cursor := t.event.id), HumanPaused);
    case _ =>
      SendOneSends(t, next, attempt, t.run.context, {t.key.node}, next.goalGate, [], Resumed(t, t.run), Forwarded);
  }

  ghost predicate TooWide(t: Turn) {
    IsSplit(t) && |OutEdges(t.env.pipeline.edges, t.key.node)| > 16
  }

  /** Any step on a valid pipeline: it raises iff its node fans out too widely or
      a key it would dispatch is refused, and otherwise dispatches those keys. */
  lemma DispatchesExactly(t: Turn, rows: Rows)
    requires ValidPipeline(t.env.pipeline) && GateFlags(t)
    ensures TailOf(t, rows).exit == Errored <==> TooWide(t) || Refused(t, DispatchKeys(t, rows))
    ensures TailOf(t, rows).exit != Errored ==> Added(TailOf(t, rows).dispatch) == DispatchKeys(t, rows)
  {
    hide ValidPipeline, SafeId, RouteTail, GateTail, Branches, Added, SplitKeys, EnteredKeys, Entered, Refused;
    var edges := OutEdges(t.env.pipeline.edges, t.key.node);
    if IsSplit(t) {
      BranchesSend(t, edges);
    } else if GateStops(t) || Exhausts(t) {
      GateSends(t, rows);
    } else {
      SelectsRoutes(t, rows);
      RouteSends(t, rows);
    }
  }

  lemma SelectsRoutes(t: Turn, rows: Rows)
    requires Selects(t) && !IsSplit(t) && GateFlags(t)
    ensures TailOf(t, rows) == RouteTail(t, rows)
  {
    hide RouteTail, Branches, SendOne;
  }

  lemma GateSends(t: Turn, rows: Rows)
    requires !IsSplit(t) && (GateStops(t) || Exhausts(t)) && GateFlags(t)
    ensures Sends(t, TailOf(t, rows), DispatchKeys(t, rows))
  {
    hide RouteTail, Branches, SendOne, Sends, SafeId;
    var gate := Lookup(t.env.pipeline.nodes, t.key.node).value.goalGate.value;
    if Exhausts(t) {
      NothingSent(t, Some(t.run.(status := BLOCKED, cursor := t.event.id)), GateBlocked);
    } else {
      var target := Lookup(t.env.pipeline.nodes, gate.retryTarget).value;
      SendOneSends(t, target, t.key.attempt + 1, t.run.context, {t.key.node}, None, [], t.run.(cursor := t.event.id),
        GateRetried);
    }
  }

  lemma RouteSends(t: Turn, rows: Rows)
    requires ValidPipeline(t.env.pipeline) && Selects(t) && !IsSplit(t) && GateFlags(t)
    ensures Sends(t, RouteTail(t, rows), match Entered(t) case None => {} case Some(next) => EnteredKeys(t, next, rows))
  {
    hide ValidPipeline, Select, EnterTail, EnteredKeys, Sends, SafeId;
    SelectsSafely(t.env.pipeline, t.key.node, t.run.context, HintsOf(t));
    NothingSent(t, Some(Resumed(t, t.run)), NoEdge);
    if Entered(t).Some? {
      EnterSends(t, Entered(t).value, rows);
    }
  }

  /** Over whole histories: after any history of launched, and so valid,
      pipelines, delivering an event raises iff its node fans out to more than
      sixteen edges or the step would dispatch a node whose id no key accepts. */
  lemma RaisesExactly(cfg: Config, actions: seq<Action>, e: Event, env: Env, t: Turn)
    requires EnvAt(cfg, After(cfg, actions).state, e) == Some(env)
    requires TurnAt(env, After(cfg, actions).state, e) == Some(t)
    ensures
      var s := After(cfg, actions).state;
      PlanOf(env, s, e).exit == Errored <==>
        TooWide(t) || exists k :: k in DispatchKeys(t, MarkedRows(t, s.rows)) && !SafeId(k.node)
  {
    hide TailOf, Healthy, DispatchKeys, TooWide, SafeId, ValidPipeline, GateFlags;
    var w := After(cfg, actions);
    HistoriesHealthy(cfg, actions);
    ValidTurn(cfg, w, e, env, t);
    PlanParts(env, w.state, e, t);
    DispatchesExactly(t, MarkedRows(t, w.state.rows));
  }

  lemma ValidTurn(cfg: Config, w: World, e: Event, env: Env, t: Turn)
    requires Healthy(cfg, w) && EnvAt(cfg, w.state, e) == Some(env) && TurnAt(env, w.state, e) == Some(t)
    ensures SafeId(t.key.run) && ValidPipeline(t.env.pipeline) && GateFlags(t)
  {
    hide ValidPipeline, SafeId, Lookup, CardsSound;
    assert t.key in w.state.rows && t.key.run in w.state.runs;
  }

  // ---- Reopening a row that was done ---------------------------------------------------

  /** Row `k` was done, counting the completion itself, and is dispatched after. */
  ghost predicate Reopens(t: Turn, s: State, after: State, k: RowKey)
    requires t.key in s.rows
  {
    IsDone(MarkedRows(t, s.rows), k) && k in after.rows && after.rows[k].status == Dispatched
  }

  /** A step's rows: the marked ones, with every dispatched key put to dispatched. */
  lemma RowsAfterStep(env: Env, s: State, e: Event, t: Turn)
    requires Bijective(s) && TurnAt(env, s, e) == Some(t) && ValidPipeline(env.pipeline)
    requires PlanOf(env, s, e).exit != Errored
    ensures t.key in s.rows
    ensures
      var rows, after := MarkedRows(t, s.rows), Step(env, s, e).rows;
      && after.Keys == rows.Keys + DispatchKeys(t, rows)
      && (forall k | k in DispatchKeys(t, rows) :: after[k].status == Dispatched && after[k].updates == map[])
      && (forall k | k in rows && k !in DispatchKeys(t, rows) :: after[k] == rows[k])
  {
    hide TailOf, Step, Bijective, ValidPipeline, DispatchKeys, PlanOf, Orderly;
    OwnTask(env, s, e, t);
    var rows := MarkedRows(t, s.rows);
    var tail := TailOf(t, rows);
    PlanParts(env, s, e, t);
    DispatchesExactly(t, rows);
    EndsBeforeSave(env, s, e, t);
    TailOrderly(t, rows);
    OrderlyRows(env.pipeline, t.key.run, tail.dispatch);
    assert Saves(t.key.run, tail.saved) != [] ==> Saves(t.key.run, tail.saved)[..0] == [];
  }

  lemma {:induction false} OrderlyRows(p: Pipeline, run: string, ws: seq<Write>)
    requires Orderly(p, run, ws)
    ensures forall k | k in EffectOf(ws).rows ::
      EffectOf(ws).rows[k].status == Dispatched && EffectOf(ws).rows[k].updates == map[]
    decreases |ws|
  {
    if ws != [] {
      var n := |ws| - 1;
      forall i | 0 <= i < n
        ensures OrderlyAt(p, run, ws[..n], i)
      {
        assert OrderlyAt(p, run, ws, i);
      }
      OrderlyRows(p, run, ws[..n]);
      assert OrderlyAt(p, run, ws, n);
    }
  }

  /** Main result: a step that does not raise puts a done row back to dispatched
      iff a key it dispatches was done before. */
  lemma ReopensExactly(env: Env, s: State, e: Event, t: Turn, k: RowKey)
    requires Bijective(s) && TurnAt(env, s, e) == Some(t) && ValidPipeline(env.pipeline)
    requires PlanOf(env, s, e).exit != Errored
    ensures t.key in s.rows
    ensures Reopens(t, s, Step(env, s, e), k) <==>
      k in DispatchKeys(t, MarkedRows(t, s.rows)) && IsDone(MarkedRows(t, s.rows), k)
  {
    hide TailOf, Step, Bijective, ValidPipeline, DispatchKeys, PlanOf;
    RowsAfterStep(env, s, e, t);
  }

  /** The steps that can: those that dispatch under a fixed attempt. A dispatch by
      counting never reopens a row of a node whose attempts have no gap. */
  lemma ReopeningExits(env: Env, s: State, e: Event, t: Turn, k: RowKey)
    requires Bijective(s) && TurnAt(env, s, e) == Some(t) && ValidPipeline(env.pipeline)
    requires PlanOf(env, s, e).exit != Errored
    requires forall a: nat, b: nat | 1 <= a <= b && RowKey(k.run, k.node, b) in s.rows ::
      RowKey(k.run, k.node, a) in s.rows
    requires t.key in s.rows && Reopens(t, s, Step(env, s, e), k)
    ensures PlanOf(env, s, e).exit in {FannedOut, GateRetried, FanInFired, ToolForwarded}
  {
    hide TailOf, Step, Bijective, ValidPipeline, PlanOf, SplitKeys, ToolKeys, Select, Entered, Resumes, Finishes;
    hide Pauses;
    var rows := MarkedRows(t, s.rows);
    ReopensExactly(env, s, e, t, k);
    PlanParts(env, s, e, t);
    TailEnters(t, rows, rows);
    if Entered(t).Some? {
      EnteredSelects(t);
      EnteredReopens(env, s, e, t, Entered(t).value, k);
    } else {
      UnenteredSends(t, rows);
    }
  }

  lemma UnenteredSends(t: Turn, rows: Rows)
    requires Entered(t) == None && TailOf(t, rows).exit != Errored && DispatchKeys(t, rows) != {}
    ensures TailOf(t, rows).exit in {FannedOut, GateRetried}
  {
    hide EnterTail, Select, Unit, ForNode, Branches, SplitKeys;
  }

  lemma EnteredReopens(env: Env, s: State, e: Event, t: Turn, next: Node, k: RowKey)
    requires Bijective(s) && TurnAt(env, s, e) == Some(t) && Entered(t) == Some(next) && t.key in s.rows
    requires k in EnteredKeys(t, next, MarkedRows(t, s.rows)) && IsDone(MarkedRows(t, s.rows), k)
    requires EnterTail(t, next, MarkedRows(t, s.rows)).exit != Errored
    requires forall a: nat, b: nat | 1 <= a <= b && RowKey(k.run, k.node, b) in s.rows ::
      RowKey(k.run, k.node, a) in s.rows
    ensures EnterTail(t, next, MarkedRows(t, s.rows)).exit in {FanInFired, ToolForwarded}
  {
    hide Bijective, ToolTail, ToolKeys, Select, Entered, AllDone, FanInContext, NextAttempt, Unit, ForNode;
    match next.shape
    case TOOL => ToolKeysForward(t, next);
    case FAN_IN =>
    case EXIT =>
    case _ => CountIsFresh(s, t, next, k);
  }

  lemma ToolKeysForward(t: Turn, tool: Node)
    requires ToolKeys(t, tool) != {} && ToolTail(t, tool).exit != Errored
    ensures ToolTail(t, tool).exit == ToolForwarded
  {
    hide Select, ToolContext, Unit, ForNode;
  }

  /** Without a gap, one more than the number of rows is a new attempt. */
  lemma CountIsFresh(s: State, t: Turn, next: Node, k: RowKey)
    requires t.key in s.rows && k == RowKey(t.key.run, next.id, NextAttempt(t, next, MarkedRows(t, s.rows)))
    requires forall a: nat, b: nat | 1 <= a <= b && RowKey(k.run, k.node, b) in s.rows ::
      RowKey(k.run, k.node, a) in s.rows
    ensures k !in MarkedRows(t, s.rows)
  {
    if k in s.rows {
      ManyAttempts(MarkedRows(t, s.rows), k);
    }
  }

  lemma ManyAttempts(rows: Rows, k: RowKey)
    requires forall a: nat | 1 <= a <= k.attempt :: RowKey(k.run, k.node, a) in rows
    ensures |AttemptsOf(rows, k.run, k.node)| >= k.attempt
  {
    var attempts := AttemptsOf(rows, k.run, k.node);
    forall a | a in UpTo(k.attempt)
      ensures a in attempts
    {
      assert RowKey(k.run, k.node, a) in rows;
    }
    assert attempts == UpTo(k.attempt) + (attempts - UpTo(k.attempt));
  }

  /** A fan-in that fires again only reopens its row: no card is added, and no row. */
  lemma RefiringAddsNothing(env: Env, s: State, e: Event, t: Turn, fan: Node)
    requires Bijective(s) && TurnAt(env, s, e) == Some(t) && ValidPipeline(env.pipeline)
    requires Entered(t) == Some(fan) && fan.shape == FAN_IN && PlanOf(env, s, e).exit == FanInFired
    requires RowKey(t.key.run, fan.id, 1) in s.rows
    ensures Step(env, s, e).rows.Keys == s.rows.Keys && Step(env, s, e).cards == s.cards
    ensures
      var first := RowKey(t.key.run, fan.id, 1);
      Step(env, s, e).rows[first].status == Dispatched
  {
    hide TailOf, Step, Bijective, ValidPipeline, PlanOf, Entered, AllDone, FanInContext, KeyText, Imprint;
    var rows, first := MarkedRows(t, s.rows), RowKey(t.key.run, fan.id, 1);
    OwnTask(env, s, e, t);
    PlanParts(env, s, e, t);
    TailEnters(t, rows, rows);
    FanInNeedsAll(t, fan, rows);
    FanInFires(t, fan, rows);
    FanInTailShape(t, fan, rows, 2);
    var tail := FanInTail(t, fan, rows);
    assert tail.dispatch[..2] == tail.dispatch;
    EndsBeforeSave(env, s, e, t);
    CardThere(s, first);
    FiredEffect(t, fan, rows);
    AbsorbedCard(s.(rows := rows), EffectOf(tail.dispatch), first, t.key.run, tail.saved);
  }

  lemma FanInNeedsAll(t: Turn, fan: Node, rows: Rows)
    requires EnterTail(t, fan, rows).exit == FanInFired && fan.shape == FAN_IN
    ensures AllDone(rows, t.key.run, Predecessors(t.env.pipeline.edges, fan.id))
  {
    hide AllDone, FanInContext, Unit, ForNode;
  }

  lemma CardThere(s: State, k: RowKey)
    requires Bijective(s) && k in s.rows
    ensures KeyText(k) in s.cards
  {
  }

  lemma FiredEffect(t: Turn, fan: Node, rows: Rows)
    requires FanInTail(t, fan, rows).dispatch != []
    ensures EffectOf(FanInTail(t, fan, rows).dispatch).cards.Keys == {KeyText(RowKey(t.key.run, fan.id, 1))}
  {
    hide KeyText, SafeId, AllDone, FanInContext;
    var first, preds := RowKey(t.key.run, fan.id, 1), Predecessors(t.env.pipeline.edges, fan.id);
    var card := CardFor(t.env.pipeline, fan, FanInContext(t, fan, rows), [t.event.task]);
    UnitEffect(first, DispatchedRow(first, preds, fan.goalGate), card, [], 2);
    var ws := [Create(KeyText(first), card), Upsert(first, DispatchedRow(first, preds, fan.goalGate))];
    assert (ws + [])[..2] == ws;
  }

  lemma AbsorbedCard(m: State, a: Effect, k: RowKey, run: string, saved: Option<Run>)
    requires k in m.rows && KeyText(k) in m.cards && a.cards.Keys == {KeyText(k)} && a.rows.Keys == {k}
    ensures
      var after := ApplyAll(Imprint(m, a), Saves(run, saved));
      after.cards == m.cards && after.rows.Keys == m.rows.Keys && after.rows[k] == a.rows[k]
  {
    hide KeyText;
    assert Saves(run, saved) != [] ==> Saves(run, saved)[..0] == [];
  }
}

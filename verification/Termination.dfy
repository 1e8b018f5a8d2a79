/** A run creates finitely many cards: every delivery lowers a measure. */
module Termination {
  import opened Basics
  import opened Values
  import opened Pipelines
  import opened EdgeSelector
  import opened Keys
  import opened RunState
  import opened Advance
  import opened Invariants

  /** The hints under which a node's edges are ever selected: a gate that can
      be retried selects only with the hint `pass`, a TOOL without hints. */
  ghost predicate Hinted(p: Pipeline, source: string, h: Hints) {
    var node := Lookup(p.nodes, source);
    node.Some? && node.value.goalGate.Some? && Lookup(p.nodes, node.value.goalGate.value.retryTarget).Some? ==>
      h.routingHint == Some("pass") || (node.value.shape == TOOL && h == Hints(None, []))
  }

  /** Edges a step can ever follow: all those of a FAN_OUT, and those that some
      context and some hints select. */
  ghost predicate Selectable(p: Pipeline, e: Edge) {
    && e in p.edges
    && (|| (Lookup(p.nodes, e.source).Some? && Lookup(p.nodes, e.source).value.shape == FAN_OUT)
        || exists ctx, h :: Hinted(p, e.source, h) && Select(OutEdges(p.edges, e.source), ctx, h) == Ok(Some(e)))
  }

  /** Every edge a step can follow lowers the rank, so only gate retries go back. */
  ghost predicate Ranked(p: Pipeline, rank: string -> nat, top: nat) {
    && (forall e | Selectable(p, e) :: rank(e.target) < rank(e.source))
    && (forall n | n in p.nodes :: rank(n.id) <= top)
  }

  lemma SelectedDescends(p: Pipeline, rank: string -> nat, top: nat, source: string, ctx: Data, h: Hints)
    requires Ranked(p, rank, top) && Hinted(p, source, h)
    ensures
      var selected := Select(OutEdges(p.edges, source), ctx, h);
      selected.Ok? && selected.value.Some? ==> rank(selected.value.value.target) < rank(source)
  {
    hide Select, Hinted;
    SelectOptimal(OutEdges(p.edges, source), ctx, h);
    var selected := Select(OutEdges(p.edges, source), ctx, h);
    if selected.Ok? && selected.value.Some? {
      var e := selected.value.value;
      assert e in p.edges && e.source == source;
      assert Selectable(p, e);
    }
  }

  function Pow17(n: nat): (r: nat)
    ensures r >= 1
  {
    if n == 0 then 1 else 17 * Pow17(n - 1)
  }

  lemma {:induction false} Pow17Monotone(a: nat, b: nat)
    requires a <= b
    ensures Pow17(a) <= Pow17(b)
    decreases b
  {
    if a < b {
      Pow17Monotone(a, b - 1);
    }
  }

  lemma Pow17Step(r: nat)
    requires r >= 1
    ensures Pow17(r) == 17 * Pow17(r - 1)
  {
  }

  lemma {:induction false} TimesMonotone(a: nat, b: nat, c: nat)
    requires a <= b
    ensures a * c <= b * c
    decreases b - a
  {
    if a < b {
      TimesMonotone(a, b - 1, c);
      assert b * c == (b - 1) * c + c;
    }
  }

  // ---- Sums over sets of rows ----------------------------------------------

  ghost function Total(rank: string -> nat, ks: set<RowKey>): nat
    decreases |ks|
  {
    if ks == {} then 0 else
      var k :| k in ks;
      Pow17(rank(k.node)) + Total(rank, ks - {k})
  }

  lemma TotalOfNone(rank: string -> nat)
    ensures Total(rank, {}) == 0
  {
  }

  lemma {:induction false} TotalWithout(rank: string -> nat, ks: set<RowKey>, k: RowKey)
    requires k in ks
    ensures Total(rank, ks) == Pow17(rank(k.node)) + Total(rank, ks - {k})
    decreases |ks|
  {
    var j :| j in ks && Total(rank, ks) == Pow17(rank(j.node)) + Total(rank, ks - {j});
    if j != k {
      TotalWithout(rank, ks - {j}, k);
      TotalWithout(rank, ks - {k}, j);
      assert ks - {j} - {k} == ks - {k} - {j};
    }
  }

  lemma {:induction false} TotalUnion(rank: string -> nat, a: set<RowKey>, b: set<RowKey>)
    ensures Total(rank, a + b) <= Total(rank, a) + Total(rank, b)
    decreases |b|
  {
    if b == {} {
      assert a + b == a;
    } else {
      var k :| k in b;
      TotalUnion(rank, a, b - {k});
      TotalWithout(rank, b, k);
      if k in a {
        assert a + b == a + (b - {k});
      } else {
        TotalWithout(rank, a + b, k);
        assert a + b - {k} == a + (b - {k});
      }
    }
  }

  lemma TotalSubset(rank: string -> nat, a: set<RowKey>, b: set<RowKey>)
    requires a <= b
    ensures Total(rank, a) <= Total(rank, b)
    decreases |b|
  {
    if b - a == {} {
      assert a == b;
    } else {
      var k :| k in b - a;
      TotalWithout(rank, b, k);
      TotalSubset(rank, a, b - {k});
    }
  }

  /** Sixteen rows of lower rank weigh less than one of the higher rank. */
  lemma {:induction false} TotalBelow(rank: string -> nat, ks: set<RowKey>, r: nat)
    requires forall k | k in ks :: rank(k.node) < r
    ensures 17 * Total(rank, ks) <= |ks| * Pow17(r)
    decreases |ks|
  {
    hide Total, Pow17;
    if ks == {} {
      TotalOfNone(rank);
    } else {
      var k :| k in ks;
      var rest := ks - {k};
      TotalWithout(rank, ks, k);
      TotalBelow(rank, rest, r);
      Pow17Monotone(rank(k.node), r - 1);
      Pow17Step(r);
      assert |ks| == |rest| + 1;
      assert (|rest| + 1) * Pow17(r) == |rest| * Pow17(r) + Pow17(r);
    }
  }

  // ---- What a step dispatches ----------------------------------------------

  ghost function Added(ws: seq<Write>): set<RowKey> {
    EffectOf(ws).rows.Keys
  }

  lemma {:induction false} AddedConcat(a: seq<Write>, b: seq<Write>)
    ensures Added(a + b) == Added(a) + Added(b)
    decreases |b|
  {
    if b == [] {
      assert a + b == a;
    } else {
      assert (a + b)[..|a + b| - 1] == a + b[..|b| - 1];
      AddedConcat(a, b[..|b| - 1]);
    }
  }

  lemma AddedOne(w: Write)
    ensures Added([w]) == if w.Upsert? then {w.key} else {}
  {
    assert [w][..0] == [];
    assert EffectOf([w]) == Extend(EffectOf([]), w);
  }

  lemma UnitAdds(p: Pipeline, node: Node, key: RowKey, ctx: Data, tasks: seq<TaskId>, parents: set<string>,
                 gate: Option<GoalGatePolicy>, more: seq<Write>)
    requires forall w | w in more :: w.Block?
    ensures Added(Unit(p, node, key, ctx, tasks, parents, gate) + more) == {key}
  {
    hide CardFor, KeyText;
    var c, u := Create(KeyText(key), CardFor(p, node, ctx, tasks)), Upsert(key, DispatchedRow(key, parents, gate));
    assert [c, u] == [c] + [u] && [c][..0] == [] && [u][..0] == [];
    AddedConcat([c], [u]);
    AddedOne(c);
    AddedOne(u);
    AddedConcat([c, u], more);
    BlocksAddNothing(more);
    assert Unit(p, node, key, ctx, tasks, parents, gate) == [c, u];
  }

  lemma {:induction false} BlocksAddNothing(ws: seq<Write>)
    requires forall w | w in ws :: w.Block?
    ensures Added(ws) == {}
    decreases |ws|
  {
    if ws != [] {
      assert ws[|ws| - 1] in ws;
      BlocksAddNothing(ws[..|ws| - 1]);
    }
  }

  /** At most sixteen rows, all of this run and of lower rank than the node. */
  ghost predicate Descends(t: Turn, rank: string -> nat, ws: seq<Write>) {
    |Added(ws)| <= MAX_FAN_OUT_WIDTH && forall k | k in Added(ws) ::
      k.run == t.key.run && rank(k.node) < rank(t.key.node)
  }

  lemma SendDescends(t: Turn, rank: string -> nat, node: Node, attempt: nat, ctx: Data, parents: set<string>,
                     gate: Option<GoalGatePolicy>, more: seq<Write>, saved: Run, exit: Exit)
    requires forall w | w in more :: w.Block?
    requires rank(node.id) < rank(t.key.node)
    ensures Descends(t, rank, SendOne(t, node, attempt, ctx, parents, gate, more, saved, exit).dispatch)
  {
    hide Unit, ForNode;
    UnitAdds(t.env.pipeline, node, RowKey(t.key.run, node.id, attempt), ctx, [t.event.task], parents, gate, more);
  }

  lemma {:induction false} BranchesDescend(t: Turn, rank: string -> nat, edges: seq<Edge>)
    requires forall e | e in edges :: rank(e.target) < rank(t.key.node)
    ensures |Added(Branches(t, edges).0)| <= |edges|
    ensures forall k | k in Added(Branches(t, edges).0) :: k.run == t.key.run && rank(k.node) < rank(t.key.node)
    decreases |edges|
  {
    hide Unit, ForNode;
    if edges != [] {
      var last := edges[|edges| - 1];
      BranchesDescend(t, rank, edges[..|edges| - 1]);
      assert last in edges;
      AddedConcat(Branches(t, edges[..|edges| - 1]).0, Branch(t, last).0);
      var node := Lookup(t.env.pipeline.nodes, last.target);
      if node.Some? {
        var unit := Unit(t.env.pipeline, node.value, RowKey(t.key.run, node.value.id, 1), t.run.context, [t.event.task],
          {t.key.node}, node.value.goalGate);
        UnitAdds(t.env.pipeline, node.value, RowKey(t.key.run, node.value.id, 1), t.run.context, [t.event.task],
          {t.key.node}, node.value.goalGate, []);
        assert unit + [] == unit;
      }
    }
  }

  lemma EnterDescends(t: Turn, rank: string -> nat, top: nat, next: Node, rows: Rows)
    requires Ranked(t.env.pipeline, rank, top) && rank(next.id) < rank(t.key.node)
    requires Lookup(t.env.pipeline.nodes, next.id) == Some(next)
    ensures Descends(t, rank, EnterTail(t, next, rows).dispatch)
  {
    hide SendOne, ToolTail, Descends, AllDone, FanInContext, NextAttempt;
    NothingDescends(t, rank);
    var attempt := NextAttempt(t, next, rows);
    match next.shape
    case HUMAN =>
      SendDescends(t, rank, next, attempt, t.run.context, {t.key.node}, next.goalGate,
        [Block(TaskOf(RowKey(t.key.run, next.id, attempt)))],
        t.run.(status := PAUSED_HUMAN, cursor := t.event.id), HumanPaused);
    case FAN_IN =>
      var run := t.run.(context := FanInContext(t, next, rows));
      SendDescends(t, rank, next, 1, run.context, Predecessors(t.env.pipeline.edges, next.id), next.goalGate, [],
        Resumed(t, run), FanInFired);
    case TOOL => ToolDescends(t, rank, top, next);
    case EXIT =>
    case _ =>
      SendDescends(t, rank, next, attempt, t.run.context, {t.key.node}, next.goalGate, [], Resumed(t, t.run),
        Forwarded);
  }

  lemma NothingDescends(t: Turn, rank: string -> nat)
    ensures Descends(t, rank, [])
  {
  }

  lemma ToolDescends(t: Turn, rank: string -> nat, top: nat, tool: Node)
    requires Ranked(t.env.pipeline, rank, top) && rank(tool.id) < rank(t.key.node)
    requires tool.shape == TOOL && Lookup(t.env.pipeline.nodes, tool.id) == Some(tool)
    ensures Descends(t, rank, ToolTail(t, tool).dispatch)
  {
    hide SendOne, Descends, Select, ToolContext;
    NothingDescends(t, rank);
    var run := t.run.(context := ToolContext(t, tool));
    SelectedDescends(t.env.pipeline, rank, top, tool.id, run.context, Hints(None, []));
    match Select(OutEdges(t.env.pipeline.edges, tool.id), run.context, Hints(None, []))
    case Ok(Some(edge)) =>
      var next := Lookup(t.env.pipeline.nodes, edge.target);
      if next.Some? {
        SendDescends(t, rank, next.value, 1, run.context, {tool.id}, next.value.goalGate, [],
          run.(cursor := t.event.id), ToolForwarded);
      }
    case _ =>
  }

  lemma RouteDescends(t: Turn, rank: string -> nat, top: nat, rows: Rows)
    requires Ranked(t.env.pipeline, rank, top) && Hinted(t.env.pipeline, t.key.node, HintsOf(t))
    ensures Descends(t, rank, RouteTail(t, rows).dispatch) && RouteTail(t, rows).exit != GateRetried
  {
    hide EnterTail, Descends, Select;
    NothingDescends(t, rank);
    SelectedDescends(t.env.pipeline, rank, top, t.key.node, t.run.context, HintsOf(t));
    match Select(OutEdges(t.env.pipeline.edges, t.key.node), t.run.context, HintsOf(t))
    case Ok(Some(edge)) =>
      var next := Lookup(t.env.pipeline.nodes, edge.target);
      if next.Some? {
        LookupAgain(t.env.pipeline.nodes, edge.target);
        EnterDescends(t, rank, top, next.value, rows);
        EnterNeverRetries(t, next.value, rows);
      }
    case _ =>
  }

  lemma EnterNeverRetries(t: Turn, next: Node, rows: Rows)
    ensures EnterTail(t, next, rows).exit != GateRetried
  {
    hide ForNode, Unit, Select, ToolContext, AllDone, FanInContext, NextAttempt;
    match next.shape
    case TOOL =>
    case _ =>
  }

  /** The keys a gate of this pipeline may ever retry under. */
  ghost function RetryKeys(p: Pipeline, run: string): set<RowKey> {
    set n, a | n in p.nodes && n.goalGate.Some? && 2 <= a <= n.goalGate.value.maxAttempts ::
      RowKey(run, n.goalGate.value.retryTarget, a)
  }

  /** What a turn says about gates is what its node says. */
  ghost predicate GateFlags(t: Turn) {
    var node := Lookup(t.env.pipeline.nodes, t.key.node);
    (t.isGate <==> node.Some? && node.value.goalGate.Some?) && (t.passed || t.isGate)
  }

  /** A step either dispatches downwards, or adds one retry key. */
  lemma TailDescends(t: Turn, rank: string -> nat, top: nat, rows: Rows)
    requires Ranked(t.env.pipeline, rank, top) && t.key.attempt >= 1 && GateFlags(t)
    ensures
      var tail := TailOf(t, rows);
      || Descends(t, rank, tail.dispatch)
      || (|Added(tail.dispatch)| == 1 && forall k | k in Added(tail.dispatch) ::
            k in RetryKeys(t.env.pipeline, t.key.run) && rank(k.node) <= top)
  {
    hide RouteTail, Branches, Descends, Unit, ForNode;
    NothingDescends(t, rank);
    var node := Lookup(t.env.pipeline.nodes, t.key.node);
    if node.Some? && node.value.shape == FAN_OUT {
      FanOutDescends(t, rank, top);
    } else if !t.passed && node.Some? && node.value.goalGate.Some? {
      GateDescends(t, rank, top, node.value, rows);
    } else {
      RouteDescends(t, rank, top, rows);
    }
  }

  lemma FanOutDescends(t: Turn, rank: string -> nat, top: nat)
    requires Ranked(t.env.pipeline, rank, top)
    requires Lookup(t.env.pipeline.nodes, t.key.node).Some?
    requires Lookup(t.env.pipeline.nodes, t.key.node).value.shape == FAN_OUT
    ensures Descends(t, rank, FanOutTail(t).dispatch)
  {
    hide Branches;
    forall e | e in OutEdges(t.env.pipeline.edges, t.key.node)
      ensures rank(e.target) < rank(t.key.node)
    {
      assert Selectable(t.env.pipeline, e);
    }
    BranchesDescend(t, rank, OutEdges(t.env.pipeline.edges, t.key.node));
  }

  lemma GateDescends(t: Turn, rank: string -> nat, top: nat, node: Node, rows: Rows)
    requires Ranked(t.env.pipeline, rank, top) && t.key.attempt >= 1
    requires Lookup(t.env.pipeline.nodes, t.key.node) == Some(node) && node.goalGate.Some?
    ensures
      var tail := GateTail(t, node.goalGate.value, rows);
      || Descends(t, rank, tail.dispatch)
      || (|Added(tail.dispatch)| == 1 && forall k | k in Added(tail.dispatch) ::
            k in RetryKeys(t.env.pipeline, t.key.run) && rank(k.node) <= top)
  {
    hide RouteTail, Descends, Unit, ForNode;
    NothingDescends(t, rank);
    var gate := node.goalGate.value;
    var target := Lookup(t.env.pipeline.nodes, gate.retryTarget);
    if target.Some? {
      var key := RowKey(t.key.run, target.value.id, t.key.attempt + 1);
      UnitAdds(t.env.pipeline, target.value, key, t.run.context, [t.event.task], {t.key.node}, None, []);
    } else {
      RouteDescends(t, rank, top, rows);
    }
  }

  // ---- The measure ---------------------------------------------------------

  /** Rows of the run whose event has not been processed. */
  ghost function Open(s: State, processed: set<TaskId>, run: string): set<RowKey> {
    set k | k in s.rows && k.run == run && TaskOf(k) !in processed
  }

  ghost function Measure(p: Pipeline, s: State, processed: set<TaskId>, run: string, rank: string -> nat, top: nat)
    : nat
  {
    |RetryKeys(p, run) - s.rows.Keys| * Pow17(top) + Total(rank, Open(s, processed, run))
  }

  /** Processing an open row's event lowers the measure, whatever the exit. */
  lemma DeliveryLowersMeasure(env: Env, s: State, e: Event, t: Turn, processed: set<TaskId>, rank: string -> nat,
    top: nat)
    requires Bijective(s) && TurnAt(env, s, e) == Some(t) && e.task !in processed
    requires Ranked(env.pipeline, rank, top)
    ensures Measure(env.pipeline, Step(env, s, e), processed + {e.task}, t.key.run, rank, top)
          < Measure(env.pipeline, s, processed, t.key.run, rank, top)
  {
    hide TailOf, Step, Bijective, Total, RetryKeys, Added;
    var tail := TailOf(t, MarkedRows(t, s.rows));
    OwnTask(env, s, e, t);
    TailDescends(t, rank, top, MarkedRows(t, s.rows));
    StepRows(env, s, e, t);
    var run := t.key.run;
    var novel := Added(tail.dispatch) - s.rows.Keys;
    var before, after := Open(s, processed, run), Open(Step(env, s, e), processed + {e.task}, run);
    assert t.key in before && t.key !in after;
    assert after <= before - {t.key} + novel;
    TotalSubset(rank, after, before - {t.key} + novel);
    TotalUnion(rank, before - {t.key}, novel);
    TotalWithout(rank, before, t.key);
    if Descends(t, rank, tail.dispatch) {
      FreshBelow(rank, novel, Added(tail.dispatch), rank(t.key.node));
      FewerRetries(RetryKeys(env.pipeline, run), s.rows.Keys, Step(env, s, e).rows.Keys, top);
    } else {
      RetryTrade(rank, novel, Added(tail.dispatch), RetryKeys(env.pipeline, run), s.rows.Keys, top);
    }
  }

  lemma OwnTask(env: Env, s: State, e: Event, t: Turn)
    requires Bijective(s) && TurnAt(env, s, e) == Some(t)
    ensures t.key in s.rows && e.task == TaskOf(t.key) && t.key.attempt >= 1 && t.env == env && t.event == e
    ensures GateFlags(t)
  {
  }

  lemma StepRows(env: Env, s: State, e: Event, t: Turn)
    requires TurnAt(env, s, e) == Some(t)
    ensures Step(env, s, e).rows.Keys == s.rows.Keys + Added(TailOf(t, MarkedRows(t, s.rows)).dispatch)
  {
    hide TailOf, Step;
    var tail := TailOf(t, MarkedRows(t, s.rows));
    CrashPoints(env, s, e, |tail.dispatch| + 2);
    MarkedState(t, s);
    TailOrderly(t, MarkedRows(t, s.rows));
    OrderlyPlain(env.pipeline, t.key.run, tail.dispatch);
    assert tail.dispatch[..|tail.dispatch|] == tail.dispatch;
    PlainEffect(s.(rows := MarkedRows(t, s.rows)), tail.dispatch);
    assert tail.saved.Some? ==> Saves(t.key.run, tail.saved)[..0] == [];
  }

  lemma FreshBelow(rank: string -> nat, novel: set<RowKey>, added: set<RowKey>, r: nat)
    requires novel <= added && |added| <= MAX_FAN_OUT_WIDTH && forall k | k in added :: rank(k.node) < r
    ensures Total(rank, novel) < Pow17(r)
  {
    hide Total, Pow17;
    assert added == novel + (added - novel);
    assert |novel| <= 16;
    TotalBelow(rank, novel, r);
    TimesMonotone(|novel|, 16, Pow17(r));
  }

  lemma FewerRetries(keys: set<RowKey>, before: set<RowKey>, after: set<RowKey>, top: nat)
    requires before <= after
    ensures |keys - after| * Pow17(top) <= |keys - before| * Pow17(top)
  {
    hide Pow17;
    assert keys - before == (keys - after) + (keys * after - before);
    assert |keys - after| <= |keys - before|;
    TimesMonotone(|keys - after|, |keys - before|, Pow17(top));
  }

  /** A retry either re-creates a row, or uses up one of the retry keys. */
  lemma RetryTrade(rank: string -> nat, novel: set<RowKey>, added: set<RowKey>, keys: set<RowKey>, before: set<RowKey>,
    top: nat)
    requires novel == added - before && |added| == 1 && forall k | k in added :: k in keys && rank(k.node) <= top
    ensures |keys - (before + added)| * Pow17(top) + Total(rank, novel) <= |keys - before| * Pow17(top)
  {
    hide Total, Pow17;
    var k :| k in added;
    assert |added - {k}| == 0;
    assert added == {k};
    if k in before {
      assert novel == {} && keys - (before + added) == keys - before;
      TotalOfNone(rank);
    } else {
      assert novel == {k};
      TotalWithout(rank, novel, k);
      assert novel - {k} == {};
      TotalOfNone(rank);
      Pow17Monotone(rank(k.node), top);
      var rest := keys - (before + added);
      assert keys - before == rest + {k};
      assert |keys - before| == |rest| + 1;
      assert (|rest| + 1) * Pow17(top) == |rest| * Pow17(top) + Pow17(top);
    }
  }

  // ---- Finitely many deliveries ----------------------------------------------

  ghost function Processed(events: seq<Event>): set<TaskId> {
    set e | e in events :: e.task
  }

  /** Each event finds a row of the run, and no task is processed twice. */
  ghost predicate OnceEach(env: Env, s: State, events: seq<Event>, run: string)
    decreases |events|
  {
    events == [] ||
      var n := |events| - 1;
      var turn := TurnAt(env, Deliveries(env, s, events[..n]), events[n]);
      && OnceEach(env, s, events[..n], run)
      && turn.Some? && turn.value.key.run == run
      && events[n].task !in Processed(events[..n])
  }

  ghost function RunRows(s: State, run: string): set<RowKey> {
    set k | k in s.rows && k.run == run
  }

  /** One delivery records at most sixteen new cards. */
  lemma StepAddsFew(env: Env, s: State, e: Event, t: Turn, rank: string -> nat, top: nat)
    requires Bijective(s) && TurnAt(env, s, e) == Some(t) && Ranked(env.pipeline, rank, top)
    ensures |RunRows(Step(env, s, e), t.key.run)| <= |RunRows(s, t.key.run)| + MAX_FAN_OUT_WIDTH
  {
    hide TailOf, Step, Bijective, Added, Ranked, RetryKeys;
    OwnTask(env, s, e, t);
    TailDescends(t, rank, top, MarkedRows(t, s.rows));
    StepRows(env, s, e, t);
    var added := Added(TailOf(t, MarkedRows(t, s.rows)).dispatch);
    var before, after := RunRows(s, t.key.run), RunRows(Step(env, s, e), t.key.run);
    assert after <= before + added;
    SubsetSize(after, before + added);
  }

  lemma SubsetSize(a: set<RowKey>, b: set<RowKey>)
    requires a <= b
    ensures |a| <= |b|
  {
    assert b == a + (b - a);
  }

  /** Every delivery is paid for out of the measure, and adds at most sixteen
      rows. */
  lemma {:induction false} DeliveriesBounded(env: Env, s: State, events: seq<Event>, run: string, rank: string -> nat,
    top: nat)
    requires Bijective(s) && Ranked(env.pipeline, rank, top) && OnceEach(env, s, events, run)
    ensures
      var after := Deliveries(env, s, events);
      && Bijective(after)
      && |events| + Measure(env.pipeline, after, Processed(events), run, rank, top) <=
        Measure(env.pipeline, s, {}, run, rank, top)
      && |RunRows(after, run)| <= |RunRows(s, run)| + MAX_FAN_OUT_WIDTH * |events|
    decreases |events|
  {
    hide Step, Bijective, Measure, TurnAt, Ranked, RunRows;
    if events == [] {
      assert Processed([]) == {};
    } else {
      var n := |events| - 1;
      var before, e := Deliveries(env, s, events[..n]), events[n];
      assert events == events[..n] + [e];
      assert Processed(events) == Processed(events[..n]) + {e.task};
      DeliveriesBounded(env, s, events[..n], run, rank, top);
      DeliveryLowersMeasure(env, before, e, TurnAt(env, before, e).value, Processed(events[..n]), rank, top);
      StepAddsFew(env, before, e, TurnAt(env, before, e).value, rank, top);
      StepBijective(env, before, e);
    }
  }

  /** From launch, when the run has at most its entry row: at most this many
      completions can ever be processed, and at most sixteen cards each
      recorded. */
  lemma LaunchedRunTerminates(env: Env, s: State, events: seq<Event>, entry: RowKey, rank: string -> nat, top: nat)
    requires Bijective(s) && Ranked(env.pipeline, rank, top)
    requires forall k | k in s.rows && k.run == entry.run :: k == entry
    requires OnceEach(env, s, events, entry.run)
    ensures |events| <= |RetryKeys(env.pipeline, entry.run)| * Pow17(top) + Pow17(rank(entry.node))
    ensures |RunRows(Deliveries(env, s, events), entry.run)| <= 1 + MAX_FAN_OUT_WIDTH * |events|
  {
    hide Total, Pow17, OnceEach, RetryKeys, Bijective, Ranked;
    DeliveriesBounded(env, s, events, entry.run, rank, top);
    SubsetSize(RunRows(s, entry.run), {entry});
    LaunchMeasure(env.pipeline, s, entry, rank, top);
  }

  lemma LaunchMeasure(p: Pipeline, s: State, entry: RowKey, rank: string -> nat, top: nat)
    requires forall k | k in s.rows && k.run == entry.run :: k == entry
    ensures Measure(p, s, {}, entry.run, rank, top) <= |RetryKeys(p, entry.run)| * Pow17(top) + Pow17(rank(entry.node))
  {
    hide Total, Pow17, RetryKeys;
    TotalOfNone(rank);
    var keys, open := RetryKeys(p, entry.run), Open(s, {}, entry.run);
    FewerRetries(keys, {}, s.rows.Keys, top);
    assert keys - {} == keys;
    TotalSubset(rank, open, {entry});
    TotalWithout(rank, {entry}, entry);
    assert {entry} - {entry} == {};
  }
}

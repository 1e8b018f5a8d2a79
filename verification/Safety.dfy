/** On a validated pipeline with safe ids and bounded fan-out, no step goes wrong. */
module Safety {
  import opened Basics
  import opened Values
  import opened Guard
  import opened Pipelines
  import opened EdgeSelector
  import opened Keys
  import opened RunState
  import opened Advance

  /** What validation does not check: ids a key accepts, and the fan-out cap. */
  ghost predicate Deployable(p: Pipeline) {
    && ValidPipeline(p)
    && (forall n | n in p.nodes :: SafeId(n.id))
    && (forall n | n in p.nodes && n.shape == FAN_OUT :: |OutEdges(p.edges, n.id)| <= MAX_FAN_OUT_WIDTH)
  }

  lemma SelectsSafely(p: Pipeline, source: string, ctx: Data, h: Hints)
    requires ValidPipeline(p)
    ensures
      match Select(OutEdges(p.edges, source), ctx, h)
      case Raised => false
      case Ok(None) => true
      case Ok(Some(edge)) => edge in p.edges && edge.source == source && Lookup(p.nodes, edge.target).Some?
  {
    SelectOptimal(OutEdges(p.edges, source), ctx, h);
    forall e | e in OutEdges(p.edges, source)
      ensures !Malformed(e)
    {
      assert e in p.edges;
    }
  }

  lemma {:induction false} BranchesSafe(t: Turn, edges: seq<Edge>)
    requires SafeId(t.key.run) && forall n | n in t.env.pipeline.nodes :: SafeId(n.id)
    ensures Branches(t, edges).1
    decreases |edges|
  {
    hide Unit, SafeId;
    if edges != [] {
      BranchesSafe(t, edges[..|edges| - 1]);
    }
  }

  /** A tool's edge leads to a node that is not a TOOL. */
  lemma ToolNeverToTool(p: Pipeline, tool: Node, ctx: Data)
    requires ValidPipeline(p) && tool in p.nodes && tool.shape == TOOL
    ensures
      var selected := Select(OutEdges(p.edges, tool.id), ctx, Hints(None, []));
      selected.Ok? && (selected.value.Some? ==>
        Lookup(p.nodes, selected.value.value.target).Some?
        && Lookup(p.nodes, selected.value.value.target).value.shape != TOOL)
  {
    SelectsSafely(p, tool.id, ctx, Hints(None, []));
    assert NoToolToTool(p);
  }

  lemma EnterSafe(t: Turn, next: Node, rows: Rows)
    requires SafeId(t.key.run) && Deployable(t.env.pipeline) && next in t.env.pipeline.nodes
    ensures EnterTail(t, next, rows).exit !in {Errored, GateBlocked, GateRetried, FannedOut}
  {
    hide Deployable, ValidPipeline, Unit, SafeId, AllDone, FanInContext, NextAttempt, ToolTail, KeyText;
    SafeNodes(t.env.pipeline);
    match next.shape
    case HUMAN =>
    case FAN_IN =>
    case TOOL => ToolSafe(t, next);
    case EXIT =>
    case _ =>
  }

  lemma SafeNodes(p: Pipeline)
    requires Deployable(p)
    ensures forall n | n in p.nodes :: SafeId(n.id)
    ensures ValidPipeline(p)
  {
  }

  lemma ToolSafe(t: Turn, tool: Node)
    requires SafeId(t.key.run) && Deployable(t.env.pipeline) && tool in t.env.pipeline.nodes && tool.shape == TOOL
    ensures ToolTail(t, tool).exit in {ToolDeadEnd, ToolFinished, ToolForwarded, ToolStalled}
  {
    hide Deployable, ValidPipeline, Unit, SafeId, Select;
    SafeNodes(t.env.pipeline);
    SelectsSafely(t.env.pipeline, tool.id, ToolContext(t, tool), Hints(None, []));
  }

  /** No exception; a failed gate is blocked or retried and never reaches edge
      selection (unless the gate is itself a FAN_OUT, which fans out first). */
  lemma TailSafe(t: Turn, rows: Rows)
    requires SafeId(t.key.run) && Deployable(t.env.pipeline)
    requires t.passed || t.isGate
    requires t.isGate ==>
      Lookup(t.env.pipeline.nodes, t.key.node).Some? && Lookup(t.env.pipeline.nodes, t.key.node).value.goalGate.Some?
    ensures TailOf(t, rows).exit != Errored
    ensures !t.passed ==> TailOf(t, rows).exit in {FannedOut, GateBlocked, GateRetried}
    ensures t.passed ==> TailOf(t, rows).exit !in {GateBlocked, GateRetried}
  {
    hide Deployable, RouteTail, GateTail, Unit, SafeId, Branches;
    var p := t.env.pipeline;
    var node := Lookup(p.nodes, t.key.node);
    SafeNodes(p);
    if node.Some? && node.value.shape == FAN_OUT {
      FanOutFits(p, node.value);
      BranchesSafe(t, OutEdges(p.edges, t.key.node));
    } else if !t.passed {
      GateSafe(t, node.value.goalGate.value, rows);
    } else {
      RouteSafe(t, rows);
    }
  }

  lemma FanOutFits(p: Pipeline, n: Node)
    requires Deployable(p) && n in p.nodes && n.shape == FAN_OUT
    ensures |OutEdges(p.edges, n.id)| <= MAX_FAN_OUT_WIDTH
  {
  }

  lemma GateSafe(t: Turn, gate: GoalGatePolicy, rows: Rows)
    requires SafeId(t.key.run) && Deployable(t.env.pipeline)
    requires Lookup(t.env.pipeline.nodes, t.key.node).Some?
    requires Lookup(t.env.pipeline.nodes, t.key.node).value.goalGate == Some(gate)
    ensures GateTail(t, gate, rows).exit in {GateBlocked, GateRetried}
  {
    hide RouteTail, Unit, SafeId, AllReachable, Accepted;
    assert gate.retryTarget in Ids(t.env.pipeline.nodes);
  }

  lemma RouteSafe(t: Turn, rows: Rows)
    requires SafeId(t.key.run) && Deployable(t.env.pipeline)
    ensures RouteTail(t, rows).exit !in {Errored, GateBlocked, GateRetried, FannedOut}
  {
    hide Deployable, ValidPipeline, EnterTail, Select, SafeId;
    SafeNodes(t.env.pipeline);
    SelectsSafely(t.env.pipeline, t.key.node, t.run.context, HintsOf(t));
    match Select(OutEdges(t.env.pipeline.edges, t.key.node), t.run.context, HintsOf(t))
    case Ok(Some(edge)) => EnterSafe(t, Lookup(t.env.pipeline.nodes, edge.target).value, rows);
    case _ =>
  }

  /** Cards of validated pipelines are never addressed to nobody. */
  lemma CardsAddressed(p: Pipeline, k: RowKey, card: Card)
    requires ValidPipeline(p) && CardFits(p, k, card)
    ensures Lookup(p.nodes, k.node).Some?
    ensures IsWorker(Lookup(p.nodes, k.node).value.shape) ==> card.assignee != ""
    ensures card.kind == HumanCard <==> Lookup(p.nodes, k.node).value.shape == HUMAN
  {
  }
}

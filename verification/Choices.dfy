/** Where a completion leads: which edge is followed, and when a fan-in is ready,
    in terms of the metadata, the pipeline and the stored rows. */
module Choices {
  import opened Basics
  import opened Values
  import opened Pipelines
  import opened EdgeSelector
  import opened ContextMerge
  import opened Keys
  import opened RunState
  import opened Advance
  import opened Invariants
  import opened CrashReplay
  import opened GateLoop
  import opened Completions

  // ---- The hints ---------------------------------------------------------------------------

  /** A gate is routed by its verdict, another node by the label its completion
      prefers; the suggested targets are a text or the texts of a list. */
  ghost predicate HintsFit(p: Pipeline, node: string, metadata: Data, h: Hints) {
    && (Gated(p, node) ==> h.routingHint == Some(if Passing(p, node, metadata) then "pass" else "fail"))
    && (!Gated(p, node) ==> forall want ::
      h.routingHint == Some(want) <==> "preferred_label" in metadata && metadata["preferred_label"] == Str(want))
    && forall id :: id in h.suggested <==> Suggests(metadata, id)
  }

  ghost predicate Suggests(metadata: Data, id: string) {
    && "suggested_next" in metadata
    && match metadata["suggested_next"]
       case Str(text) => id == text
       case List(items) => Str(id) in items
       case _ => false
  }

  lemma {:induction false} StringsOf(items: seq<Value>)
    ensures forall id :: id in Strings(items) <==> Str(id) in items
    decreases |items|
  {
    if items != [] {
      var n := |items| - 1;
      StringsOf(items[..n]);
      assert items == items[..n] + [items[n]];
    }
  }

  lemma HintsRead(t: Turn)
    requires t.isGate <==> Gated(t.env.pipeline, t.key.node)
    requires t.passed <==> Passing(t.env.pipeline, t.key.node, t.event.metadata)
    ensures HintsFit(t.env.pipeline, t.key.node, t.event.metadata, HintsOf(t))
  {
    hide Gated, Passing;
    var m := t.event.metadata;
    if "suggested_next" in m && m["suggested_next"].List? {
      StringsOf(m["suggested_next"].items);
    }
  }

  /** The step comes to its node's edges: the node is no FAN_OUT, and it passes, or
      its gate fails with an attempt left and no node to retry. */
  ghost predicate FollowsEdges(p: Pipeline, k: RowKey, metadata: Data) {
    && (forall n | Lookup(p.nodes, k.node) == Some(n) :: n.shape != FAN_OUT)
    && (Passing(p, k.node, metadata) || exists n ::
      && Lookup(p.nodes, k.node) == Some(n) && n.goalGate.Some? && k.attempt < n.goalGate.value.maxAttempts
      && Lookup(p.nodes, n.goalGate.value.retryTarget) == None)
  }

  /** Main result on routing: such a step selects among its node's edges, on the
      context with the updates (the stored one, if an edge leads to a FAN_IN) and
      with hints that fit; `SelectByFields` says which edge that is. It raises if
      selection does, and goes no further when nothing is selected. */
  lemma FollowsSelection(env: Env, s: State, e: Event, k: RowKey)
    requires Bijective(s) && k in s.rows && e.task == s.rows[k].task
    requires FollowsEdges(env.pipeline, k, e.metadata)
    ensures k.run in s.runs && TurnAt(env, s, e).Some?
    ensures exists ctx, h ::
      && (if LeadsToFanIn(env.pipeline, k.node) then ctx == s.runs[k.run].context
          else Updated(ctx, s.runs[k.run].context, e.metadata))
      && HintsFit(env.pipeline, k.node, e.metadata, h)
      && match Select(OutEdges(env.pipeline.edges, k.node), ctx, h)
         case Raised => PlanOf(env, s, e).exit == Errored
         case Ok(None) => PlanOf(env, s, e).exit == NoEdge
         case Ok(Some(edge)) =>
           && Entered(TurnAt(env, s, e).value) == Lookup(env.pipeline.nodes, edge.target)
           && (Lookup(env.pipeline.nodes, edge.target) == None ==> PlanOf(env, s, e).exit == NoEdge)
  {
    hide Bijective, PlanOf, SafeId, Updated, LeadsToFanIn, Select, EnterTail, HintsFit, SendOne, Branches;
    TurnReads(env, s, e, k);
    var t := TurnAt(env, s, e).value;
    PlanParts(env, s, e, t);
    HintsRead(t);
    assert HintsFit(env.pipeline, k.node, e.metadata, HintsOf(t));
  }

  /** The label a step is routed by. */
  ghost predicate Wanted(p: Pipeline, node: string, metadata: Data, want: string) {
    if Gated(p, node) then want == (if Passing(p, node, metadata) then "pass" else "fail")
    else "preferred_label" in metadata && metadata["preferred_label"] == Str(want)
  }

  /** The edge followed has the wanted label, when some edge has it and none has a
      guard. */
  lemma LabelChosen(p: Pipeline, node: string, metadata: Data, ctx: Data, h: Hints, want: string)
    requires HintsFit(p, node, metadata, h) && Wanted(p, node, metadata, want)
    requires forall edge | edge in p.edges && edge.source == node :: edge.condition == None
    requires exists edge :: edge in p.edges && edge.source == node && edge.routeLabel == Some(want)
    ensures
      var selected := Select(OutEdges(p.edges, node), ctx, h);
      && selected.Ok? && selected.value.Some? && selected.value.value in p.edges
      && selected.value.value.source == node && selected.value.value.routeLabel == Some(want)
  {
    hide Select, Passing, Gated;
    SelectByFields(OutEdges(p.edges, node), ctx, h);
    var edge :| edge in p.edges && edge.source == node && edge.routeLabel == Some(want);
    assert edge in OutEdges(p.edges, node) && HasHint(edge, h);
  }

  /** So the step leads to the target of an edge with the wanted label, and an
      ordinary or HUMAN target is dispatched under its next attempt. */
  lemma LabelFollowed(env: Env, s: State, e: Event, k: RowKey, want: string)
    requires Bijective(s) && k in s.rows && e.task == s.rows[k].task
    requires FollowsEdges(env.pipeline, k, e.metadata) && Wanted(env.pipeline, k.node, e.metadata, want)
    requires forall edge | edge in env.pipeline.edges && edge.source == k.node :: edge.condition == None
    requires exists edge :: edge in env.pipeline.edges && edge.source == k.node && edge.routeLabel == Some(want)
    ensures exists edge ::
      && edge in env.pipeline.edges && edge.source == k.node && edge.routeLabel == Some(want)
      && forall n | Lookup(env.pipeline.nodes, edge.target) == Some(n) && SafeId(n.id)
          && n.shape in {START, CODERGEN, CONDITIONAL, FAN_OUT, HUMAN} ::
        var j := RowKey(k.run, n.id, |AttemptsOf(s.rows, k.run, n.id)| + 1);
        j in Step(env, s, e).rows && Step(env, s, e).rows[j].status == Dispatched
  {
    hide Bijective, PlanOf, SafeId, Updated, LeadsToFanIn, Select, Step, HintsFit, Entered, Passing, Gated, Wanted;
    TurnReads(env, s, e, k);
    FollowsSelection(env, s, e, k);
    var ctx, h :| HintsFit(env.pipeline, k.node, e.metadata, h)
      && match Select(OutEdges(env.pipeline.edges, k.node), ctx, h)
         case Ok(Some(edge)) => Entered(TurnAt(env, s, e).value) == Lookup(env.pipeline.nodes, edge.target)
         case _ => true;
    LabelChosen(env.pipeline, k.node, e.metadata, ctx, h, want);
    var edge := Select(OutEdges(env.pipeline.edges, k.node), ctx, h).value.value;
    if Lookup(env.pipeline.nodes, edge.target).Some? {
      var n := Lookup(env.pipeline.nodes, edge.target).value;
      if SafeId(n.id) && n.shape in {START, CODERGEN, CONDITIONAL, FAN_OUT, HUMAN} {
        CountedStep(env, s, e, k, n);
      }
    }
  }

  lemma CountedStep(env: Env, s: State, e: Event, k: RowKey, n: Node)
    requires Bijective(s) && k in s.rows && TurnAt(env, s, e).Some? && TurnAt(env, s, e).value.key == k
    requires Entered(TurnAt(env, s, e).value) == Some(n) && Counted(n) && SafeId(n.id) && SafeId(k.run)
    ensures
      var j := RowKey(k.run, n.id, |AttemptsOf(s.rows, k.run, n.id)| + 1);
      j in Step(env, s, e).rows && Step(env, s, e).rows[j].status == Dispatched
  {
    hide Bijective, PlanOf, SafeId, Step, Entered, TailOf, CountedTail, EnterTail, KeyText, EffectOf;
    var t := TurnAt(env, s, e).value;
    var rows := MarkedRows(t, s.rows);
    PlanParts(env, s, e, t);
    TailEnters(t, rows, rows);
    CountedEnters(t, n, rows);
    KeysDecideAttempts(rows, s.rows, k.run, n.id);
    CountedAdds(t, n, NextAttempt(t, n, rows));
    StepStores(env, s, e, t);
    CountedRow(t, n, NextAttempt(t, n, rows));
  }

  lemma CountedRow(t: Turn, n: Node, attempt: nat)
    requires SafeId(t.key.run) && SafeId(n.id)
    ensures
      var j := RowKey(t.key.run, n.id, attempt);
      && EffectOf(CountedTail(t, n, attempt).dispatch).rows == map[j := DispatchedRow(j, {t.key.node}, n.goalGate)]
      && EffectOf(CountedTail(t, n, attempt).dispatch).blocked == (if n.shape == HUMAN then {TaskOf(j)} else {})
  {
    hide SafeId, KeyText, EffectOf, CardFor;
    var j := RowKey(t.key.run, n.id, attempt);
    var more := if n.shape == HUMAN then [Block(TaskOf(j))] else [];
    var card := CardFor(t.env.pipeline, n, t.run.context, [t.event.task]);
    UnitEffect(j, DispatchedRow(j, {t.key.node}, n.goalGate), card, more, 2 + |more|);
    var ws := [Create(KeyText(j), card), Upsert(j, DispatchedRow(j, {t.key.node}, n.goalGate))] + more;
    assert ws[..2 + |more|] == ws == CountedTail(t, n, attempt).dispatch;
  }

  // ---- The pause -------------------------------------------------------------------------------------

  ghost predicate NoBlocks(ws: seq<Write>) {
    forall w | w in ws :: !w.Block?
  }

  lemma {:induction false} NothingBlocked(ws: seq<Write>)
    requires NoBlocks(ws)
    ensures EffectOf(ws).blocked == {}
    decreases |ws|
  {
    if ws != [] {
      var n := |ws| - 1;
      assert ws[n] in ws;
      NothingBlocked(ws[..n]);
    }
  }

  lemma {:induction false} BranchesBlockNothing(t: Turn, edges: seq<Edge>)
    ensures NoBlocks(Branches(t, edges).0)
    decreases |edges|
  {
    hide KeyText, CardFor;
    if edges != [] {
      BranchesBlockNothing(t, edges[..|edges| - 1]);
    }
  }

  lemma ToolBlocksNothing(t: Turn, tool: Node)
    ensures NoBlocks(ToolTail(t, tool).dispatch) && ToolTail(t, tool).exit != HumanPaused
  {
    hide Select, ToolContext, KeyText, CardFor, SafeId;
  }

  lemma EnterBlocks(t: Turn, next: Node, rows: Rows)
    ensures next.shape == HUMAN || (NoBlocks(EnterTail(t, next, rows).dispatch)
                                    && EnterTail(t, next, rows).exit != HumanPaused)
  {
    hide ToolTail, KeyText, CardFor, AllDone, FanInContext, SafeId;
    if next.shape == TOOL {
      ToolBlocksNothing(t, next);
    }
  }

  lemma UnenteredBlocks(t: Turn, rows: Rows)
    requires Entered(t) == None
    ensures NoBlocks(TailOf(t, rows).dispatch) && TailOf(t, rows).exit != HumanPaused
  {
    hide EnterTail, Select, KeyText, CardFor, Branches, SafeId;
    BranchesBlockNothing(t, OutEdges(t.env.pipeline.edges, t.key.node));
  }

  /** Only the card of a HUMAN node that a step dispatches is blocked. */
  lemma HumanIsBlocked(env: Env, s: State, e: Event, k: RowKey)
    requires Bijective(s) && k in s.rows && e.task == s.rows[k].task && PlanOf(env, s, e).exit != Errored
    ensures
      var after := Step(env, s, e);
      if PlanOf(env, s, e).exit == HumanPaused then
        exists j: RowKey, n: Node ::
          && j.run == k.run && Lookup(env.pipeline.nodes, j.node) == Some(n) && n.shape == HUMAN
          && j in after.rows && after.rows[j].status == Dispatched && after.blocked == s.blocked + {TaskOf(j)}
      else after.blocked == s.blocked
  {
    hide Bijective, PlanOf, SafeId, Step, Entered, TailOf, CountedTail, EnterTail, KeyText, EffectOf, NoBlocks;
    hide Gated, Passing, Updated, LeadsToFanIn;
    TurnReads(env, s, e, k);
    var t := TurnAt(env, s, e).value;
    var rows := MarkedRows(t, s.rows);
    PlanParts(env, s, e, t);
    StepStores(env, s, e, t);
    if Entered(t).Some? && Entered(t).value.shape == HUMAN {
      var n := Entered(t).value;
      TailEnters(t, rows, rows);
      CountedEnters(t, n, rows);
      EnteredIs(t);
      CountedSafe(t, n, NextAttempt(t, n, rows));
      CountedRow(t, n, NextAttempt(t, n, rows));
    } else {
      if Entered(t).Some? {
        TailEnters(t, rows, rows);
        EnterBlocks(t, Entered(t).value, rows);
      } else {
        UnenteredBlocks(t, rows);
      }
      NothingBlocked(TailOf(t, rows).dispatch);
    }
  }

  lemma CountedSafe(t: Turn, n: Node, attempt: nat)
    requires CountedTail(t, n, attempt).exit != Errored
    ensures SafeId(n.id) && (n.shape == HUMAN ==> CountedTail(t, n, attempt).exit == HumanPaused)
  {
    hide SafeId, KeyText, CardFor;
  }

  // ---- The fan-in ---------------------------------------------------------------------------------

  /** `j` is the latest attempt of its node, and done. */
  ghost predicate LatestDone(rows: Rows, j: RowKey) {
    && j in rows && rows[j].status in {NodeSucceeded, Partial}
    && forall a: nat | RowKey(j.run, j.node, a) in rows :: a <= j.attempt
  }

  /** The nodes with an edge to the fan-in, in order, and the updates that each
      one's latest attempt reported. */
  ghost predicate BranchesOf(p: Pipeline, rows: Rows, run: string, fan: string, names: seq<string>,
                             branches: seq<Data>)
  {
    && NamesOf(p, fan, names) && |branches| == |names|
    && forall i | 0 <= i < |names| :: BranchOf(rows, run, names[i], branches[i])
  }

  ghost predicate NamesOf(p: Pipeline, fan: string, names: seq<string>) {
    Ascending(names) && forall n :: n in names <==> exists e :: e in p.edges && e.target == fan && e.source == n
  }

  ghost predicate BranchOf(rows: Rows, run: string, node: string, updates: Data) {
    exists a: nat :: LatestDone(rows, RowKey(run, node, a)) && updates == rows[RowKey(run, node, a)].updates
  }

  lemma LatestIsDone(rows: Rows, run: string, node: string)
    ensures IsDone(rows, LatestKey(rows, run, node)) <==> exists a: nat :: LatestDone(rows, RowKey(run, node, a))
    ensures forall a: nat | LatestDone(rows, RowKey(run, node, a)) :: LatestKey(rows, run, node) == RowKey(run, node, a)
  {
    var top := LatestKey(rows, run, node);
    forall a: nat | RowKey(run, node, a) in rows
      ensures a in AttemptsOf(rows, run, node)
    {
    }
    if IsDone(rows, top) {
      assert LatestDone(rows, RowKey(run, node, top.attempt));
    }
  }

  lemma {:induction false} UpdatesInOrder(rows: Rows, run: string, names: seq<string>)
    requires forall n | n in names :: IsDone(rows, LatestKey(rows, run, n))
    ensures |UpdatesOf(rows, run, names)| == |names|
    ensures forall i | 0 <= i < |names| ::
      LatestKey(rows, run, names[i]) in rows
      && UpdatesOf(rows, run, names)[i] == rows[LatestKey(rows, run, names[i])].updates
    decreases |names|
  {
    hide LatestKey;
    if names != [] {
      UpdatesInOrder(rows, run, names[..|names| - 1]);
    }
  }

  /** Main result on fan-ins: a step that leads to one waits, moving the cursor and
      nothing else of the run, or fires; it fires iff every node with an edge to the
      fan-in has its latest attempt done, the completed row being marked; and what
      it then saves is the stored context merged with those nodes' updates. */
  lemma FanInExactly(env: Env, s: State, e: Event, k: RowKey, fan: Node, row: Row)
    requires Bijective(s) && k in s.rows && e.task == s.rows[k].task && MarkedAs(env.pipeline, k, e, s.rows[k], row)
    requires TurnAt(env, s, e).Some? && Entered(TurnAt(env, s, e).value) == Some(fan) && fan.shape == FAN_IN
    requires PlanOf(env, s, e).exit != Errored
    ensures k.run in s.runs && k.run in Step(env, s, e).runs
    ensures PlanOf(env, s, e).exit in {FanInWaiting, FanInFired}
    ensures
      var rows := s.rows[k := row];
      PlanOf(env, s, e).exit == FanInFired <==>
        forall edge | edge in env.pipeline.edges && edge.target == fan.id ::
          exists a: nat :: LatestDone(rows, RowKey(k.run, edge.source, a))
    ensures
      var rows, before, after := s.rows[k := row], s.runs[k.run], Step(env, s, e).runs[k.run];
      if PlanOf(env, s, e).exit == FanInWaiting then after == before.(cursor := e.id)
      else exists names, branches ::
        && BranchesOf(env.pipeline, rows, k.run, fan.id, names, branches)
        && after.context == Merged(before.context, branches)
  {
    hide Bijective, PlanOf, SafeId, Step, Entered, TailOf, FanInTail, EnterTail, MarkedAs, Merged, BranchesOf;
    hide LatestDone, Passing, Gated, LeadsToFanIn, Updated, KeyText;
    TurnReads(env, s, e, k);
    var t := TurnAt(env, s, e).value;
    var rows := s.rows[k := row];
    MarkIs(env, s, e, k, t, row);
    EntersFanIn(t, fan);
    TailEnters(t, rows, rows);
    StepStores(env, s, e, t);
    FanInFires(t, fan, rows);
    ReadyExactly(env.pipeline, rows, k.run, fan.id);
    if AllDone(rows, k.run, Predecessors(env.pipeline.edges, fan.id)) {
      GathersBranches(env.pipeline, rows, k.run, fan.id);
    }
  }

  lemma MarkIs(env: Env, s: State, e: Event, k: RowKey, t: Turn, row: Row)
    requires Bijective(s) && k in s.rows && e.task == s.rows[k].task && TurnAt(env, s, e) == Some(t)
    requires MarkedAs(env.pipeline, k, e, s.rows[k], row)
    ensures t.key == k && MarkedRows(t, s.rows) == s.rows[k := row]
  {
    hide Bijective, SafeId, Passing, Gated, LeadsToFanIn, Updated, KeyText, Lookup;
    TurnReads(env, s, e, k);
    UpdatesReported(e.metadata);
    assert forall key, v :: Reports(e.metadata, key, v) <==> key in row.updates && row.updates[key] == v;
    forall key
      ensures key in row.updates <==> key in ContextUpdates(e.metadata)
      ensures key in row.updates ==> row.updates[key] == ContextUpdates(e.metadata)[key]
    {
      if key in row.updates {
        assert Reports(e.metadata, key, row.updates[key]);
      }
      if key in ContextUpdates(e.metadata) {
        assert Reports(e.metadata, key, ContextUpdates(e.metadata)[key]);
      }
    }
    assert row.updates == ContextUpdates(e.metadata);
  }

  lemma EntersFanIn(t: Turn, fan: Node)
    requires Entered(t) == Some(fan) && fan.shape == FAN_IN
    ensures LeadsToFanIn(t.env.pipeline, t.key.node)
  {
    hide Select;
    SelectOptimal(OutEdges(t.env.pipeline.edges, t.key.node), t.run.context, HintsOf(t));
  }

  lemma ReadyExactly(p: Pipeline, rows: Rows, run: string, fan: string)
    ensures AllDone(rows, run, Predecessors(p.edges, fan)) <==>
      forall edge | edge in p.edges && edge.target == fan ::
        exists a: nat :: LatestDone(rows, RowKey(run, edge.source, a))
  {
    hide IsDone, LatestKey, LatestDone;
    var preds := Predecessors(p.edges, fan);
    assert forall edge | edge in p.edges && edge.target == fan :: edge.source in preds;
    forall n
      ensures IsDone(rows, LatestKey(rows, run, n)) <==> exists a: nat :: LatestDone(rows, RowKey(run, n, a))
    {
      LatestIsDone(rows, run, n);
    }
  }

  lemma GathersBranches(p: Pipeline, rows: Rows, run: string, fan: string)
    requires AllDone(rows, run, Predecessors(p.edges, fan))
    ensures
      var names := Sorted(Predecessors(p.edges, fan));
      BranchesOf(p, rows, run, fan, names, UpdatesOf(rows, run, names))
  {
    hide IsDone, LatestKey, BranchOf, UpdatesOf, Predecessors, NamesOf, Ascending;
    var names := Sorted(Predecessors(p.edges, fan));
    SortedNames(p, fan);
    UpdatesInOrder(rows, run, names);
    forall i | 0 <= i < |names|
      ensures BranchOf(rows, run, names[i], UpdatesOf(rows, run, names)[i])
    {
      assert names[i] in names;
      DoneLatest(rows, run, names[i]);
    }
  }

  lemma SortedNames(p: Pipeline, fan: string)
    ensures NamesOf(p, fan, Sorted(Predecessors(p.edges, fan)))
  {
    hide Ascending;
    forall n
      ensures n in Predecessors(p.edges, fan) <==> exists e :: e in p.edges && e.target == fan && e.source == n
    {
    }
  }

  lemma DoneLatest(rows: Rows, run: string, node: string)
    requires IsDone(rows, LatestKey(rows, run, node))
    ensures BranchOf(rows, run, node, rows[LatestKey(rows, run, node)].updates)
  {
    hide LatestKey, LatestDone;
    LatestIsDone(rows, run, node);
    var a: nat :| LatestDone(rows, RowKey(run, node, a));
    assert rows[RowKey(run, node, a)].updates == rows[LatestKey(rows, run, node)].updates;
  }

  lemma FanInFires(t: Turn, fan: Node, rows: Rows)
    requires Entered(t) == Some(fan) && fan.shape == FAN_IN && EnterTail(t, fan, rows).exit != Errored
    ensures
      var tail, names := EnterTail(t, fan, rows), Sorted(Predecessors(t.env.pipeline.edges, fan.id));
      && tail.saved.Some?
      && if AllDone(rows, t.key.run, Predecessors(t.env.pipeline.edges, fan.id)) then
           tail.exit == FanInFired
           && tail.saved.value.context == Merged(t.run.context, UpdatesOf(rows, t.key.run, names))
         else tail.exit == FanInWaiting && tail.saved.value == t.before.(cursor := t.event.id)
  {
    hide Entered, Merged, AllDone, Unit, ForNode, UpdatesOf;
  }
}

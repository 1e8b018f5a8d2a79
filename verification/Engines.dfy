/** `advance_on_completion` over the run store and the board. The journal lists
    the writes in the order they reach the two stores. */
module Engines {
  import opened Basics
  import opened Values
  import opened Pipelines
  import opened EdgeSelector
  import opened ContextMerge
  import opened Keys
  import opened RunState
  import opened Advance

  class Engine {
    const store: RunStateStore
    const board: KanbanBoard
    ghost const origin: State
    ghost var journal: seq<Write>

    ghost function Now(): State
      reads this, store, board
    {
      State(store.runs, store.rows, board.cards, board.blocked)
    }

    /** The stores hold exactly what the journal wrote. */
    ghost predicate Valid()
      reads this, store, board
    {
      Now() == ApplyAll(origin, journal)
    }

    /** What happened since `old`: these writes, in this order. */
    twostate predicate Wrote(ws: seq<Write>)
      reads this, store, board
    {
      Valid() && journal == old(journal) + ws
    }

    constructor (store: RunStateStore, board: KanbanBoard)
      ensures Valid() && journal == [] && this.store == store && this.board == board
    {
      this.store, this.board := store, board;
      origin := State(store.runs, store.rows, board.cards, board.blocked);
      journal := [];
    }

    lemma JournalGrew(before: seq<Write>, w: Write)
      requires journal == before + [w]
      ensures ApplyAll(origin, journal) == Apply(ApplyAll(origin, before), w)
    {
      assert journal[..|journal| - 1] == before;
    }

    method Upsert(key: RowKey, row: Row)
      requires Valid()
      modifies this, store
      ensures Wrote([Write.Upsert(key, row)])
      ensures store.rows == old(store.rows)[key := row] && store.runs == old(store.runs)
    {
      store.UpsertNode(key, row);
      journal := journal + [Write.Upsert(key, row)];
      JournalGrew(old(journal), Write.Upsert(key, row));
    }

    method Save(runId: string, run: Run)
      requires Valid()
      modifies this, store
      ensures Wrote([Write.Save(runId, run)])
    {
      store.SaveRun(runId, run);
      journal := journal + [Write.Save(runId, run)];
      JournalGrew(old(journal), Write.Save(runId, run));
    }

    method Insert(runId: string, run: Run) returns (created: bool)
      requires Valid()
      modifies this, store
      ensures created == (runId !in old(store.runs))
      ensures Wrote(if created then [Write.Insert(runId, run)] else [])
    {
      created := store.CreateRun(runId, run);
      if !created {
        return;
      }
      journal := journal + [Write.Insert(runId, run)];
      JournalGrew(old(journal), Write.Insert(runId, run));
    }

    method Create(text: string, card: Card) returns (task: TaskId)
      requires Valid()
      modifies this, board
      ensures Wrote([Write.Create(text, card)]) && task == TaskId(text)
    {
      task := board.CreateCard(text, card);
      journal := journal + [Write.Create(text, card)];
      JournalGrew(old(journal), Write.Create(text, card));
    }

    method Block(task: TaskId)
      requires Valid()
      modifies this, board
      ensures Wrote([Write.Block(task)])
    {
      board.BlockCard(task);
      journal := journal + [Write.Block(task)];
      JournalGrew(old(journal), Write.Block(task));
    }

    /** Build the key, create the card, record its row; None when the key is
        refused, before anything is written. */
    method Dispatch(p: Pipeline, node: Node, key: RowKey, ctx: Data, tasks: seq<TaskId>,
                    parents: set<string>, gate: Option<GoalGatePolicy>) returns (task: Option<TaskId>)
      requires Valid()
      modifies this, store, board
      ensures task == if ForNode(key) == Raised then None else Some(TaskOf(key))
      ensures Wrote(if task == None then [] else Unit(p, node, key, ctx, tasks, parents, gate))
    {
      hide Valid, KeyText, SafeId, ProfileOf;
      var profile := ResolveProfile(p, node);
      var assignee := if profile.Some? then profile.value else "";
      var text := ForNode(key);
      if text == Raised {
        return None;
      }
      var card := Card(assignee, PromptOf(node), ctx, tasks, node.retryLimit, KindFor(node.shape));
      var id := Create(text.value, card);
      Upsert(key, Row(id, Dispatched, parents, gate, Option.None, map[]));
      assert journal == old(journal) +
        ([Write.Create(text.value, card)] + [Write.Upsert(key, DispatchedRow(key, parents, gate))]);
      return Some(id);
    }

    /** Dispatch one card of the turn's run and save, cursor last. */
    method Send(t: Turn, node: Node, attempt: nat, ctx: Data, parents: set<string>,
                gate: Option<GoalGatePolicy>, blocked: bool, saved: Run, exit: Exit) returns (result: Exit)
      requires Valid()
      modifies this, store, board
      ensures
        var more := if blocked then [Write.Block(TaskOf(RowKey(t.key.run, node.id, attempt)))] else [];
        Performed(t, SendOne(t, node, attempt, ctx, parents, gate, more, saved, exit), result)
    {
      var key := RowKey(t.key.run, node.id, attempt);
      ghost var unit := Unit(t.env.pipeline, node, key, ctx, [t.event.task], parents, gate);
      ghost var more := if blocked then [Write.Block(TaskOf(key))] else [];
      var task := Dispatch(t.env.pipeline, node, key, ctx, [t.event.task], parents, gate);
      if task == None {
        return Errored;
      }
      assert journal == old(journal) + unit;
      if blocked {
        Block(task.value);
      }
      assert journal == old(journal) + (unit + more);
      Save(t.key.run, saved);
      assert journal == old(journal) + (unit + more + [Write.Save(t.key.run, saved)]);
      return exit;
    }

    /** The writes of a tail, and its exit. */
    twostate predicate Performed(t: Turn, tail: Tail, exit: Exit)
      reads this, store, board
    {
      Wrote(tail.dispatch + Saves(t.key.run, tail.saved)) && exit == tail.exit
    }

    method SaveOnly(t: Turn, saved: Run, exit: Exit) returns (result: Exit)
      requires Valid()
      modifies this, store
      ensures Performed(t, Tail([], Some(saved), exit), result)
    {
      Save(t.key.run, saved);
      return exit;
    }

    method FanOut(t: Turn) returns (exit: Exit)
      requires Valid()
      modifies this, store, board
      ensures Performed(t, FanOutTail(t), exit)
    {
      hide Valid, Branches;
      var edges := OutEdges(t.env.pipeline.edges, t.key.node);
      if |edges| > MAX_FAN_OUT_WIDTH {
        return Errored;
      }
      var ok := SendBranches(t, edges);
      if !ok {
        return Errored;
      }
      Save(t.key.run, t.run.(cursor := t.event.id));
      return FannedOut;
    }

    /** One card per edge, until one raises. */
    method SendBranches(t: Turn, edges: seq<Edge>) returns (ok: bool)
      requires Valid()
      modifies this, store, board
      ensures Wrote(Branches(t, edges).0) && ok == Branches(t, edges).1
    {
      hide Valid, Branch;
      for i := 0 to |edges|
        invariant Branches(t, edges[..i]).1
        invariant Wrote(Branches(t, edges[..i]).0)
      {
        assert edges[..i + 1][..i] == edges[..i];
        ok := SendBranch(t, edges[i]);
        if !ok {
          BranchesStuck(t, edges, i + 1);
          return;
        }
      }
      assert edges[..|edges|] == edges;
      return true;
    }

    method SendBranch(t: Turn, edge: Edge) returns (ok: bool)
      requires Valid()
      modifies this, store, board
      ensures Wrote(Branch(t, edge).0) && ok == Branch(t, edge).1
    {
      var branch := Lookup(t.env.pipeline.nodes, edge.target);
      if branch == None {
        return true;
      }
      var key := RowKey(t.key.run, branch.value.id, 1);
      var task := Dispatch(t.env.pipeline, branch.value, key, t.run.context, [t.event.task], {t.key.node},
        branch.value.goalGate);
      return task != None;
    }

    lemma {:induction false} BranchesStuck(t: Turn, edges: seq<Edge>, i: nat)
      requires i <= |edges| && !Branches(t, edges[..i]).1
      ensures Branches(t, edges) == Branches(t, edges[..i])
      decreases |edges|
    {
      if i == |edges| {
        assert edges[..i] == edges;
      } else {
        assert edges[..|edges| - 1][..i] == edges[..i];
        BranchesStuck(t, edges[..|edges| - 1], i);
      }
    }

    method Gate(t: Turn, gate: GoalGatePolicy) returns (exit: Exit)
      requires Valid()
      modifies this, store, board
      ensures Performed(t, GateTail(t, gate, old(store.rows)), exit)
    {
      hide Valid, SendOne, RouteTail;
      var next := t.key.attempt + 1;
      if next > gate.maxAttempts {
        exit := SaveOnly(t, t.run.(status := BLOCKED, cursor := t.event.id), GateBlocked);
        return;
      }
      var target := Lookup(t.env.pipeline.nodes, gate.retryTarget);
      if target.Some? {
        exit := Send(t, target.value, next, t.run.context, {t.key.node}, None, false, t.run.(cursor := t.event.id),
          GateRetried);
        return;
      }
      exit := Route(t);
    }

    method Route(t: Turn) returns (exit: Exit)
      requires Valid()
      modifies this, store, board
      ensures Performed(t, RouteTail(t, old(store.rows)), exit)
    {
      hide Valid, Select, EnterTail;
      var selected := Select(OutEdges(t.env.pipeline.edges, t.key.node), t.run.context, HintsOf(t));
      if selected == Raised {
        return Errored;
      }
      if selected.value.Some? {
        var next := Lookup(t.env.pipeline.nodes, selected.value.value.target);
        if next.Some? {
          exit := Enter(t, next.value);
          return;
        }
      }
      exit := SaveOnly(t, Resumed(t, t.run), NoEdge);
    }

    method Enter(t: Turn, next: Node) returns (exit: Exit)
      requires Valid()
      modifies this, store, board
      ensures Performed(t, EnterTail(t, next, old(store.rows)), exit)
    {
      hide Valid, SendOne, FanInTail, ToolTail;
      match next.shape {
        case HUMAN =>
          var attempt := CountAttempts(t.key.run, next.id);
          exit := Send(t, next, attempt + 1, t.run.context, {t.key.node}, next.goalGate, true,
            t.run.(status := PAUSED_HUMAN, cursor := t.event.id), HumanPaused);
        case FAN_IN =>
          exit := FanIn(t, next);
        case TOOL =>
          exit := RunTool(t, next);
        case EXIT =>
          exit := SaveOnly(t, t.run.(status := SUCCEEDED, cursor := t.event.id), Finished);
        case _ =>
          var attempt := CountAttempts(t.key.run, next.id);
          exit := Send(t, next, attempt + 1, t.run.context, {t.key.node}, next.goalGate, false, Resumed(t, t.run),
            Forwarded);
      }
    }

    method FanIn(t: Turn, next: Node) returns (exit: Exit)
      requires Valid()
      modifies this, store, board
      ensures Performed(t, FanInTail(t, next, old(store.rows)), exit)
    {
      var preds := Predecessors(t.env.pipeline.edges, next.id);
      var ready, branches := GatherBranches(t.key.run, preds);
      if !ready {
        exit := SaveOnly(t, t.before.(cursor := t.event.id), FanInWaiting);
        return;
      }
      var merged := Merge(t.run.context, branches);
      var run := t.run.(context := merged);
      exit := Send(t, next, 1, merged, preds, next.goalGate, false, Resumed(t, run), FanInFired);
    }

    /** Whether every predecessor's latest row is done, and then their updates
        in node order. */
    method GatherBranches(run: string, preds: set<string>) returns (ready: bool, branches: seq<Data>)
      ensures ready <==> AllDone(store.rows, run, preds)
      ensures ready ==> branches == UpdatesOf(store.rows, run, Sorted(preds))
    {
      hide ListsRun, LatestAmong, LatestKey, Sorted, UpdatesOf;
      var nodes := store.NodesForRun(run);
      var order, latest := LatestPerPredecessor(nodes, preds, store.rows, run);
      LatestCovers(order, latest, preds, store.rows, run);
      ready := |latest| == |preds| && forall p | p in latest :: IsDone(store.rows, latest[p].key);
      branches := UpdatesInOrder(order, latest, store.rows, run);
    }

    method UpdatesInOrder(order: seq<string>, latest: map<string, RunNode>, ghost rows: Rows, ghost run: string)
      returns (branches: seq<Data>)
      requires forall p | p in order :: p in latest
      requires forall p | p in latest ::
        latest[p].key == LatestKey(rows, run, p) && latest[p].key in rows && latest[p].row == rows[latest[p].key]
      ensures branches == UpdatesOf(rows, run, order)
    {
      branches := [];
      for i := 0 to |order|
        invariant branches == UpdatesOf(rows, run, order[..i])
      {
        assert order[..i + 1][..i] == order[..i];
        assert order[i] in order;
        branches := branches + [latest[order[i]].row.updates];
      }
      assert order[..|order|] == order;
    }

    method RunTool(t: Turn, tool: Node) returns (exit: Exit)
      requires Valid()
      modifies this, store, board
      ensures Performed(t, ToolTail(t, tool), exit)
    {
      hide Valid, Select, SendOne, ToolContext;
      var run := t.run.(context := ToolContext(t, tool));
      var saved := run.(cursor := t.event.id);
      var selected := Select(OutEdges(t.env.pipeline.edges, tool.id), run.context, Hints(None, []));
      if selected == Raised {
        return Errored;
      }
      if selected.value == None {
        exit := SaveOnly(t, saved, ToolDeadEnd);
        return;
      }
      var next := Lookup(t.env.pipeline.nodes, selected.value.value.target);
      if next.Some? && next.value.shape == EXIT {
        exit := SaveOnly(t, saved.(status := SUCCEEDED), ToolFinished);
      } else if next.Some? && next.value.shape !in {EXIT, TOOL, HUMAN, FAN_IN} {
        exit := Send(t, next.value, 1, run.context, {tool.id}, next.value.goalGate, false, saved, ToolForwarded);
      } else {
        exit := SaveOnly(t, saved, ToolStalled);
      }
    }

    method CountAttempts(run: string, node: string) returns (count: nat)
      ensures count == |AttemptsOf(store.rows, run, node)|
    {
      hide ListsRun, AttemptsOf;
      var nodes := store.NodesForRun(run);
      count := 0;
      ghost var seen: set<nat> := {};
      for i := 0 to |nodes|
        invariant seen == set n | n in nodes[..i] && n.key.node == node :: n.key.attempt
        invariant count == |seen|
      {
        assert nodes[..i + 1] == nodes[..i] + [nodes[i]];
        if nodes[i].key.node == node {
          FreshAttempt(nodes, store.rows, run, i);
          seen := seen + {nodes[i].key.attempt};
          count := count + 1;
        }
      }
      assert nodes[..|nodes|] == nodes;
      AllListed(nodes, store.rows, run, node);
    }

    lemma AllListed(nodes: seq<RunNode>, rows: Rows, run: string, node: string)
      requires ListsRun(nodes, rows, run)
      ensures (set n | n in nodes && n.key.node == node :: n.key.attempt) == AttemptsOf(rows, run, node)
    {
      forall k | k in rows && k.run == run && k.node == node
        ensures k.attempt in set n | n in nodes && n.key.node == node :: n.key.attempt
      {
        assert RunNode(k, rows[k]) in nodes;
      }
    }

    lemma FreshAttempt(nodes: seq<RunNode>, rows: Rows, run: string, i: nat)
      requires ListsRun(nodes, rows, run) && i < |nodes|
      ensures forall n | n in nodes[..i] && n.key.node == nodes[i].key.node :: n.key.attempt < nodes[i].key.attempt
    {
      forall n | n in nodes[..i] && n.key.node == nodes[i].key.node
        ensures n.key.attempt < nodes[i].key.attempt
      {
        var j :| 0 <= j < i && nodes[..i][j] == n;
        assert KeyLt(nodes[j].key, nodes[i].key);
        StrLtTotal(n.key.node, n.key.node);
      }
    }

    /** After the first `i` rows: for each predecessor met, its latest row so far. */
    ghost predicate LatestAmong(nodes: seq<RunNode>, preds: set<string>, latest: map<string, RunNode>) {
      && (forall p | p in latest :: p in preds && latest[p] in nodes && latest[p].key.node == p)
      && (forall n | n in nodes && n.key.node in preds ::
        n.key.node in latest && n.key.attempt <= latest[n.key.node].key.attempt)
    }

    /** The dictionary loop: each predecessor's row of highest attempt, the
        predecessors in the order they were first met. */
    method LatestPerPredecessor(nodes: seq<RunNode>, preds: set<string>, ghost rows: Rows, ghost run: string)
      returns (order: seq<string>, latest: map<string, RunNode>)
      requires ListsRun(nodes, rows, run)
      ensures forall p | p in latest :: p in preds
      ensures forall p | p in preds && AttemptsOf(rows, run, p) != {} :: p in latest
      ensures Ascending(order) && forall p :: p in order <==> p in latest
      ensures forall p | p in latest ::
        latest[p].key == LatestKey(rows, run, p) && latest[p].key in rows && latest[p].row == rows[latest[p].key]
    {
      hide ListsRun, LatestKey, AttemptsOf;
      order, latest := [], map[];
      for i := 0 to |nodes|
        invariant LatestAmong(nodes[..i], preds, latest)
        invariant Ascending(order) && forall p :: p in order <==> p in latest
      {
        var n := nodes[i];
        assert nodes[..i + 1] == nodes[..i] + [n];
        if n.key.node in preds {
          FreshAttempt(nodes, rows, run, i);
          if n.key.node !in latest || n.key.attempt > latest[n.key.node].key.attempt {
            if n.key.node !in latest {
              MetInOrder(nodes, preds, latest, order, rows, run, i);
              order := order + [n.key.node];
            }
            latest := latest[n.key.node := n];
          }
        }
      }
      assert nodes[..|nodes|] == nodes;
      LatestIsGreatest(nodes, preds, latest, rows, run);
    }

    lemma MetInOrder(nodes: seq<RunNode>, preds: set<string>, latest: map<string, RunNode>, order: seq<string>,
                     rows: Rows, run: string, i: nat)
      requires ListsRun(nodes, rows, run) && i < |nodes|
      requires LatestAmong(nodes[..i], preds, latest) && nodes[i].key.node !in latest
      requires forall p :: p in order <==> p in latest
      ensures forall p | p in order :: StrLt(p, nodes[i].key.node)
    {
      forall p | p in order
        ensures StrLt(p, nodes[i].key.node)
      {
        var j :| 0 <= j < i && nodes[..i][j] == latest[p];
        assert KeyLt(nodes[j].key, nodes[i].key);
      }
    }

    lemma LatestIsGreatest(nodes: seq<RunNode>, preds: set<string>, latest: map<string, RunNode>, rows: Rows,
      run: string)
      requires ListsRun(nodes, rows, run) && LatestAmong(nodes, preds, latest)
      ensures forall p | p in latest ::
        latest[p].key == LatestKey(rows, run, p) && latest[p].key in rows && latest[p].row == rows[latest[p].key]
      ensures forall p | p in latest :: p in preds
      ensures forall p | p in preds && AttemptsOf(rows, run, p) != {} :: p in latest
    {
      forall p | p in preds && AttemptsOf(rows, run, p) != {}
        ensures p in latest
      {
        var a :| a in AttemptsOf(rows, run, p);
        assert RunNode(RowKey(run, p, a), rows[RowKey(run, p, a)]) in nodes;
      }
      forall p | p in latest
        ensures latest[p].key == LatestKey(rows, run, p)
      {
        assert latest[p].key.attempt in AttemptsOf(rows, run, p);
        var top := LatestKey(rows, run, p);
        assert RunNode(top, rows[top]) in nodes;
      }
    }

    /** Counting the dictionary against the predecessor set is asking that each
        predecessor has a row. */
    lemma LatestCovers(order: seq<string>, latest: map<string, RunNode>, preds: set<string>, rows: Rows, run: string)
      requires forall p | p in latest :: p in preds && latest[p].key == LatestKey(rows, run, p)
      requires forall p | p in preds && AttemptsOf(rows, run, p) != {} :: p in latest
      requires Ascending(order) && forall p :: p in order <==> p in latest
      ensures |latest| == |preds| <==> latest.Keys == preds
      ensures AllDone(rows, run, preds) <==>
        latest.Keys == preds && forall p | p in latest :: IsDone(rows, latest[p].key)
      ensures latest.Keys == preds ==> order == Sorted(preds)
    {
      SubsetSameSize(latest.Keys, preds);
      DoneMeansMet(latest, preds, rows, run);
      if latest.Keys == preds {
        AscendingUnique(order, Sorted(preds));
      }
    }

    lemma DoneMeansMet(latest: map<string, RunNode>, preds: set<string>, rows: Rows, run: string)
      requires forall p | p in latest :: p in preds && latest[p].key == LatestKey(rows, run, p)
      requires forall p | p in preds && AttemptsOf(rows, run, p) != {} :: p in latest
      ensures AllDone(rows, run, preds) <==>
        latest.Keys == preds && forall p | p in latest :: IsDone(rows, latest[p].key)
    {
      forall p | p in preds && IsDone(rows, LatestKey(rows, run, p))
        ensures p in latest
      {
        assert LatestKey(rows, run, p).attempt in AttemptsOf(rows, run, p);
      }
      if AllDone(rows, run, preds) {
        assert forall p | p in preds :: IsDone(rows, LatestKey(rows, run, p)) && p in latest;
      }
    }

    lemma SubsetSameSize(a: set<string>, b: set<string>)
      requires a <= b
      ensures |a| == |b| <==> a == b
    {
      assert b == a + (b - a);
      assert |b| == |a| + |b - a|;
    }

    /** The step: it performs exactly its planned writes, in order. */
    method AdvanceOnCompletion(env: Env, e: Event) returns (exit: Exit)
      requires Valid() && TasksUnique(store.rows)
      modifies this, store, board
      ensures Wrote(PlanOf(env, old(Now()), e).writes)
      ensures exit == PlanOf(env, old(Now()), e).exit
    {
      var turn := Locate(env, e);
      if turn == None {
        return Ignored;
      }
      PlanParts(env, Now(), e, turn.value);
      exit := Perform(turn.value);
    }

    /** Mark the row, then act on the turn. */
    method Perform(t: Turn) returns (exit: Exit)
      requires Valid() && t.key in store.rows
      modifies this, store, board
      ensures
        var tail := TailOf(t, MarkedRows(t, old(store.rows)));
        && Wrote(
          [Write.Upsert(t.key, Marked(t, old(store.rows)[t.key]))]
          + (tail.dispatch + Saves(t.key.run, tail.saved)))
        && exit == tail.exit
    {
      hide TailOf;
      ghost var rows := MarkedRows(t, store.rows);
      Upsert(t.key, Marked(t, store.rows[t.key]));
      assert store.rows == rows;
      exit := Continue(t);
    }

    /** The event's row and run, if both exist. */
    method Locate(env: Env, e: Event) returns (turn: Option<Turn>)
      requires TasksUnique(store.rows)
      ensures turn == TurnAt(env, Now(), e)
      ensures turn.Some? ==> turn.value.key in store.rows
    {
      var key := store.GetNodeByTask(e.task);
      if key == None || key.value.run !in store.runs {
        return None;
      }
      return Some(TurnOf(env, key.value, store.runs[key.value.run], e));
    }

    method Continue(t: Turn) returns (exit: Exit)
      requires Valid()
      modifies this, store, board
      ensures Performed(t, TailOf(t, old(store.rows)), exit)
    {
      var node := Lookup(t.env.pipeline.nodes, t.key.node);
      if node.Some? && node.value.shape == FAN_OUT {
        exit := FanOut(t);
      } else if !t.passed && node.Some? && node.value.goalGate.Some? {
        exit := Gate(t, node.value.goalGate.value);
      } else {
        exit := Route(t);
      }
    }

    /** So the state moves as the plan says. */
    twostate lemma JournalApplied(ws: seq<Write>)
      requires old(Valid()) && Wrote(ws)
      ensures Now() == ApplyAll(old(Now()), ws)
    {
      ApplyConcat(origin, old(journal), ws);
    }
  }
}

/** Whole histories: launches and deliveries, each cut anywhere, in any order. */
module Histories {
  import opened Basics
  import opened Values
  import opened Pipelines
  import opened EdgeSelector
  import opened Keys
  import opened RunState
  import opened Advance
  import opened Invariants
  import opened Safety
  import opened Launching

  /** The stored pipelines, the tools and the host's profiles. */
  datatype Config = Config(specs: map<string, Pipeline>, tools: Tools, profiles: Profiles)

  /** What neither validation nor launching checks. */
  ghost predicate SoundConfig(cfg: Config) {
    forall id | id in cfg.specs ::
      && (forall n | n in cfg.specs[id].nodes :: SafeId(n.id))
      && (forall n | n in cfg.specs[id].nodes && n.shape == FAN_OUT ::
        |OutEdges(cfg.specs[id].edges, n.id)| <= MAX_FAN_OUT_WIDTH)
  }

  /** One action, of which the first `upto` writes happen. */
  datatype Action =
    | Launch(runId: string, specId: string, ctx: Data, upto: nat)
    | Deliver(event: Event, upto: nat)

  /** The stores, and which rows have had a completion delivered. */
  datatype World = World(state: State, delivered: set<RowKey>)

  const START_WORLD := World(EMPTY, {})

  ghost predicate KnownRun(cfg: Config, s: State, run: string) {
    run in s.runs && s.runs[run].specId in cfg.specs
  }

  ghost function PipelineFor(cfg: Config, s: State, run: string): Pipeline
    requires KnownRun(cfg, s, run)
  {
    cfg.specs[s.runs[run].specId]
  }

  /** The pipeline is loaded by the spec id of the run the event belongs to. */
  ghost function EnvAt(cfg: Config, s: State, e: Event): Option<Env> {
    match FindByTask(s.rows, e.task)
    case None => None
    case Some(k) => if KnownRun(cfg, s, k.run) then Some(Env(PipelineFor(cfg, s, k.run), cfg.tools)) else None
  }

  ghost function WritesOf(cfg: Config, s: State, a: Action): seq<Write> {
    match a
    case Launch(runId, specId, ctx, _) =>
      if !SafeId(runId) || runId in s.runs || specId !in cfg.specs then []
      else LaunchWrites(cfg.specs[specId], cfg.profiles, specId, runId, ctx)
    case Deliver(e, _) =>
      match EnvAt(cfg, s, e)
      case None => []
      case Some(env) => PlanOf(env, s, e).writes
  }

  function Take(ws: seq<Write>, k: nat): seq<Write> {
    if k <= |ws| then ws[..k] else ws
  }

  ghost function Marks(cfg: Config, s: State, a: Action): set<RowKey> {
    if a.Deliver? && a.upto > 0 && EnvAt(cfg, s, a.event).Some? then {FindByTask(s.rows, a.event.task).value} else {}
  }

  ghost function Next(cfg: Config, w: World, a: Action): World {
    World(ApplyAll(w.state, Take(WritesOf(cfg, w.state, a), a.upto)), w.delivered + Marks(cfg, w.state, a))
  }

  ghost function After(cfg: Config, actions: seq<Action>): World
    decreases |actions|
  {
    if actions == [] then START_WORLD else Next(cfg, After(cfg, actions[..|actions| - 1]), actions[|actions| - 1])
  }

  // ---- The invariant -----------------------------------------------------

  /** A fan-in that only its predecessors' completions can lead to. */
  ghost predicate Guarded(p: Pipeline, id: string) {
    && Lookup(p.nodes, id).Some? && Lookup(p.nodes, id).value.shape == FAN_IN
    && (forall e, n | e in p.edges && e.target == id && n in p.nodes && n.id == e.source ::
      n.shape != START && n.shape != FAN_OUT)
    && (forall n | n in p.nodes && n.goalGate.Some? :: n.goalGate.value.retryTarget != id)
  }

  ghost predicate AllDelivered(delivered: set<RowKey>, run: string, nodes: set<string>) {
    forall n | n in nodes :: exists j :: j in delivered && j.run == run && j.node == n
  }

  ghost predicate RunsSound(cfg: Config, s: State) {
    forall r | r in s.runs :: SafeId(r) && KnownRun(cfg, s, r) && Launchable(PipelineFor(cfg, s, r), cfg.profiles)
  }

  ghost predicate RowsSound(cfg: Config, s: State) {
    forall k | k in s.rows :: KnownRun(cfg, s, k.run) && k.node in Ids(PipelineFor(cfg, s, k.run).nodes)
  }

  /** A card on the board fits its key; a guarded fan-in's card is its first,
      and every predecessor has completed. */
  ghost predicate CardSound(cfg: Config, s: State, delivered: set<RowKey>, k: RowKey)
    requires KeyText(k) in s.cards
  {
    && KnownRun(cfg, s, k.run)
    && CardFits(PipelineFor(cfg, s, k.run), k, s.cards[KeyText(k)])
    && (Guarded(PipelineFor(cfg, s, k.run), k.node) ==>
          k.attempt == 1 && AllDelivered(delivered, k.run, Predecessors(PipelineFor(cfg, s, k.run).edges, k.node)))
  }

  ghost predicate CardsSound(cfg: Config, s: State, delivered: set<RowKey>) {
    forall k | SafeKey(k) && KeyText(k) in s.cards :: CardSound(cfg, s, delivered, k)
  }

  ghost predicate DoneDelivered(s: State, delivered: set<RowKey>) {
    forall k | IsDone(s.rows, k) :: k in delivered
  }

  ghost predicate Healthy(cfg: Config, w: World) {
    && Bijective(w.state)
    && RunsSound(cfg, w.state)
    && RowsSound(cfg, w.state)
    && CardsSound(cfg, w.state, w.delivered)
    && DoneDelivered(w.state, w.delivered)
  }

  // ---- One write ---------------------------------------------------------

  /** A created fan-in card is allowed: first attempt, predecessors complete. */
  ghost predicate Licensed(p: Pipeline, run: string, delivered: set<RowKey>, w: Write) {
    w.Create? ==> forall k | SafeKey(k) && k.run == run && KeyText(k) == w.text && Guarded(p, k.node) ::
      k.attempt == 1 && AllDelivered(delivered, run, Predecessors(p.edges, k.node))
  }

  lemma CreateKeepsHealthy(cfg: Config, s: State, delivered: set<RowKey>, k: RowKey, card: Card)
    requires Healthy(cfg, World(s, delivered))
    requires SafeKey(k) && KnownRun(cfg, s, k.run) && CardFits(PipelineFor(cfg, s, k.run), k, card)
    requires Licensed(PipelineFor(cfg, s, k.run), k.run, delivered, Create(KeyText(k), card))
    ensures Healthy(cfg, World(Apply(s, Create(KeyText(k), card)), delivered))
  {
    hide KeyText, CardFits, SafeId, Launchable, Guarded, AllDelivered;
    var s' := Apply(s, Create(KeyText(k), card));
    forall j | SafeKey(j) && KeyText(j) in s'.cards
      ensures CardSound(cfg, s', delivered, j)
    {
      if KeyText(j) !in s.cards {
        KeyTextInjective(j, k);
      } else {
        assert CardSound(cfg, s, delivered, j);
      }
    }
  }

  lemma UpsertKeepsHealthy(cfg: Config, s: State, delivered: set<RowKey>, k: RowKey, row: Row)
    requires Healthy(cfg, World(s, delivered))
    requires SafeKey(k) && KnownRun(cfg, s, k.run) && k.node in Ids(PipelineFor(cfg, s, k.run).nodes)
    requires row.task == TaskOf(k) && KeyText(k) in s.cards
    requires row.status == Dispatched || k in delivered
    ensures Healthy(cfg, World(Apply(s, Upsert(k, row)), delivered))
  {
    hide KeyText, CardFits, SafeId, Launchable, Guarded, AllDelivered, Ids;
    var s' := Apply(s, Upsert(k, row));
    assert s'.runs == s.runs && s'.cards == s.cards;
    forall j | SafeKey(j) && KeyText(j) in s'.cards
      ensures CardSound(cfg, s', delivered, j)
    {
      assert CardSound(cfg, s, delivered, j);
    }
  }

  lemma RunKeepsHealthy(cfg: Config, s: State, delivered: set<RowKey>, id: string, run: Run)
    requires Healthy(cfg, World(s, delivered))
    requires SafeId(id) && run.specId in cfg.specs && Launchable(cfg.specs[run.specId], cfg.profiles)
    requires id in s.runs ==> s.runs[id].specId == run.specId
    ensures Healthy(cfg, World(s.(runs := s.runs[id := run]), delivered))
  {
    hide KeyText, CardFits, SafeId, Launchable, Guarded, AllDelivered, Ids;
    var s' := s.(runs := s.runs[id := run]);
    forall j | SafeKey(j) && KeyText(j) in s'.cards
      ensures CardSound(cfg, s', delivered, j)
    {
      assert CardSound(cfg, s, delivered, j);
    }
  }

  lemma BlockKeepsHealthy(cfg: Config, s: State, delivered: set<RowKey>, task: TaskId)
    requires Healthy(cfg, World(s, delivered))
    ensures Healthy(cfg, World(Apply(s, Block(task)), delivered))
  {
    hide KeyText, CardFits, SafeId, Launchable, Guarded, AllDelivered, Ids;
    var s' := Apply(s, Block(task));
    forall j | SafeKey(j) && KeyText(j) in s'.cards
      ensures CardSound(cfg, s', delivered, j)
    {
      assert CardSound(cfg, s, delivered, j);
    }
  }

  lemma MoreDelivered(cfg: Config, s: State, delivered: set<RowKey>, more: set<RowKey>)
    requires Healthy(cfg, World(s, delivered)) && delivered <= more
    ensures Healthy(cfg, World(s, more))
  {
    hide KeyText, CardFits, SafeId, Launchable, Guarded, Ids;
    forall j | SafeKey(j) && KeyText(j) in s.cards
      ensures CardSound(cfg, s, more, j)
    {
      assert CardSound(cfg, s, delivered, j);
    }
  }

  // ---- A list of writes --------------------------------------------------

  lemma {:induction false} OrderlyKeepsHealthy(cfg: Config, s: State, delivered: set<RowKey>, run: string,
    ws: seq<Write>, j: nat)
    requires Healthy(cfg, World(s, delivered)) && KnownRun(cfg, s, run)
    requires Orderly(PipelineFor(cfg, s, run), run, ws) && j <= |ws|
    requires forall w | w in ws :: Licensed(PipelineFor(cfg, s, run), run, delivered, w)
    ensures Healthy(cfg, World(ApplyAll(s, ws[..j]), delivered))
    ensures ApplyAll(s, ws[..j]).runs == s.runs
    ensures j > 0 && ws[j - 1].Create? ==> ws[j - 1].text in ApplyAll(s, ws[..j]).cards
    decreases j
  {
    hide Healthy, KeyText, CardFits, Licensed, SafeKey;
    if j > 0 {
      OrderlyKeepsHealthy(cfg, s, delivered, run, ws, j - 1);
      assert ws[..j][..j - 1] == ws[..j - 1];
      var before := ApplyAll(s, ws[..j - 1]);
      assert OrderlyAt(PipelineFor(cfg, s, run), run, ws, j - 1);
      assert ws[j - 1] in ws;
      match ws[j - 1]
      case Create(text, card) =>
        var k :| SafeKey(k) && k.run == run && text == KeyText(k) && CardFits(PipelineFor(cfg, s, run), k, card);
        CreateKeepsHealthy(cfg, before, delivered, k, card);
      case Upsert(k, row) => UpsertKeepsHealthy(cfg, before, delivered, k, row);
      case Block(task) => BlockKeepsHealthy(cfg, before, delivered, task);
    }
  }

  // ---- What a tail may create --------------------------------------------

  ghost predicate AllLicensed(p: Pipeline, run: string, delivered: set<RowKey>, ws: seq<Write>) {
    forall w | w in ws :: Licensed(p, run, delivered, w)
  }

  lemma UnitLicensed(p: Pipeline, delivered: set<RowKey>, node: Node, key: RowKey, ctx: Data, tasks: seq<TaskId>,
                     parents: set<string>, gate: Option<GoalGatePolicy>)
    requires ForNode(key) != Raised
    requires Guarded(p, key.node) ==>
      key.attempt == 1 && AllDelivered(delivered, key.run, Predecessors(p.edges, key.node))
    ensures AllLicensed(p, key.run, delivered, Unit(p, node, key, ctx, tasks, parents, gate))
  {
    hide KeyText, Guarded, AllDelivered, CardFor, SafeId;
    forall k | SafeKey(k) && k.run == key.run && KeyText(k) == KeyText(key)
      ensures k == key
    {
      KeyTextInjective(k, key);
    }
  }

  lemma SendLicensed(t: Turn, delivered: set<RowKey>, node: Node, attempt: nat, ctx: Data, parents: set<string>,
                     gate: Option<GoalGatePolicy>, more: seq<Write>, saved: Run, exit: Exit)
    requires forall w | w in more :: w.Block?
    requires Guarded(t.env.pipeline, node.id) ==>
      attempt == 1 && AllDelivered(delivered, t.key.run, Predecessors(t.env.pipeline.edges, node.id))
    ensures AllLicensed(t.env.pipeline, t.key.run, delivered,
      SendOne(t, node, attempt, ctx, parents, gate, more, saved, exit).dispatch)
  {
    hide Guarded, AllDelivered, Unit, ForNode;
    var key := RowKey(t.key.run, node.id, attempt);
    if ForNode(key) != Raised {
      UnitLicensed(t.env.pipeline, delivered, node, key, ctx, [t.event.task], parents, gate);
    }
  }

  lemma {:induction false} BranchesLicensed(t: Turn, delivered: set<RowKey>, edges: seq<Edge>)
    requires Lookup(t.env.pipeline.nodes, t.key.node).Some?
    requires Lookup(t.env.pipeline.nodes, t.key.node).value.shape == FAN_OUT
    requires forall e | e in edges :: e in t.env.pipeline.edges && e.source == t.key.node
    ensures AllLicensed(t.env.pipeline, t.key.run, delivered, Branches(t, edges).0)
    decreases |edges|
  {
    hide Unit, ForNode, AllDelivered, Licensed;
    if edges != [] {
      var last := edges[|edges| - 1];
      BranchesLicensed(t, delivered, edges[..|edges| - 1]);
      assert last in edges;
      var branch := Lookup(t.env.pipeline.nodes, last.target);
      if branch.Some? && ForNode(RowKey(t.key.run, branch.value.id, 1)) != Raised {
        assert !Guarded(t.env.pipeline, branch.value.id);
        UnitLicensed(t.env.pipeline, delivered, branch.value, RowKey(t.key.run, branch.value.id, 1), t.run.context,
          [t.event.task], {t.key.node}, branch.value.goalGate);
      }
    }
  }

  lemma TailLicensed(t: Turn, rows: Rows, delivered: set<RowKey>)
    requires forall k | IsDone(rows, k) :: k in delivered
    ensures AllLicensed(t.env.pipeline, t.key.run, delivered, TailOf(t, rows).dispatch)
  {
    hide RouteTail, Branches, AllLicensed, ForNode, Unit;
    var node := Lookup(t.env.pipeline.nodes, t.key.node);
    NothingLicensed(t.env.pipeline, t.key.run, delivered);
    RouteLicensed(t, rows, delivered);
    if node.Some? && node.value.shape == FAN_OUT {
      BranchesLicensed(t, delivered, OutEdges(t.env.pipeline.edges, t.key.node));
    } else if !t.passed && node.Some? && node.value.goalGate.Some? {
      GateLicensed(t, node.value, rows, delivered);
    }
  }

  lemma NothingLicensed(p: Pipeline, run: string, delivered: set<RowKey>)
    ensures AllLicensed(p, run, delivered, [])
  {
  }

  lemma GateLicensed(t: Turn, node: Node, rows: Rows, delivered: set<RowKey>)
    requires node in t.env.pipeline.nodes && node.goalGate.Some?
    requires AllLicensed(t.env.pipeline, t.key.run, delivered, RouteTail(t, rows).dispatch)
    ensures AllLicensed(t.env.pipeline, t.key.run, delivered, GateTail(t, node.goalGate.value, rows).dispatch)
  {
    hide RouteTail, AllLicensed, SendOne, AllDelivered;
    NothingLicensed(t.env.pipeline, t.key.run, delivered);
    var target := Lookup(t.env.pipeline.nodes, node.goalGate.value.retryTarget);
    if target.Some? {
      assert !Guarded(t.env.pipeline, target.value.id);
      SendLicensed(t, delivered, target.value, t.key.attempt + 1, t.run.context, {t.key.node}, None, [],
        t.run.(cursor := t.event.id), GateRetried);
    }
  }

  lemma RouteLicensed(t: Turn, rows: Rows, delivered: set<RowKey>)
    requires forall k | IsDone(rows, k) :: k in delivered
    ensures AllLicensed(t.env.pipeline, t.key.run, delivered, RouteTail(t, rows).dispatch)
  {
    hide EnterTail, AllLicensed, Select;
    NothingLicensed(t.env.pipeline, t.key.run, delivered);
    match Select(OutEdges(t.env.pipeline.edges, t.key.node), t.run.context, HintsOf(t))
    case Ok(Some(edge)) =>
      if Lookup(t.env.pipeline.nodes, edge.target).Some? {
        LookupAgain(t.env.pipeline.nodes, edge.target);
        EnterLicensed(t, Lookup(t.env.pipeline.nodes, edge.target).value, rows, delivered);
      }
    case _ =>
  }

  lemma EnterLicensed(t: Turn, next: Node, rows: Rows, delivered: set<RowKey>)
    requires Lookup(t.env.pipeline.nodes, next.id) == Some(next)
    requires forall k | IsDone(rows, k) :: k in delivered
    ensures AllLicensed(t.env.pipeline, t.key.run, delivered, EnterTail(t, next, rows).dispatch)
  {
    hide AllLicensed, SendOne, ToolTail, FanInTail, NextAttempt;
    NothingLicensed(t.env.pipeline, t.key.run, delivered);
    var attempt := NextAttempt(t, next, rows);
    match next.shape
    case HUMAN =>
      SendLicensed(t, delivered, next, attempt, t.run.context, {t.key.node}, next.goalGate,
        [Block(TaskOf(RowKey(t.key.run, next.id, attempt)))],
        t.run.(status := PAUSED_HUMAN, cursor := t.event.id), HumanPaused);
    case FAN_IN => FanInLicensed(t, next, rows, delivered);
    case TOOL => ToolLicensed(t, next, delivered);
    case EXIT =>
    case _ =>
      SendLicensed(t, delivered, next, attempt, t.run.context, {t.key.node}, next.goalGate, [], Resumed(t, t.run),
        Forwarded);
  }

  lemma FanInLicensed(t: Turn, next: Node, rows: Rows, delivered: set<RowKey>)
    requires forall k | IsDone(rows, k) :: k in delivered
    ensures AllLicensed(t.env.pipeline, t.key.run, delivered, FanInTail(t, next, rows).dispatch)
  {
    hide AllLicensed, SendOne, Guarded, FanInContext, LatestKey;
    NothingLicensed(t.env.pipeline, t.key.run, delivered);
    var preds := Predecessors(t.env.pipeline.edges, next.id);
    if AllDone(rows, t.key.run, preds) {
      forall n | n in preds
        ensures exists j :: j in delivered && j.run == t.key.run && j.node == n
      {
        LatestKeyOf(rows, t.key.run, n);
        assert LatestKey(rows, t.key.run, n) in delivered;
      }
      var run := t.run.(context := FanInContext(t, next, rows));
      SendLicensed(t, delivered, next, 1, run.context, preds, next.goalGate, [], Resumed(t, run), FanInFired);
    }
  }

  lemma ToolLicensed(t: Turn, tool: Node, delivered: set<RowKey>)
    ensures AllLicensed(t.env.pipeline, t.key.run, delivered, ToolTail(t, tool).dispatch)
  {
    hide AllLicensed, SendOne, Select, ToolContext;
    NothingLicensed(t.env.pipeline, t.key.run, delivered);
    var run := t.run.(context := ToolContext(t, tool));
    match Select(OutEdges(t.env.pipeline.edges, tool.id), run.context, Hints(None, []))
    case Ok(Some(edge)) =>
      var next := Lookup(t.env.pipeline.nodes, edge.target);
      if next.Some? && next.value.shape != FAN_IN {
        LookupAgain(t.env.pipeline.nodes, edge.target);
        SendLicensed(t, delivered, next.value, 1, run.context, {tool.id}, next.value.goalGate, [],
          run.(cursor := t.event.id), ToolForwarded);
      }
    case _ =>
  }

  // ---- Actions -----------------------------------------------------------

  lemma DeliverKeepsHealthy(cfg: Config, w: World, e: Event, upto: nat)
    requires Healthy(cfg, w)
    ensures Healthy(cfg, Next(cfg, w, Deliver(e, upto)))
  {
    hide Healthy, TailOf;
    match EnvAt(cfg, w.state, e)
    case None => assert w.delivered + {} == w.delivered;
    case Some(env) => TurnKeepsHealthy(cfg, w, env, e, upto);
  }

  lemma TurnKeepsHealthy(cfg: Config, w: World, env: Env, e: Event, upto: nat)
    requires Healthy(cfg, w) && EnvAt(cfg, w.state, e) == Some(env)
    ensures Healthy(cfg, Next(cfg, w, Deliver(e, upto)))
  {
    hide Healthy, TailOf, Partway, PlanOf, Step, Saves, Orderly, AllLicensed;
    var s := w.state;
    var t := TurnAt(env, s, e).value;
    var tail := TailOf(t, MarkedRows(t, s.rows));
    CrashPoints(env, s, e, upto);
    var delivered := w.delivered + Marks(cfg, s, Deliver(e, upto));
    assert Next(cfg, w, Deliver(e, upto)) == World(CrashAt(env, s, e, upto), delivered);
    MoreDelivered(cfg, s, w.delivered, delivered);
    if upto > 0 {
      MarkKeepsHealthy(cfg, w, env, e, t);
      var marked := s.(rows := MarkedRows(t, s.rows));
      MarkedState(t, s);
      DoneAreDelivered(cfg, marked, delivered);
      TailOrderly(t, MarkedRows(t, s.rows));
      TailLicensed(t, MarkedRows(t, s.rows), delivered);
      var j := if upto <= |tail.dispatch| + 1 then upto - 1 else |tail.dispatch|;
      LicensedEach(env.pipeline, t.key.run, delivered, tail.dispatch);
      OrderlyKeepsHealthy(cfg, marked, delivered, t.key.run, tail.dispatch, j);
      PartwayState(t, s, tail.dispatch, j);
      if upto > |tail.dispatch| + 1 {
        SaveKeepsHealthy(cfg, Partway(t, s, tail.dispatch, |tail.dispatch|), delivered, t, MarkedRows(t, s.rows));
      }
    }
  }

  lemma PartwayState(t: Turn, s: State, dispatch: seq<Write>, j: nat)
    requires t.key in s.rows && j <= |dispatch|
    ensures Partway(t, s, dispatch, j) == ApplyAll(s.(rows := MarkedRows(t, s.rows)), dispatch[..j])
  {
    MarkedState(t, s);
  }

  lemma LicensedEach(p: Pipeline, run: string, delivered: set<RowKey>, ws: seq<Write>)
    requires AllLicensed(p, run, delivered, ws)
    ensures forall w | w in ws :: Licensed(p, run, delivered, w)
  {
  }

  lemma DoneAreDelivered(cfg: Config, s: State, delivered: set<RowKey>)
    requires Healthy(cfg, World(s, delivered))
    ensures forall k | IsDone(s.rows, k) :: k in delivered
  {
  }

  lemma MarkKeepsHealthy(cfg: Config, w: World, env: Env, e: Event, t: Turn)
    requires Healthy(cfg, w) && EnvAt(cfg, w.state, e) == Some(env) && TurnAt(env, w.state, e) == Some(t)
    ensures Healthy(cfg, World(w.state.(rows := MarkedRows(t, w.state.rows)), w.delivered + {t.key}))
    ensures KnownRun(cfg, w.state, t.key.run) && env.pipeline == PipelineFor(cfg, w.state, t.key.run)
  {
    hide CardsSound, CardFits, KeyText, Launchable;
    MoreDelivered(cfg, w.state, w.delivered, w.delivered + {t.key});
    UpsertKeepsHealthy(cfg, w.state, w.delivered + {t.key}, t.key, Marked(t, w.state.rows[t.key]));
  }

  lemma SaveKeepsHealthy(cfg: Config, s: State, delivered: set<RowKey>, t: Turn, rows: Rows)
    requires Healthy(cfg, World(s, delivered)) && t.key.run in s.runs && s.runs[t.key.run] == t.before
    requires t.run.specId == t.before.specId
    ensures Healthy(cfg, World(ApplyAll(s, Saves(t.key.run, TailOf(t, rows).saved)), delivered))
  {
    hide TailOf, CardsSound, RowsSound, Bijective, DoneDelivered, Launchable;
    TailSaves(t, rows);
    match TailOf(t, rows).saved
    case None =>
    case Some(run) =>
      assert [Save(t.key.run, run)][..0] == [];
      RunKeepsHealthy(cfg, s, delivered, t.key.run, run);
  }

  lemma EntryOrderly(p: Pipeline, runId: string, start: Node, ctx: Data, delivered: set<RowKey>)
    requires start in p.nodes && start.shape == START
    ensures Orderly(p, runId, EntryWrites(p, runId, start, ctx))
    ensures AllLicensed(p, runId, delivered, EntryWrites(p, runId, start, ctx))
  {
    hide Orderly, AllLicensed, Unit, ForNode, AllDelivered;
    NothingOrderly(p, runId);
    NothingLicensed(p, runId, delivered);
    SelectOptimal(OutEdges(p.edges, start.id), ctx, Hints(None, []));
    var entry := EntryOf(p, start, ctx);
    if entry.Some? && ForNode(RowKey(runId, entry.value.id, 1)) != Raised {
      var edge := Select(OutEdges(p.edges, start.id), ctx, Hints(None, [])).value.value;
      assert edge in p.edges && edge.source == start.id;
      LookupAgain(p.nodes, edge.target);
      assert !Guarded(p, entry.value.id);
      var key := RowKey(runId, entry.value.id, 1);
      ForNodeSafe(key);
      UnitOrderly(p, entry.value, key, ctx, [], {start.id}, entry.value.goalGate, false);
      UnitLicensed(p, delivered, entry.value, key, ctx, [], {start.id}, entry.value.goalGate);
    }
  }

  lemma ForNodeSafe(k: RowKey)
    requires ForNode(k) != Raised && k.attempt >= 1
    ensures SafeKey(k)
  {
  }

  lemma LaunchKeepsHealthy(cfg: Config, w: World, a: Action)
    requires Healthy(cfg, w) && a.Launch?
    ensures Healthy(cfg, Next(cfg, w, a))
  {
    hide Healthy, EntryWrites, Launchable, SafeId, Orderly, AllLicensed;
    var s, ws := w.state, Take(WritesOf(cfg, w.state, a), a.upto);
    assert w.delivered + {} == w.delivered;
    if ws != [] {
      var p := cfg.specs[a.specId];
      var start := WithShape(p.nodes, START)[0];
      assert start in WithShape(p.nodes, START);
      var insert, entry := Insert(a.runId, FreshRun(a.specId, a.ctx)), EntryWrites(p, a.runId, start, a.ctx);
      var k := if a.upto <= |entry| then a.upto - 1 else |entry|;
      assert ws == [insert] + entry[..k];
      ApplyConcat(s, [insert], entry[..k]);
      assert [insert][..0] == [];
      var inserted := s.(runs := s.runs[a.runId := FreshRun(a.specId, a.ctx)]);
      RunKeepsHealthy(cfg, s, w.delivered, a.runId, FreshRun(a.specId, a.ctx));
      EntryOrderly(p, a.runId, start, a.ctx, w.delivered);
      LicensedEach(p, a.runId, w.delivered, entry);
      OrderlyKeepsHealthy(cfg, inserted, w.delivered, a.runId, entry, k);
    }
  }

  /** Every history keeps the world healthy: launches and deliveries in any
      order, of any events, each possibly cut after any of its writes. */
  lemma {:induction false} HistoriesHealthy(cfg: Config, actions: seq<Action>)
    ensures Healthy(cfg, After(cfg, actions))
    decreases |actions|
  {
    hide Next;
    if actions != [] {
      var n := |actions| - 1;
      HistoriesHealthy(cfg, actions[..n]);
      match actions[n]
      case Launch(_, _, _, _) => LaunchKeepsHealthy(cfg, After(cfg, actions[..n]), actions[n]);
      case Deliver(e, upto) => DeliverKeepsHealthy(cfg, After(cfg, actions[..n]), e, upto);
    }
  }

  // ---- Main results over whole histories -----------------------------------

  /** Rows and cards correspond, one task to one row, after every history. */
  lemma RowCardBijection(cfg: Config, actions: seq<Action>)
    ensures
      var s := After(cfg, actions).state;
      && (forall k | k in s.rows :: s.rows[k].task == TaskOf(k) && KeyText(k) in s.cards)
      && (forall j, k | j in s.rows && k in s.rows && s.rows[j].task == s.rows[k].task :: j == k)
  {
    HistoriesHealthy(cfg, actions);
    BijectiveTasksUnique(After(cfg, actions).state);
  }

  /** Fan-in safety: a guarded fan-in has at most one card per run, and only
      after every predecessor had a completion delivered. */
  lemma FanInSafety(cfg: Config, actions: seq<Action>, k: RowKey)
    requires
      var s := After(cfg, actions).state;
      SafeKey(k) && KeyText(k) in s.cards && KnownRun(cfg, s, k.run) && Guarded(PipelineFor(cfg, s, k.run), k.node)
    ensures k.attempt == 1
    ensures
      var w := After(cfg, actions);
      forall n | n in Predecessors(PipelineFor(cfg, w.state, k.run).edges, k.node) ::
        exists j :: j in w.delivered && j.run == k.run && j.node == n
  {
    HistoriesHealthy(cfg, actions);
    assert CardSound(cfg, After(cfg, actions).state, After(cfg, actions).delivered, k);
  }

  /** Nothing goes wrong: after every history over safe ids and bounded
      fan-outs, delivering any event raises nothing and a failed gate never
      reaches edge selection. */
  lemma NothingGoesWrong(cfg: Config, actions: seq<Action>, e: Event, env: Env, t: Turn)
    requires SoundConfig(cfg)
    requires EnvAt(cfg, After(cfg, actions).state, e) == Some(env)
    requires TurnAt(env, After(cfg, actions).state, e) == Some(t)
    ensures
      var exit := PlanOf(env, After(cfg, actions).state, e).exit;
      && exit != Errored
      && (!t.passed ==> exit in {FannedOut, GateBlocked, GateRetried})
      && (t.passed ==> exit !in {GateBlocked, GateRetried})
  {
    hide TailOf, Healthy, Deployable;
    HistoriesHealthy(cfg, actions);
    PlanParts(env, After(cfg, actions).state, e, t);
    DeployedTurn(cfg, After(cfg, actions), e, env, t);
    TailSafe(t, MarkedRows(t, After(cfg, actions).state.rows));
  }

  lemma DeployedTurn(cfg: Config, w: World, e: Event, env: Env, t: Turn)
    requires SoundConfig(cfg) && Healthy(cfg, w)
    requires EnvAt(cfg, w.state, e) == Some(env) && TurnAt(env, w.state, e) == Some(t)
    ensures SafeId(t.key.run) && Deployable(t.env.pipeline)
  {
    hide ValidPipeline, SafeId, Lookup, CardsSound;
    assert t.key in w.state.rows && t.key.run in w.state.runs;
  }

  /** Every card ever created for a worker-shaped node names a profile, and one
      that existed on the host when the run was launched. */
  lemma CardsReachWorkers(cfg: Config, actions: seq<Action>, k: RowKey)
    requires SafeKey(k) && KeyText(k) in After(cfg, actions).state.cards
    ensures
      var s := After(cfg, actions).state;
      && KnownRun(cfg, s, k.run)
      && var node := Lookup(PipelineFor(cfg, s, k.run).nodes, k.node);
      && node.Some?
      && (IsWorker(node.value.shape) ==>
            && s.cards[KeyText(k)].assignee != ""
            && (cfg.profiles.Some? ==> s.cards[KeyText(k)].assignee in cfg.profiles.value))
  {
    hide ValidPipeline, Guarded;
    var s := After(cfg, actions).state;
    HistoriesHealthy(cfg, actions);
    assert CardSound(cfg, s, After(cfg, actions).delivered, k);
    CardsAddressed(PipelineFor(cfg, s, k.run), k, s.cards[KeyText(k)]);
    var p := PipelineFor(cfg, s, k.run);
    if IsWorker(Lookup(p.nodes, k.node).value.shape) && Assignee(p, Lookup(p.nodes, k.node).value) != "" {
      WorkerListed(p, p.nodes, k.node);
    }
  }
}

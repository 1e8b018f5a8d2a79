/** `launch_run`: validate, insert the run, dispatch the entry node. */
module Launching {
  import opened Basics
  import opened Values
  import opened Pipelines
  import opened EdgeSelector
  import opened Keys
  import opened RunState
  import opened Advance
  import opened Engines
  import opened Completions

  /** The profiles that exist on the host; None skips the check. */
  type Profiles = Option<set<string>>

  /** Each worker node's non-empty profile, by id: a later duplicate id wins. */
  ghost function WorkerProfiles(p: Pipeline, nodes: seq<Node>): map<string, string> {
    if nodes == [] then map[] else
      var front, last := WorkerProfiles(p, nodes[..|nodes| - 1]), nodes[|nodes| - 1];
      if IsWorker(last.shape) && Assignee(p, last) != "" then front[last.id := Assignee(p, last)] else front
  }

  /** The node an id stands for is among them, if it is a worker with a profile. */
  lemma {:induction false} WorkerListed(p: Pipeline, nodes: seq<Node>, id: string)
    requires Lookup(nodes, id).Some? && IsWorker(Lookup(nodes, id).value.shape)
    requires Assignee(p, Lookup(nodes, id).value) != ""
    ensures id in WorkerProfiles(p, nodes) && WorkerProfiles(p, nodes)[id] == Assignee(p, Lookup(nodes, id).value)
    decreases |nodes|
  {
    hide Assignee;
    if nodes[|nodes| - 1].id != id {
      WorkerListed(p, nodes[..|nodes| - 1], id);
    }
  }

  ghost predicate ProfilesKnown(p: Pipeline, known: Profiles) {
    known.Some? ==> WorkerProfiles(p, p.nodes).Values <= known.value
  }

  ghost predicate Launchable(p: Pipeline, known: Profiles) {
    ValidPipeline(p) && ProfilesKnown(p, known)
  }

  /** The node START's edges select on the initial context, if it is dispatched. */
  ghost function EntryOf(p: Pipeline, start: Node, ctx: Data): Option<Node> {
    match Select(OutEdges(p.edges, start.id), ctx, Hints(None, []))
    case Raised => None
    case Ok(None) => None
    case Ok(Some(edge)) =>
      match Lookup(p.nodes, edge.target)
      case None => None
      case Some(n) => if IsWorker(n.shape) then Some(n) else None
  }

  function FreshRun(specId: string, ctx: Data): Run {
    Run(specId, RUNNING, ctx, 0)
  }

  ghost function EntryWrites(p: Pipeline, runId: string, start: Node, ctx: Data): seq<Write> {
    match EntryOf(p, start, ctx)
    case None => []
    case Some(n) =>
      var key := RowKey(runId, n.id, 1);
      if ForNode(key) == Raised then [] else Unit(p, n, key, ctx, [], {start.id}, n.goalGate)
  }

  /** The writes of a launch; an unlaunchable pipeline writes nothing. */
  ghost function LaunchWrites(p: Pipeline, known: Profiles, specId: string, runId: string, ctx: Data): seq<Write> {
    if !Launchable(p, known) || WithShape(p.nodes, START) == [] then [] else
      [Insert(runId, FreshRun(specId, ctx))] + EntryWrites(p, runId, WithShape(p.nodes, START)[0], ctx)
  }

  method ResolvedWorkerProfiles(p: Pipeline) returns (resolved: map<string, string>)
    ensures resolved == WorkerProfiles(p, p.nodes)
  {
    resolved := map[];
    for i := 0 to |p.nodes|
      invariant resolved == WorkerProfiles(p, p.nodes[..i])
    {
      assert p.nodes[..i + 1][..i] == p.nodes[..i];
      if IsWorker(p.nodes[i].shape) {
        var profile := ResolveProfile(p, p.nodes[i]);
        if profile.Some? && profile.value != "" {
          resolved := resolved[p.nodes[i].id := profile.value];
        }
      }
    }
    assert p.nodes[..|p.nodes|] == p.nodes;
  }

  /** Validation and the profile check. */
  method CheckLaunchable(p: Pipeline, known: Profiles) returns (ok: bool)
    ensures ok <==> Launchable(p, known)
  {
    hide ValidPipeline, IssuesOf;
    var issues := Validate(p);
    if issues != [] {
      return false;
    }
    if known.Some? {
      var resolved := ResolvedWorkerProfiles(p);
      return resolved.Values <= known.value;
    }
    return true;
  }

  /** Launch under a new run id; an id that exists already is refused. */
  method LaunchRun(engine: Engine, p: Pipeline, known: Profiles, specId: string, runId: string, ctx: Data)
    returns (launched: bool)
    requires engine.Valid()
    modifies engine, engine.store, engine.board
    ensures launched <==> Launchable(p, known) && runId !in old(engine.store.runs)
    ensures engine.Wrote(if launched then LaunchWrites(p, known, specId, runId, ctx) else [])
  {
    hide EntryWrites, ValidPipeline, ProfilesKnown, Engine.Valid;
    launched := CheckLaunchable(p, known);
    if launched {
      StartExists(p);
      launched := engine.Insert(runId, FreshRun(specId, ctx));
      if launched {
        LaunchEntry(engine, p, runId, WithShape(p.nodes, START)[0], ctx);
      }
    }
  }

  /** The run a launch stores: running, with the context it was given, from the
      beginning of the log. If an edge of START is selected on that context and
      leads to a worker with a safe id, that node is dispatched, for that context
      and without a parent card; otherwise nothing is. Whatever else was stored
      stays. */
  lemma LaunchStores(s: State, p: Pipeline, known: Profiles, specId: string, runId: string, ctx: Data)
    requires Launchable(p, known) && WithShape(p.nodes, START) != []
    ensures
      var s', start := ApplyAll(s, LaunchWrites(p, known, specId, runId, ctx)), WithShape(p.nodes, START)[0];
      && s'.runs == s.runs[runId := Run(specId, RUNNING, ctx, 0)] && s'.blocked == s.blocked
      && match Select(OutEdges(p.edges, start.id), ctx, Hints(None, []))
         case Ok(Some(edge)) =>
           (match Lookup(p.nodes, edge.target)
            case None => s'.rows == s.rows && s'.cards == s.cards
            case Some(n) =>
              var k := RowKey(runId, n.id, 1);
              if n.shape in {START, EXIT} || !SafeId(runId) || !SafeId(n.id) then
                s'.rows == s.rows && s'.cards == s.cards
              else
                && s'.rows == s.rows[k := Row(TaskOf(k), Dispatched, {start.id}, n.goalGate, None, map[])]
                && KeyText(k) in s'.cards
                && (KeyText(k) !in s.cards ==> CardOf(p, n, ctx, [], s'.cards[KeyText(k)]))
                && s'.cards - {KeyText(k)} == s.cards - {KeyText(k)})
         case _ => s'.rows == s.rows && s'.cards == s.cards
  {
    hide Launchable, SafeId, KeyText, Select, CardOf, Unit, ApplyAll;
    var start := WithShape(p.nodes, START)[0];
    var insert := Insert(runId, FreshRun(specId, ctx));
    var entry := EntryWrites(p, runId, start, ctx);
    ApplyConcat(s, [insert], entry);
    OneWrite(s, insert);
    NoWrite(Apply(s, insert));
    var node := EntryOf(p, start, ctx);
    if node.Some? && ForNode(RowKey(runId, node.value.id, 1)) != Raised {
      var n := node.value;
      UnitStores(Apply(s, insert), p, n, RowKey(runId, n.id, 1), ctx, [], {start.id}, n.goalGate);
    }
  }

  lemma OneWrite(s: State, w: Write)
    ensures ApplyAll(s, [w]) == Apply(s, w)
  {
    assert [w][..0] == [];
  }

  lemma NoWrite(s: State)
    ensures ApplyAll(s, []) == s
  {
  }

  /** The stores after one node's card and row. */
  lemma UnitStores(s: State, p: Pipeline, n: Node, k: RowKey, ctx: Data, tasks: seq<TaskId>, parents: set<string>,
                   gate: Option<GoalGatePolicy>)
    ensures
      var s' := ApplyAll(s, Unit(p, n, k, ctx, tasks, parents, gate));
      && s'.runs == s.runs && s'.blocked == s.blocked
      && s'.rows == s.rows[k := Row(TaskOf(k), Dispatched, parents, gate, None, map[])]
      && KeyText(k) in s'.cards && (KeyText(k) !in s.cards ==> CardOf(p, n, ctx, tasks, s'.cards[KeyText(k)]))
      && s'.cards - {KeyText(k)} == s.cards - {KeyText(k)}
  {
    hide KeyText, CardOf, CardFor, ApplyAll;
    TwoWrites(s, Create(KeyText(k), CardFor(p, n, ctx, tasks)), Upsert(k, DispatchedRow(k, parents, gate)));
    CardForFits(p, n, ctx, tasks);
  }

  lemma TwoWrites(s: State, first: Write, second: Write)
    ensures ApplyAll(s, [first, second]) == Apply(Apply(s, first), second)
  {
    ApplyConcat(s, [first], [second]);
    assert [first] + [second] == [first, second] && [first][..0] == [] && [second][..0] == [];
  }

  lemma StartExists(p: Pipeline)
    requires ValidPipeline(p)
    ensures WithShape(p.nodes, START) != []
  {
    OneHasShape(p.nodes, START);
  }

  method LaunchEntry(engine: Engine, p: Pipeline, runId: string, start: Node, ctx: Data)
    requires engine.Valid()
    modifies engine, engine.store, engine.board
    ensures engine.Wrote(EntryWrites(p, runId, start, ctx))
  {
    var selected := Select(OutEdges(p.edges, start.id), ctx, Hints(None, []));
    if selected == Raised || selected.value == None {
      return;
    }
    var entry := Lookup(p.nodes, selected.value.value.target);
    if entry == None || !IsWorker(entry.value.shape) {
      return;
    }
    var _ := engine.Dispatch(p, entry.value, RowKey(runId, entry.value.id, 1), ctx, [], {start.id},
      entry.value.goalGate);
  }
}

/** Replay over a sound configuration raises nothing, from any reachable state. */
module ReplaySafety {
  import opened Basics
  import opened Pipelines
  import opened Keys
  import opened RunState
  import opened Advance
  import opened Invariants
  import opened Safety
  import opened Launching
  import opened Histories
  import opened EventLog
  import opened Reconciling
  import opened ReconcileOrder
  import opened ReconcileTwice
  import opened Replays

  /** Health does not speak of the tools. */
  lemma AnyTools(cfg: Config, w: World, tools: Tools)
    requires Healthy(cfg, w)
    ensures Healthy(cfg.(tools := tools), w)
  {
    hide Launchable, CardFits, Guarded, AllDelivered, KeyText, SafeId, Ids;
    forall k | SafeKey(k) && KeyText(k) in w.state.cards
      ensures CardSound(cfg.(tools := tools), w.state, w.delivered, k)
    {
      assert CardSound(cfg, w.state, w.delivered, k);
    }
  }

  /** The run is known, and `env` is its pipeline with the configuration's tools. */
  ghost predicate Serves(cfg: Config, s: State, run: string, env: Env) {
    KnownRun(cfg, s, run) && env == Env(PipelineFor(cfg, s, run), cfg.tools)
  }

  /** One step from a healthy world: no exception, and the world stays healthy. */
  lemma HealthyStep(cfg: Config, w: World, env: Env, run: string, e: Event) returns (delivered: set<RowKey>)
    requires SoundConfig(cfg) && Healthy(cfg, w) && Serves(cfg, w.state, run, env) && Owned(w.state, run, e)
    ensures PlanOf(env, w.state, e).exit != Errored
    ensures Healthy(cfg, World(Step(env, w.state, e), delivered)) && Serves(cfg, Step(env, w.state, e), run, env)
  {
    hide Healthy, TailOf, PlanOf, SoundConfig, Deployable;
    var t := OwnedTurn(cfg, w, env, run, e);
    PlanParts(env, w.state, e, t);
    DeployedTurn(cfg, w, e, env, t);
    TailSafe(t, MarkedRows(t, w.state.rows));
    var upto := |PlanOf(env, w.state, e).writes| + 1;
    TurnKeepsHealthy(cfg, w, env, e, upto);
    delivered := Next(cfg, w, Deliver(e, upto)).delivered;
    assert Next(cfg, w, Deliver(e, upto)).state == Step(env, w.state, e);
    StepKeepsSpec(env, w.state, e, run);
  }

  lemma OwnedTurn(cfg: Config, w: World, env: Env, run: string, e: Event) returns (t: Turn)
    requires Healthy(cfg, w) && Serves(cfg, w.state, run, env) && Owned(w.state, run, e)
    ensures EnvAt(cfg, w.state, e) == Some(env) && TurnAt(env, w.state, e) == Some(t)
    ensures t.passed || t.isGate
    ensures t.isGate ==>
      Lookup(t.env.pipeline.nodes, t.key.node).Some? && Lookup(t.env.pipeline.nodes, t.key.node).value.goalGate.Some?
    ensures t.env == env
  {
    hide Healthy;
    t := TurnAt(env, w.state, e).value;
  }

  lemma {:induction false} HealthyHandle(cfg: Config, w: World, env: Env, run: string, ws: seq<Write>,
    events: seq<Event>)
    returns (delivered: set<RowKey>)
    requires SoundConfig(cfg) && Healthy(cfg, w) && Serves(cfg, w.state, run, env)
    requires forall e | e in events :: Owned(w.state, run, e)
    ensures
      var after := HandleAll(env, Pass(w.state, ws, false), events);
      !after.raised && Healthy(cfg, World(after.state, delivered)) && Serves(cfg, after.state, run, env)
    decreases |events|
  {
    hide Healthy, PlanOf, SoundConfig, Owned, Serves;
    if events == [] {
      delivered := w.delivered;
    } else {
      var n := |events| - 1;
      assert events[n] in events && forall e | e in events[..n] :: e in events;
      var d := HealthyHandle(cfg, w, env, run, ws, events[..n]);
      var before := HandleAll(env, Pass(w.state, ws, false), events[..n]);
      HealthyBijective(cfg, w);
      HandleKeeps(env, Pass(w.state, ws, false), events[..n]);
      delivered := HealthyStep(cfg, World(before.state, d), env, run, events[n]);
    }
  }

  lemma HealthyBijective(cfg: Config, w: World)
    requires Healthy(cfg, w)
    ensures Bijective(w.state)
  {
  }

  lemma {:induction false} HealthyPass(cfg: Config, w: World, env: Env, run: string, ws: seq<Write>, log: seq<Event>,
    cursor: int, size: nat)
    requires InOrder(log) && SoundConfig(cfg) && Healthy(cfg, w) && Serves(cfg, w.state, run, env)
    ensures !PassOver(Some(env), Pass(w.state, ws, false), run, log, cursor, size).raised
    decreases |Past(log, cursor)|
  {
    hide Healthy, SoundConfig, Bijective, Owned, Past, HandleAll, OwnedOf, PassOver, Attempted, Continues, ReadAt;
    var o := Pass(w.state, ws, false);
    var own := OwnedOf(o.state, run, Batch(log, cursor, size));
    HealthyBijective(cfg, w);
    var d := HealthyHandle(cfg, w, env, run, ws, own);
    if Continues(env, o, run, log, cursor, size) {
      OneBatchOn(env, o, run, log, cursor, size);
      var after := HandleAll(env, o, own);
      HealthyPass(cfg, World(after.state, d), env, run, after.writes, log, LastId(env, o, run, log, cursor, size),
        size);
    } else {
      LastBatch(env, o, run, log, cursor, size);
    }
  }

  /** Main result: after every history over safe ids and bounded fan-outs,
      replaying any log into any of its runs raises nothing. */
  lemma ReplayNeverRaises(cfg: Config, actions: seq<Action>, run: string, log: seq<Event>, size: nat)
    requires InOrder(log) && SoundConfig(cfg) && run in After(cfg, actions).state.runs
    ensures
      var s := After(cfg, actions).state;
      && KnownRun(cfg, s, run)
      && !EndOf(Env(PipelineFor(cfg, s, run), None), s, run, log, size).raised
  {
    hide Healthy, SoundConfig, PassOver;
    var w := After(cfg, actions);
    HistoriesHealthy(cfg, actions);
    KnowsRuns(cfg, w, run);
    AnyTools(cfg, w, None);
    SoundAnyTools(cfg, None);
    HealthyPass(cfg.(tools := None), w, Env(PipelineFor(cfg, w.state, run), None), run, [], log,
      w.state.runs[run].cursor, size);
  }

  lemma SoundAnyTools(cfg: Config, tools: Tools)
    requires SoundConfig(cfg)
    ensures SoundConfig(cfg.(tools := tools))
  {
  }

  lemma KnowsRuns(cfg: Config, w: World, run: string)
    requires Healthy(cfg, w) && run in w.state.runs
    ensures KnownRun(cfg, w.state, run)
  {
  }

  /** So none of the passes of a reconciliation raises. */
  lemma ReconcileNeverRaises(cfg: Config, actions: seq<Action>, log: seq<Event>, order: seq<string>, size: nat)
    requires InOrder(log) && SoundConfig(cfg)
    ensures NoneRaises(cfg.specs, After(cfg, actions).state, log, order, size)
  {
    hide PassOver, SoundConfig, After;
    var s := After(cfg, actions).state;
    forall r | r in order
      ensures !OneRun(cfg.specs, s, log, r, size).raised
    {
      if r in s.runs {
        ReplayNeverRaises(cfg, actions, r, log, size);
      }
    }
  }
}

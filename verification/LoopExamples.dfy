/** Histories of two valid pipelines with gates. */
module LoopExamples {
  import opened Basics
  import opened Pipelines
  import opened Keys
  import opened RunState
  import opened Advance
  import opened Invariants
  import opened Histories
  import opened GateLoop
  import opened Scenarios

  function Gated(id: string, target: string): Node {
    Coder(id, CODERGEN).(goalGate := Some(GoalGatePolicy(target, 2)))
  }

  function Launches(spec: string): seq<Action> {
    [Launch("r", spec, map[], WHOLE)]
  }

  lemma SafeNames()
    ensures SafeId("r") && SafeId("start") && SafeId("impl") && SafeId("review") && SafeId("fix") && SafeId("end")
  {
    assert WithoutNewline("r") == "r" && WithoutNewline("start") == "start" && WithoutNewline("impl") == "impl";
    assert WithoutNewline("review") == "review" && WithoutNewline("fix") == "fix" && WithoutNewline("end") == "end";
  }

  // ---- A gate that fails twice ---------------------------------------------------------

  /** start -> impl -> review -> end; review is a gate that sends back to impl,
      with two attempts. */
  function LoopPipeline(): Pipeline {
    Pipeline("loop",
      [Bare("start", START), Coder("impl", CODERGEN), Gated("review", "impl"), Bare("end", EXIT)],
      [Link("start", "impl"), Link("impl", "review"), Link("review", "end")], [])
  }

  function LoopEnv(): Env {
    Env(LoopPipeline(), None)
  }

  const CHAIN := ["impl", "review"]

  /** Round `a`: impl completes, review completes without a passing verdict. */
  function Round(a: nat): seq<Event> {
    [Done(RowKey("r", "impl", a), 2 * a - 1), Done(RowKey("r", "review", a), 2 * a)]
  }

  lemma LoopNodes()
    ensures
      var ns := LoopPipeline().nodes;
      && |ns| == 4 && ns[0] == Bare("start", START)
      && Lookup(ns, "start") == Some(ns[0]) && Lookup(ns, "impl") == Some(Coder("impl", CODERGEN))
      && Lookup(ns, "review") == Some(Gated("review", "impl")) && Lookup(ns, "end").Some?
  {
    hide Lookup;
    var ns := LoopPipeline().nodes;
    LookupIs(ns, ns[0]);
    LookupIs(ns, ns[1]);
    LookupIs(ns, ns[2]);
    LookupIs(ns, ns[3]);
  }

  lemma LoopEdges()
    ensures OutEdges(LoopPipeline().edges, "start") == [Link("start", "impl")]
    ensures OutEdges(LoopPipeline().edges, "impl") == [Link("impl", "review")]
  {
    hide OutEdges;
    OutEdgesOne(LoopPipeline().edges, "start", 0);
    OutEdgesOne(LoopPipeline().edges, "impl", 1);
  }

  lemma LoopValid()
    ensures ValidPipeline(LoopPipeline())
  {
    hide ValidPipeline, Ids, Lookup;
    var es := LoopPipeline().edges;
    assert es[0] in es && es[1] in es && es[2] in es;
    LoopNodes();
    ForwardValid(LoopPipeline(), [0, 0, 1, 2]);
  }

  lemma LoopIsChain()
    ensures Chain(LoopPipeline(), CHAIN) && MaxAttempts(LoopPipeline(), "review") == 2
  {
    hide Lookup, OutEdges, SafeId, LoopPipeline;
    SafeNames();
    LoopNodes();
    LoopEdges();
    assert ChainLink(LoopPipeline(), "impl", "review");
  }

  /** The launch enters the loop in step. */
  lemma LoopStart()
    ensures
      var s := StateAfter(Solo("loop", LoopPipeline()), Launches("loop"));
      && Bijective(s) && InLockstep(s, "r", CHAIN, 1, 0) && "r" in s.runs && s.runs["r"].status == RUNNING
  {
    hide SafeId, KeyText, Bijective, ValidPipeline, StateAfter, LoopPipeline, Lookup, OutEdges;
    SafeNames();
    LoopNodes();
    LoopEdges();
    LoopValid();
    Launched("loop", LoopPipeline(), "r", Coder("impl", CODERGEN));
    var s := StateAfter(Solo("loop", LoopPipeline()), Launches("loop"));
    assert AttemptsOf(s.rows, "r", "impl") == {1};
    assert AttemptsOf(s.rows, "r", "review") == {};
    assert UpTo(1) == {1} && UpTo(0) == {};
  }

  lemma {:induction false} DeliveriesConcat(env: Env, s: State, a: seq<Event>, b: seq<Event>)
    ensures Deliveries(env, s, a + b) == Deliveries(env, Deliveries(env, s, a), b)
    decreases |b|
  {
    hide Step;
    if b == [] {
      assert a + b == a;
    } else {
      assert (a + b)[..|a + b| - 1] == a + b[..|b| - 1];
      DeliveriesConcat(env, s, a, b[..|b| - 1]);
    }
  }

  lemma RoundsAreDeliveries(env: Env, s: State, a: seq<Event>, b: seq<Event>)
    ensures AfterRounds(env, s, [a]) == Deliveries(env, s, a)
    ensures AfterRounds(env, s, [a, b]) == Deliveries(env, s, a + b)
  {
    hide Deliveries;
    assert [a, b][..1] == [a] && [a][..0] == [];
    assert AfterRounds(env, s, []) == s;
    DeliveriesConcat(env, s, a, b);
  }

  /** The first failure sends the run round again, the second blocks it. */
  lemma SecondFailureBlocks()
    ensures
      var cfg := Solo("loop", LoopPipeline());
      var once, twice := StateAfter(cfg, Launches("loop") + Whole(Round(1))),
        StateAfter(cfg, Launches("loop") + Whole(Round(1) + Round(2)));
      && "r" in once.runs && once.runs["r"].status != BLOCKED
      && "r" in twice.runs && twice.runs["r"].status == BLOCKED
  {
    hide SafeId, KeyText, Chain, InLockstep, Bijective, AfterRounds, StateAfter, LoopPipeline, Deliveries;
    var s := StateAfter(Solo("loop", LoopPipeline()), Launches("loop"));
    LoopIsChain();
    LoopStart();
    assert FailedRound("r", CHAIN, 1, Round(1)) && FailedRound("r", CHAIN, 2, Round(2));
    Lockstep(LoopEnv(), s, "r", CHAIN, [Round(1)]);
    Lockstep(LoopEnv(), s, "r", CHAIN, [Round(1), Round(2)]);
    RoundsAreDeliveries(LoopEnv(), s, Round(1), Round(2));
    WholeDeliveries("loop", LoopPipeline(), Launches("loop"), Round(1));
    WholeDeliveries("loop", LoopPipeline(), Launches("loop"), Round(1) + Round(2));
  }

  // ---- A retry target off the path -------------------------------------------------------

  /** start -> review -> end, and review -> fix -> review; review sends back to fix,
      which no run reaches before the gate's first failure. */
  function DetourPipeline(): Pipeline {
    Pipeline("detour",
      [Bare("start", START), Gated("review", "fix"), Coder("fix", CODERGEN), Bare("end", EXIT)],
      [Link("start", "review"), Link("review", "fix"), Link("review", "end"), Link("fix", "review")], [])
  }

  lemma DetourNodes()
    ensures
      var ns := DetourPipeline().nodes;
      && |ns| == 4 && ns[0] == Bare("start", START)
      && Lookup(ns, "start") == Some(ns[0]) && Lookup(ns, "review") == Some(Gated("review", "fix"))
      && Lookup(ns, "fix") == Some(Coder("fix", CODERGEN)) && Lookup(ns, "end").Some?
  {
    hide Lookup;
    var ns := DetourPipeline().nodes;
    LookupIs(ns, ns[0]);
    LookupIs(ns, ns[1]);
    LookupIs(ns, ns[2]);
    LookupIs(ns, ns[3]);
  }

  lemma DetourValid()
    ensures ValidPipeline(DetourPipeline()) && OutEdges(DetourPipeline().edges, "start") == [Link("start", "review")]
  {
    hide ValidPipeline, Ids, Lookup, OutEdges;
    var es := DetourPipeline().edges;
    assert es[0] in es && es[1] in es && es[2] in es;
    DetourNodes();
    OutEdgesOne(es, "start", 0);
    ForwardValid(DetourPipeline(), [0, 0, 1, 1]);
  }

  /** The first failure dispatches fix as attempt 2; it never has an attempt 1. */
  lemma DetourSkipsFirst()
    ensures
      var after := StateAfter(Solo("detour", DetourPipeline()),
        Launches("detour") + Whole([Done(RowKey("r", "review", 1), 1)]));
      AttemptsOf(after.rows, "r", "fix") == {2} && forall a :: AttemptsOf(after.rows, "r", "fix") != UpTo(a)
  {
    hide SafeId, KeyText, Bijective, ValidPipeline, StateAfter, DetourPipeline, Lookup, OutEdges, Step;
    var p, e := DetourPipeline(), Done(RowKey("r", "review", 1), 1);
    SafeNames();
    DetourNodes();
    DetourValid();
    Launched("detour", p, "r", Gated("review", "fix"));
    var s := StateAfter(Solo("detour", p), Launches("detour"));
    assert AttemptsOf(s.rows, "r", "fix") == {};
    OffPathSkipsFirst(Env(p, None), s, e, RowKey("r", "review", 1), "fix");
    WholeDeliveries("detour", p, Launches("detour"), [e]);
    OneDelivery(Env(p, None), s, e);
  }

  lemma OneDelivery(env: Env, s: State, e: Event)
    ensures Deliveries(env, s, [e]) == Step(env, s, e)
  {
    hide Step;
    assert [e][..0] == [];
  }
}

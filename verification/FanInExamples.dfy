/** Histories of two valid pipelines with a fan-in. */
module FanInExamples {
  import opened Basics
  import opened Values
  import opened Pipelines
  import opened EdgeSelector
  import opened ContextMerge
  import opened Keys
  import opened RunState
  import opened Advance
  import opened Invariants
  import opened CrashReplay
  import opened Histories
  import opened GateLoop
  import opened FanInConfluence
  import opened Remerge
  import opened Redelivery
  import opened Scenarios

  /** Launch, and the completion of the fan-out behind START. */
  function Opening(spec: string): seq<Action> {
    [Launch("r", spec, map[], WHOLE), Deliver(Done(Key("split"), 1), WHOLE)]
  }

  /** A completion that sets x. */
  function Sets(node: string, id: int, x: string): Event {
    Event(TaskOf(Key(node)), id, map["context_updates" := Dict(map["x" := Str(x)])])
  }

  lemma SafeNames()
    ensures SafeId("r") && SafeId("start") && SafeId("split") && SafeId("a") && SafeId("b") && SafeId("join")
    ensures SafeId("end")
  {
    assert WithoutNewline("r") == "r" && WithoutNewline("start") == "start" && WithoutNewline("split") == "split";
    assert WithoutNewline("a") == "a" && WithoutNewline("b") == "b" && WithoutNewline("join") == "join";
    assert WithoutNewline("end") == "end";
  }

  /** The opening of any pipeline start -> split -> {a, other}. */
  lemma Opens(spec: string, p: Pipeline, other: string)
    requires ValidPipeline(p) && p.nodes != [] && p.nodes[0] == Bare("start", START) && SafeId(other)
    requires other !in {"split", "a"}
    requires OutEdges(p.edges, "start") == [Link("start", "split")]
    requires OutEdges(p.edges, "split") == [Link("split", "a"), Link("split", other)]
    requires Lookup(p.nodes, "split") == Some(Coder("split", FAN_OUT)) && Lookup(p.nodes, "a").Some?
    requires Lookup(p.nodes, other).Some?
    ensures
      var s := StateAfter(Solo(spec, p), Opening(spec));
      && Bijective(s) && s.runs == map["r" := Run(spec, RUNNING, map[], 1)]
      && s.rows.Keys == {Key("split"), Key("a"), Key(other)}
      && s.rows[Key("split")].status == NodeSucceeded
      && s.rows[Key("a")].status == Dispatched && s.rows[Key(other)].status == Dispatched
  {
    hide ValidPipeline, StateAfter, CrashAt, Step, Bijective, SafeId, KeyText, Lookup, OutEdges;
    var env, launch, e := Env(p, None), [Launch("r", spec, map[], WHOLE)], Done(Key("split"), 1);
    SafeNames();
    Launched(spec, p, "r", Coder("split", FAN_OUT));
    var s := StateAfter(Solo(spec, p), launch);
    DeliverIsStep(spec, p, launch, e, WHOLE);
    WholeIsStep(env, s, e, WHOLE);
    assert launch + [Deliver(e, WHOLE)] == Opening(spec);
    DeliverIsStep(spec, p, Opening(spec), e, 0);
    OpensSplit(spec, p, other, s);
  }

  lemma OpensSplit(spec: string, p: Pipeline, other: string, s: State)
    requires SafeId(other) && other !in {"split", "a"}
    requires OutEdges(p.edges, "split") == [Link("split", "a"), Link("split", other)]
    requires Lookup(p.nodes, "split") == Some(Coder("split", FAN_OUT)) && Lookup(p.nodes, "a").Some?
    requires Lookup(p.nodes, other).Some?
    requires Bijective(s) && s.runs == map["r" := Run(spec, RUNNING, map[], 0)] && s.rows.Keys == {Key("split")}
    ensures
      var after := Step(Env(p, None), s, Done(Key("split"), 1));
      && after.runs == map["r" := Run(spec, RUNNING, map[], 1)]
      && after.rows.Keys == {Key("split"), Key("a"), Key(other)}
      && after.rows[Key("split")].status == NodeSucceeded
      && after.rows[Key("a")].status == Dispatched && after.rows[Key(other)].status == Dispatched
  {
    hide Step, Bijective, SafeId, KeyText, Lookup, OutEdges;
    SafeNames();
    SplitSteps(Env(p, None), s, Key("split"), 1);
    assert (set x | x in OutEdges(p.edges, "split") :: RowKey("r", x.target, 1)) == {Key("a"), Key(other)};
  }

  lemma LatestFirst(rows: Rows, node: string)
    requires Key(node) in rows && forall k | k in rows && k.node == node :: k.attempt == 1
    requires forall k | k in rows :: k.run == "r"
    ensures LatestKey(rows, "r", node) == Key(node)
  {
    assert AttemptsOf(rows, "r", node) == {1};
  }

  // ---- Two branches in both orders -------------------------------------------------------

  /** start -> split, which fans out to a and b, both into join -> end. */
  function JoinPipeline(): Pipeline {
    Pipeline("join",
      [Bare("start", START), Coder("split", FAN_OUT), Coder("a", CODERGEN), Coder("b", CODERGEN), Coder("join", FAN_IN),
        Bare("end", EXIT)],
      [Link("start", "split"), Link("split", "a"), Link("split", "b"), Link("a", "join"), Link("b", "join"),
        Link("join", "end")], [])
  }

  function JoinEnv(): Env {
    Env(JoinPipeline(), None)
  }

  function JoinNode(): Node {
    Coder("join", FAN_IN)
  }

  lemma JoinNodes()
    ensures
      var ns := JoinPipeline().nodes;
      && |ns| == 6 && ns[0] == Bare("start", START)
      && Lookup(ns, "start") == Some(ns[0]) && Lookup(ns, "split") == Some(Coder("split", FAN_OUT))
      && Lookup(ns, "a") == Some(Coder("a", CODERGEN)) && Lookup(ns, "b") == Some(Coder("b", CODERGEN))
      && Lookup(ns, "join") == Some(JoinNode()) && Lookup(ns, "end").Some?
  {
    hide Lookup;
    var ns := JoinPipeline().nodes;
    LookupIs(ns, ns[0]);
    LookupIs(ns, ns[1]);
    LookupIs(ns, ns[2]);
    LookupIs(ns, ns[3]);
    LookupIs(ns, ns[4]);
    LookupIs(ns, ns[5]);
  }

  lemma JoinEdges()
    ensures
      var es := JoinPipeline().edges;
      && OutEdges(es, "start") == [Link("start", "split")]
      && OutEdges(es, "split") == [Link("split", "a"), Link("split", "b")]
      && OutEdges(es, "a") == [Link("a", "join")] && OutEdges(es, "b") == [Link("b", "join")]
      && Predecessors(es, "join") == {"a", "b"}
  {
    hide OutEdges;
    var es := JoinPipeline().edges;
    OutEdgesOne(es, "start", 0);
    OutEdgesTwo(es, "split", 1, 2);
    OutEdgesOne(es, "a", 3);
    OutEdgesOne(es, "b", 4);
    assert es[3] in es && es[4] in es;
  }

  lemma JoinFed()
    ensures
      var p := JoinPipeline();
      Fed(p, "start", "split") && Fed(p, "split", "a") && Fed(p, "split", "b") && Fed(p, "a", "join")
      && Fed(p, "join", "end")
  {
    var es := JoinPipeline().edges;
    assert es[0] in es && es[1] in es && es[2] in es && es[3] in es && es[5] in es;
  }

  lemma JoinValid()
    ensures ValidPipeline(JoinPipeline())
  {
    hide ValidPipeline, Ids, Lookup, Fed;
    JoinFed();
    JoinNodes();
    ForwardValid(JoinPipeline(), [0, 0, 1, 1, 2, 4]);
  }

  lemma JoinOpen()
    ensures
      var s := StateAfter(Solo("join", JoinPipeline()), Opening("join"));
      && Bijective(s) && s.runs == map["r" := Run("join", RUNNING, map[], 1)]
      && s.rows.Keys == {Key("split"), Key("a"), Key("b")}
      && s.rows[Key("a")].status == Dispatched && s.rows[Key("b")].status == Dispatched
      && LatestKey(s.rows, "r", "a") == Key("a") && LatestKey(s.rows, "r", "b") == Key("b")
  {
    hide ValidPipeline, Bijective, StateAfter, SafeId, Lookup, OutEdges, JoinPipeline, LatestKey, Predecessors;
    SafeNames();
    JoinValid();
    JoinNodes();
    JoinEdges();
    Opens("join", JoinPipeline(), "b");
    var rows := StateAfter(Solo("join", JoinPipeline()), Opening("join")).rows;
    LatestFirst(rows, "a");
    LatestFirst(rows, "b");
  }

  /** Either branch may complete first. */
  lemma JoinMoves(s: State, node: string, id: int, x: string)
    requires node == "a" || node == "b"
    requires Key(node) in s.rows && s.rows[Key(node)].status == Dispatched && LatestKey(s.rows, "r", node) == Key(node)
    ensures FansInto(JoinEnv(), JoinNode())
    ensures
      var e := Sets(node, id, x);
      Moves(JoinEnv(), s, "r", JoinNode(), e, Key(node)) && Succeeds(JoinPipeline(), node, e)
      && !Retries(JoinPipeline(), Key(node), e)
  {
    hide KeyText, LatestKey, Predecessors, Lookup, OutEdges, SafeId, JoinPipeline;
    SafeNames();
    JoinNodes();
    JoinEdges();
  }

  /** Two open branches, completed one after the other, make a course that ends
      with every branch done. */
  lemma TwoBranches(env: Env, s: State, run: string, fan: Node, d: Event, j: RowKey, e: Event, k: RowKey)
    requires Bijective(s) && run in s.runs && FansInto(env, fan) && j.node != k.node
    requires Predecessors(env.pipeline.edges, fan.id) == {j.node, k.node}
    requires Moves(env, s, run, fan, d, j) && Succeeds(env.pipeline, j.node, d) && !Retries(env.pipeline, j, d)
    requires Moves(env, s, run, fan, e, k) && Succeeds(env.pipeline, k.node, e) && !Retries(env.pipeline, k, e)
    ensures Course(env, s, run, fan, [d, e])
    ensures AllDone(Deliveries(env, s, [d, e]).rows, run, {j.node, k.node})
    ensures Moves(env, Step(env, s, d), run, fan, e, k)
    ensures Along(env, s, Step(env, s, d), run, fan, {d})
  {
    hide Step, Bijective, IsBranch, Succeeds, Retries, LatestKey, KeyText, PlanOf, FinalUpdates, Predecessors;
    var marked := s.rows[j := MarkedBy(s.rows[j], d)];
    SameKeysSameLatest(s.rows, marked, run, j.node);
    SameKeysSameLatest(s.rows, marked, run, k.node);
    assert !IsDone(marked, LatestKey(marked, run, k.node));
    BranchWaits(env, s, d, j, fan);
    AlongAtFirst(env, s, run, fan);
    AlongStep(env, s, s, run, fan, {}, d, j);
    var w := Step(env, s, d);
    assert Moves(env, w, run, fan, e, k);
    SameKeysSameLatest(w.rows, w.rows[k := MarkedBy(w.rows[k], e)], run, j.node);
    SameKeysSameLatest(w.rows, w.rows[k := MarkedBy(w.rows[k], e)], run, k.node);
    assert {} + {d} == {d};
    LastFires(env, s, w, run, fan, {d}, e, k);
    CourseOfTwo(env, s, run, fan, d, j, e, k);
  }

  lemma CourseOfTwo(env: Env, s: State, run: string, fan: Node, d: Event, j: RowKey, e: Event, k: RowKey)
    requires Moves(env, s, run, fan, d, j) && Moves(env, Step(env, s, d), run, fan, e, k)
    ensures Course(env, s, run, fan, [d, e]) && Deliveries(env, s, [d, e]) == Step(env, Step(env, s, d), e)
  {
    hide Step, Moves;
    assert [d, e][..1] == [d] && [d][..0] == [];
    assert Deliveries(env, s, [d]) == Step(env, s, d);
    assert Course(env, s, run, fan, [d]) by {
      assert Course(env, s, run, fan, []) && Moves(env, Deliveries(env, s, [d][..0]), run, fan, [d][0], j);
    }
    assert Moves(env, Deliveries(env, s, [d, e][..1]), run, fan, [d, e][1], k);
  }

  /** Whichever branch completes first, the run's context ends the same. */
  lemma BothOrdersAgree()
    ensures
      var cfg, d, e := Solo("join", JoinPipeline()), Sets("a", 2, "left"), Sets("b", 3, "right");
      var first, second := StateAfter(cfg, Opening("join") + Whole([d, e])),
        StateAfter(cfg, Opening("join") + Whole([e, d]));
      "r" in first.runs && "r" in second.runs && first.runs["r"].context == second.runs["r"].context
  {
    hide Bijective, Moves, Succeeds, Retries, Course, Deliveries, KeyText, AllDone, Sets, JoinPipeline, StateAfter;
    hide FansInto, LatestKey, Along;
    hide Predecessors, OutEdges, Lookup, Step;
    var s, env := StateAfter(Solo("join", JoinPipeline()), Opening("join")), JoinEnv();
    var d, e := Sets("a", 2, "left"), Sets("b", 3, "right");
    JoinOpen();
    JoinEdges();
    JoinMoves(s, "a", 2, "left");
    JoinMoves(s, "b", 3, "right");
    TwoBranches(env, s, "r", JoinNode(), d, Key("a"), e, Key("b"));
    TwoBranches(env, s, "r", JoinNode(), e, Key("b"), d, Key("a"));
    StillOpen(env, s, "r", JoinNode(), d, Key("a"));
    assert {"b", "a"} == {"a", "b"};
    assert forall x :: x in [d, e] <==> x in [e, d];
    CompletionOrderIrrelevant(env, s, "r", JoinNode(), [d, e], [e, d]);
    WholeDeliveries("join", JoinPipeline(), Opening("join"), [d, e]);
    WholeDeliveries("join", JoinPipeline(), Opening("join"), [e, d]);
  }

  // ---- The last completion, twice ----------------------------------------------------------

  /** Every branch's updates, wherever its node stands in the order. */
  lemma {:induction false} UpdatesHave(rows: Rows, run: string, ids: seq<string>, i: nat)
    requires i < |ids|
    ensures |UpdatesOf(rows, run, ids)| == |ids|
    ensures
      var k := LatestKey(rows, run, ids[i]);
      UpdatesOf(rows, run, ids)[i] == if k in rows then rows[k].updates else map[]
    decreases |ids|
  {
    hide LatestKey;
    var n := |ids| - 1;
    if n > 0 {
      UpdatesHave(rows, run, ids[..n], if i < n then i else 0);
    }
  }

  /** Branches that all set x to a string write only strings to it. */
  lemma {:induction false} StringsOnly(branches: seq<Data>)
    requires forall b: Data | b in branches :: "x" in b && b["x"].Str?
    ensures |BranchWrites(branches, "x")| == |branches| && forall w | w in BranchWrites(branches, "x") :: w.Str?
    decreases |branches|
  {
    if branches != [] {
      var n := |branches| - 1;
      assert branches[n] in branches && forall b: Data | b in branches[..n] :: b in branches;
      StringsOnly(branches[..n]);
    }
  }

  /** The state before the last completion, and what it carries. */
  lemma JoinAlmost()
    ensures
      var s := StateAfter(Solo("join", JoinPipeline()), Opening("join") + Whole([Sets("a", 2, "left")]));
      && Bijective(s) && "r" in s.runs && s.runs["r"].context == map[]
      && Key("b") in s.rows && LatestKey(s.rows, "r", "b") == Key("b")
      && Key("a") in s.rows && LatestKey(s.rows, "r", "a") == Key("a")
      && IsDone(s.rows, Key("a")) && s.rows[Key("a")].updates == map["x" := Str("left")]
  {
    hide Bijective, KeyText, AllDone, JoinPipeline, StateAfter, LatestKey, Predecessors, OutEdges, Lookup, Step;
    hide IsBranch, Succeeds;
    var s, d := StateAfter(Solo("join", JoinPipeline()), Opening("join")), Sets("a", 2, "left");
    JoinOpen();
    JoinEdges();
    JoinMoves(s, "a", 2, "left");
    var marked := s.rows[Key("a") := MarkedBy(s.rows[Key("a")], d)];
    SameKeysSameLatest(s.rows, marked, "r", "a");
    SameKeysSameLatest(s.rows, marked, "r", "b");
    NotBothDone(marked);
    BranchWaits(JoinEnv(), s, d, Key("a"), JoinNode());
    StepBijective(JoinEnv(), s, d);
    WholeDeliveries("join", JoinPipeline(), Opening("join"), [d]);
    OneDelivered(JoinEnv(), s, d);
  }

  lemma NotBothDone(rows: Rows)
    requires LatestKey(rows, "r", "b") == Key("b") && Key("b") in rows && rows[Key("b")].status == Dispatched
    ensures !AllDone(rows, "r", {"a", "b"})
  {
    hide LatestKey;
    assert !IsDone(rows, LatestKey(rows, "r", "b"));
  }

  lemma OneDelivered(env: Env, s: State, e: Event)
    ensures Deliveries(env, s, [e]) == Step(env, s, e)
  {
    hide Step;
    assert [e][..0] == [];
  }

  lemma TwoDelivered(env: Env, s: State, d: Event, e: Event)
    ensures Deliveries(env, s, [d, e]) == Step(env, Step(env, s, d), e)
    ensures Deliveries(env, s, [d, e, e]) == Step(env, Step(env, Step(env, s, d), e), e)
  {
    hide Step;
    assert [d, e, e][..2] == [d, e] && [d, e][..1] == [d] && [d][..0] == [];
    assert Deliveries(env, s, [d]) == Step(env, s, d);
  }

  /** The last branch's turn. */
  lemma JoinFires(s: State, e: Event)
    requires Bijective(s) && "r" in s.runs && s.runs["r"].context == map[] && e == Sets("b", 3, "right")
    requires Key("b") in s.rows && LatestKey(s.rows, "r", "b") == Key("b")
    requires Key("a") in s.rows && LatestKey(s.rows, "r", "a") == Key("a")
    requires IsDone(s.rows, Key("a")) && s.rows[Key("a")].updates == map["x" := Str("left")]
    ensures
      var t := TurnOf(JoinEnv(), Key("b"), s.runs["r"], e);
      var rows := s.rows[Key("b") := MarkedBy(s.rows[Key("b")], e)];
      var updates := UpdatesOf(rows, "r", Sorted({"a", "b"}));
      && TurnAt(JoinEnv(), s, e) == Some(t) && Entered(t) == Some(JoinNode()) && MarkedRows(t, s.rows) == rows
      && PlanOf(JoinEnv(), s, e).exit == FanInFired && Entered(MergedTurn(t, JoinNode(), rows)) == Some(JoinNode())
      && !RemergeSilent(map[], updates) && !SelfBlocking(t, JoinNode(), rows)
  {
    JoinSelected(s, e);
    JoinMergesAgain(s, e);
  }

  lemma JoinMergesAgain(s: State, e: Event)
    requires e == Sets("b", 3, "right") && Key("b") in s.rows && LatestKey(s.rows, "r", "b") == Key("b")
    requires Key("a") in s.rows && LatestKey(s.rows, "r", "a") == Key("a")
      && s.rows[Key("a")].updates == map["x" := Str("left")]
    ensures
      var rows := s.rows[Key("b") := MarkedBy(s.rows[Key("b")], e)];
      !RemergeSilent(map[], UpdatesOf(rows, "r", Sorted({"a", "b"})))
  {
    hide KeyText, LatestKey, RemergeSilent, Sorted, UpdatesOf;
    var rows := s.rows[Key("b") := MarkedBy(s.rows[Key("b")], e)];
    SameKeysSameLatest(s.rows, rows, "r", "a");
    SameKeysSameLatest(s.rows, rows, "r", "b");
    BothWriteX(rows);
    NewScalarsRecorded(map[], UpdatesOf(rows, "r", Sorted({"a", "b"})), "x");
  }

  lemma JoinSelected(s: State, e: Event)
    requires Bijective(s) && "r" in s.runs && e == Sets("b", 3, "right")
    requires Key("b") in s.rows && LatestKey(s.rows, "r", "b") == Key("b")
    requires Key("a") in s.rows && LatestKey(s.rows, "r", "a") == Key("a") && IsDone(s.rows, Key("a"))
    ensures
      var t := TurnOf(JoinEnv(), Key("b"), s.runs["r"], e);
      var rows := s.rows[Key("b") := MarkedBy(s.rows[Key("b")], e)];
      && TurnAt(JoinEnv(), s, e) == Some(t) && Entered(t) == Some(JoinNode()) && MarkedRows(t, s.rows) == rows
      && PlanOf(JoinEnv(), s, e).exit == FanInFired && Entered(MergedTurn(t, JoinNode(), rows)) == Some(JoinNode())
      && !SelfBlocking(t, JoinNode(), rows)
  {
    hide Bijective, KeyText, JoinPipeline, LatestKey, Predecessors, OutEdges, Lookup, Select, SafeId, RemergeSilent;
    hide Sorted, UpdatesOf, FanInContext;
    hide PlanOf, Step, Entered, Merged;
    var rows := s.rows[Key("b") := MarkedBy(s.rows[Key("b")], e)];
    SafeNames();
    JoinNodes();
    JoinEdges();
    assert IsBranch(JoinPipeline(), "b", JoinNode()) && Succeeds(JoinPipeline(), "b", e);
    SameKeysSameLatest(s.rows, rows, "r", "a");
    SameKeysSameLatest(s.rows, rows, "r", "b");
    BranchEnters(JoinEnv(), s, e, Key("b"), JoinNode());
    BranchFires(JoinEnv(), s, e, Key("b"), JoinNode());
    var t := TurnOf(JoinEnv(), Key("b"), s.runs["r"], e);
    UnguardedEnters(t, JoinNode(), rows);
  }

  lemma BothWriteX(rows: Rows)
    requires LatestKey(rows, "r", "a") == Key("a") && LatestKey(rows, "r", "b") == Key("b") && Key("a") in rows
    requires Key("b") in rows
    requires rows[Key("a")].updates == map["x" := Str("left")] && rows[Key("b")].updates == map["x" := Str("right")]
    ensures
      var writes := BranchWrites(UpdatesOf(rows, "r", Sorted({"a", "b"})), "x");
      writes != [] && forall w | w in writes :: w.Str?
  {
    hide LatestKey, Sorted, UpdatesOf, BranchWrites;
    var ids := Sorted({"a", "b"});
    var updates := UpdatesOf(rows, "r", ids);
    assert |ids| == 2 && ids[0] in ids && ids[1] in ids;
    UpdatesHave(rows, "r", ids, 0);
    UpdatesHave(rows, "r", ids, 1);
    StringsOnly(updates);
  }

  /** The last branch's completion, delivered twice, merges its fan-in twice: the
      second time the conflict record changes. */
  lemma SecondMergeChanges()
    ensures
      var cfg, d, e := Solo("join", JoinPipeline()), Sets("a", 2, "left"), Sets("b", 3, "right");
      StateAfter(cfg, Opening("join") + Whole([d, e, e])) != StateAfter(cfg, Opening("join") + Whole([d, e]))
  {
    hide Bijective, KeyText, JoinPipeline, StateAfter, LatestKey, Step, RemergeSilent, Sorted, UpdatesOf, PlanOf;
    hide Entered, SelfBlocking, Predecessors;
    hide Lookup, OutEdges, Sets, FanInContext;
    var cfg, d, e := Solo("join", JoinPipeline()), Sets("a", 2, "left"), Sets("b", 3, "right");
    var s := StateAfter(cfg, Opening("join"));
    var w := Step(JoinEnv(), s, d);
    WholeDeliveries("join", JoinPipeline(), Opening("join"), [d]);
    WholeDeliveries("join", JoinPipeline(), Opening("join"), [d, e]);
    WholeDeliveries("join", JoinPipeline(), Opening("join"), [d, e, e]);
    OneDelivered(JoinEnv(), s, d);
    TwoDelivered(JoinEnv(), s, d, e);
    JoinAlmost();
    JoinEdges();
    JoinFires(w, e);
    FanInAgain(JoinEnv(), w, e, TurnOf(JoinEnv(), Key("b"), w.runs["r"], e), JoinNode());
  }

  // ---- A fan-in that is its own predecessor ---------------------------------------------------

  /** start -> split, which fans out to a and join; a -> join, join -> join by
      preference, join -> end. */
  function SelfPipeline(): Pipeline {
    Pipeline("self",
      [Bare("start", START), Coder("split", FAN_OUT), Coder("a", CODERGEN), Coder("join", FAN_IN), Bare("end", EXIT)],
      [Link("start", "split"), Link("split", "a"), Link("split", "join"), Link("a", "join"),
        Link("join", "join").(weight := 1), Link("join", "end")],
      [])
  }

  function SelfEnv(): Env {
    Env(SelfPipeline(), None)
  }

  lemma SelfNodes()
    ensures
      var ns := SelfPipeline().nodes;
      && |ns| == 5 && ns[0] == Bare("start", START)
      && Lookup(ns, "start") == Some(ns[0]) && Lookup(ns, "split") == Some(Coder("split", FAN_OUT))
      && Lookup(ns, "a") == Some(Coder("a", CODERGEN)) && Lookup(ns, "join") == Some(JoinNode())
      && Lookup(ns, "end").Some?
  {
    hide Lookup;
    var ns := SelfPipeline().nodes;
    LookupIs(ns, ns[0]);
    LookupIs(ns, ns[1]);
    LookupIs(ns, ns[2]);
    LookupIs(ns, ns[3]);
    LookupIs(ns, ns[4]);
  }

  lemma SelfEdges()
    ensures
      var es := SelfPipeline().edges;
      && OutEdges(es, "start") == [Link("start", "split")]
      && OutEdges(es, "split") == [Link("split", "a"), Link("split", "join")]
      && OutEdges(es, "a") == [Link("a", "join")]
      && OutEdges(es, "join") == [Link("join", "join").(weight := 1), Link("join", "end")]
      && Predecessors(es, "join") == {"split", "a", "join"}
  {
    hide OutEdges;
    var es := SelfPipeline().edges;
    OutEdgesOne(es, "start", 0);
    OutEdgesTwo(es, "split", 1, 2);
    OutEdgesOne(es, "a", 3);
    OutEdgesTwo(es, "join", 4, 5);
    assert es[2] in es && es[3] in es && es[4] in es;
  }

  lemma SelfValid()
    ensures ValidPipeline(SelfPipeline())
  {
    hide ValidPipeline, Ids, Lookup, Fed;
    SelfFed();
    SelfNodes();
    ForwardValid(SelfPipeline(), [0, 0, 1, 1, 3]);
  }

  lemma SelfFed()
    ensures
      var p := SelfPipeline();
      Fed(p, "start", "split") && Fed(p, "split", "a") && Fed(p, "split", "join") && Fed(p, "join", "end")
  {
    var es := SelfPipeline().edges;
    assert es[0] in es && es[1] in es && es[2] in es && es[5] in es;
  }

  /** Of two unconditional edges the heavier wins, without hints. */
  lemma HeavierWins(edges: seq<Edge>, ctx: Data)
    requires |edges| == 2 && edges[0].condition == None && edges[1].condition == None
    requires edges[0].weight > edges[1].weight
    requires edges[0].routeLabel == None && edges[1].routeLabel == None
    ensures Select(edges, ctx, Hints(None, [])) == Ok(Some(edges[0]))
  {
    hide Select, Malformed;
    var h := Hints(None, []);
    assert edges[0] in edges && forall e | e in edges :: e == edges[0] || e == edges[1];
    NoneMalformed(edges);
    SelectOptimal(edges, ctx, h);
    assert Passes(edges[0], ctx) && Preferred(edges[0], edges[1], h);
    var chosen := Select(edges, ctx, h);
    assert chosen != Raised;
    assert chosen.value.Some?;
    assert chosen.value.value in edges;
  }

  lemma NoneMalformed(edges: seq<Edge>)
    requires forall e | e in edges :: e.condition == None
    ensures forall e | e in edges :: !Malformed(e)
  {
  }

  lemma SelfOpen()
    ensures
      var s := StateAfter(Solo("self", SelfPipeline()), Opening("self"));
      && Bijective(s) && s.runs == map["r" := Run("self", RUNNING, map[], 1)]
      && s.rows.Keys == {Key("split"), Key("a"), Key("join")}
      && s.rows[Key("split")].status == NodeSucceeded && s.rows[Key("a")].status == Dispatched
  {
    hide ValidPipeline, Bijective, StateAfter, SafeId, Lookup, OutEdges, SelfPipeline, Predecessors;
    SafeNames();
    SelfValid();
    SelfNodes();
    SelfEdges();
    Opens("self", SelfPipeline(), "join");
  }

  lemma SelfLatest(rows: Rows)
    requires rows.Keys == {Key("split"), Key("a"), Key("join")}
    ensures forall n | n in {"split", "a", "join"} :: LatestKey(rows, "r", n) == Key(n)
  {
    hide LatestKey;
    LatestFirst(rows, "split");
    LatestFirst(rows, "a");
    LatestFirst(rows, "join");
  }

  /** The fan-in's own first card completes and waits for a. */
  lemma SelfWaits(s: State)
    requires Bijective(s) && s.runs == map["r" := Run("self", RUNNING, map[], 1)]
    requires s.rows.Keys == {Key("split"), Key("a"), Key("join")} && s.rows[Key("a")].status == Dispatched
    ensures
      var after := Step(SelfEnv(), s, Done(Key("join"), 2));
      && after.rows == s.rows[Key("join") := Completed(s.rows[Key("join")])]
      && after.runs == map["r" := Run("self", RUNNING, map[], 2)]
  {
    hide Bijective, KeyText, SelfPipeline, LatestKey, Predecessors, OutEdges, Lookup, Select, Step, TailOf, Entered;
    hide SafeId;
    var e := Done(Key("join"), 2);
    SelfNodes();
    SelfEdges();
    PlainTurn(SelfEnv(), s, Key("join"), 2);
    var t := TurnOf(SelfEnv(), Key("join"), s.runs["r"], e);
    var rows := MarkedRows(t, s.rows);
    SelfEnters(t);
    SelfLatest(rows);
    assert !IsDone(rows, LatestKey(rows, "r", "a"));
    TailEnters(t, rows, rows);
    FirstStep(SelfEnv(), s, e, t);
    ImprintNothing(s.(rows := rows));
  }

  lemma SelfEnters(t: Turn)
    requires t.env == SelfEnv() && t.key == Key("join") && t.passed && HintsOf(t) == Hints(None, [])
    ensures Entered(t) == Some(JoinNode())
  {
    hide SelfPipeline, OutEdges, Lookup, Select;
    SelfNodes();
    SelfEdges();
    HeavierWins(OutEdges(SelfPipeline().edges, "join"), t.run.context);
  }

  /** a completes: every branch is done, the fan-in's own first row among them. */
  lemma SelfFires(s: State, e: Event)
    requires Bijective(s) && s.runs == map["r" := Run("self", RUNNING, map[], 2)] && e == Sets("a", 3, "left")
    requires s.rows.Keys == {Key("split"), Key("a"), Key("join")}
    requires s.rows[Key("split")].status == NodeSucceeded && s.rows[Key("join")].status == NodeSucceeded
    ensures PlanOf(SelfEnv(), s, e).exit == FanInFired && CutShort(SelfEnv(), s, e, 3)
    ensures
      var smooth, rough := Step(SelfEnv(), s, e), Step(SelfEnv(), CrashAt(SelfEnv(), s, e, 3), e);
      && "r" in smooth.runs && "x" in smooth.runs["r"].context
      && "r" in rough.runs && rough.runs["r"] == Run("self", RUNNING, map[], 3)
  {
    hide Bijective, KeyText, SelfPipeline, LatestKey, Predecessors, OutEdges, Lookup, Select, Step, TailOf, Entered;
    hide SafeId, PlanOf, CrashAt;
    hide FanInContext, UpdatesOf, Sorted, Merged;
    SafeNames();
    SelfEdges();
    SelfTurn(s, e);
    var t := TurnOf(SelfEnv(), Key("a"), s.runs["r"], e);
    var rows := MarkedRows(t, s.rows);
    SelfLatest(rows);
    assert AllDone(rows, "r", {"split", "a", "join"});
    FanInSends(t, JoinNode(), rows);
    PlanParts(SelfEnv(), s, e, t);
    MergeSetsX(t, rows);
    SelfBlockingExact(SelfEnv(), s, e, t, JoinNode());
  }

  /** a's turn: it leads to the fan-in, so its updates wait for the merge. */
  lemma SelfTurn(s: State, e: Event)
    requires Bijective(s) && s.runs == map["r" := Run("self", RUNNING, map[], 2)] && e == Sets("a", 3, "left")
    requires Key("a") in s.rows
    ensures
      var t := TurnOf(SelfEnv(), Key("a"), s.runs["r"], e);
      && TurnAt(SelfEnv(), s, e) == Some(t) && t.passed && Entered(t) == Some(JoinNode()) && t.run == t.before
      && MarkedRows(t, s.rows) == s.rows[Key("a") := MarkedBy(s.rows[Key("a")], e)]
  {
    hide Bijective, KeyText, SelfPipeline, OutEdges, Lookup, Select, Entered;
    SelfNodes();
    SelfEdges();
    FindsOwn(s, Key("a"));
    OwnTaskOf(s, Key("a"));
    var t := TurnOf(SelfEnv(), Key("a"), s.runs["r"], e);
    assert ChainLink(SelfPipeline(), "a", "join");
    OneEdgeEnters(t, "join");
    EnteredFeeds(t);
  }

  /** The merge leaves x in the context. */
  lemma MergeSetsX(t: Turn, rows: Rows)
    requires t.env == SelfEnv() && t.key == Key("a") && Key("a") in rows && "x" in rows[Key("a")].updates
    requires LatestKey(rows, "r", "a") == Key("a")
    ensures "x" in FanInContext(t, JoinNode(), rows)
  {
    hide SelfPipeline, LatestKey, Predecessors, Sorted, UpdatesOf, Merged, Written;
    SelfEdges();
    var ids := Sorted({"split", "a", "join"});
    var updates := UpdatesOf(rows, "r", ids);
    assert "a" in ids;
    var i :| 0 <= i < |ids| && ids[i] == "a";
    UpdatesHave(rows, "r", ids, i);
    assert updates[i] in updates;
    XWritten(t.run.context, updates, updates[i]);
    MergedAt(t.run.context, updates, "x");
  }

  lemma XWritten(base: Data, branches: seq<Data>, branch: Data)
    requires branch in branches && "x" in branch
    ensures Written(base, branches, "x") != []
  {
    hide Written;
    WrittenWithin(base, branches, "x");
    assert "x" in BranchKeys(branches);
  }

  /** Firing the fan-in puts its first row back to dispatched, so the step that
      was cut there and is run again only waits, and the merge is lost. */
  lemma SelfJoinLosesMerge()
    ensures
      var cfg, h, e := Solo("self", SelfPipeline()), Opening("self") + Whole([Done(Key("join"), 2)]),
        Sets("a", 3, "left");
      && PlanOf(SelfEnv(), StateAfter(cfg, h), e).exit == FanInFired
      && var smooth, rough := StateAfter(cfg, h + [Deliver(e, WHOLE)]),
        StateAfter(cfg, h + [Deliver(e, 3)] + [Deliver(e, WHOLE)]);
      && "r" in smooth.runs && "x" in smooth.runs["r"].context
      && "r" in rough.runs && rough.runs["r"].context == map[]
  {
    hide Bijective, KeyText, SelfPipeline, StateAfter, Step, PlanOf, CrashAt, Sets;
    var cfg, e, j := Solo("self", SelfPipeline()), Sets("a", 3, "left"), Done(Key("join"), 2);
    var h := Opening("self") + Whole([j]);
    SelfOpen();
    SelfWaits(StateAfter(cfg, Opening("self")));
    WholeDeliveries("self", SelfPipeline(), Opening("self"), [j]);
    OneDelivered(SelfEnv(), StateAfter(cfg, Opening("self")), j);
    DeliverIsStep("self", SelfPipeline(), h, e, WHOLE);
    DeliverIsStep("self", SelfPipeline(), h, e, 3);
    DeliverIsStep("self", SelfPipeline(), h + [Deliver(e, 3)], e, WHOLE);
    WholeIsStep(SelfEnv(), StateAfter(cfg, h), e, WHOLE);
    WholeIsStep(SelfEnv(), StateAfter(cfg, h + [Deliver(e, 3)]), e, WHOLE);
    SelfFires(StateAfter(cfg, h), e);
  }
}

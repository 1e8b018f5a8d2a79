/** A history of a valid pipeline that stalls: a fan-in fires a second time and
    only reopens the row it already had. */
module StallExample {
  import opened Basics
  import opened Pipelines
  import opened EdgeSelector
  import opened Keys
  import opened RunState
  import opened Advance
  import opened Invariants
  import opened CrashReplay
  import opened Safety
  import opened Histories
  import opened GateLoop
  import opened Lifecycle
  import opened Dispatches
  import opened FanInExamples
  import opened Scenarios

  /** start -> split, which fans out to a and b, both into join -> review -> end;
      review is a gate that sends back to a. */
  function StallPipeline(): Pipeline {
    Pipeline("stall",
      [Bare("start", START), Coder("split", FAN_OUT), Coder("a", CODERGEN), Coder("b", CODERGEN), Coder("join", FAN_IN),
       Review(), Bare("end", EXIT)],
      [Link("start", "split"), Link("split", "a"), Link("split", "b"), Link("a", "join"), Link("b", "join"),
       Link("join", "review"), Link("review", "end")],
      [])
  }

  function Review(): Node {
    Coder("review", CODERGEN).(goalGate := Some(GoalGatePolicy("a", 2)))
  }

  function StallEnv(): Env {
    Env(StallPipeline(), None)
  }

  lemma StallNode(i: nat)
    requires i < 7
    ensures |StallPipeline().nodes| == 7
    ensures Lookup(StallPipeline().nodes, StallPipeline().nodes[i].id) == Some(StallPipeline().nodes[i])
  {
    hide Lookup;
    LookupIs(StallPipeline().nodes, StallPipeline().nodes[i]);
  }

  lemma StallNodes()
    ensures
      var ns := StallPipeline().nodes;
      && |ns| == 7 && ns[0] == Bare("start", START)
      && Lookup(ns, "start") == Some(ns[0]) && Lookup(ns, "split") == Some(Coder("split", FAN_OUT))
      && Lookup(ns, "a") == Some(Coder("a", CODERGEN)) && Lookup(ns, "b") == Some(Coder("b", CODERGEN))
      && Lookup(ns, "join") == Some(JoinNode()) && Lookup(ns, "review") == Some(Review()) && Lookup(ns, "end").Some?
  {
    hide Lookup;
    StallNode(0);
    StallNode(1);
    StallNode(2);
    StallNode(3);
    StallNode(4);
    StallNode(5);
    StallNode(6);
  }

  lemma StallEdges()
    ensures
      var es := StallPipeline().edges;
      && OutEdges(es, "start") == [Link("start", "split")]
      && OutEdges(es, "split") == [Link("split", "a"), Link("split", "b")]
      && OutEdges(es, "a") == [Link("a", "join")] && OutEdges(es, "b") == [Link("b", "join")]
      && OutEdges(es, "join") == [Link("join", "review")]
  {
    hide OutEdges;
    var es := StallPipeline().edges;
    OutEdgesOne(es, "start", 0);
    OutEdgesTwo(es, "split", 1, 2);
    OutEdgesOne(es, "a", 3);
    OutEdgesOne(es, "b", 4);
    OutEdgesOne(es, "join", 5);
  }

  lemma StallPredecessors()
    ensures Predecessors(StallPipeline().edges, "join") == {"a", "b"}
  {
    var es := StallPipeline().edges;
    assert es[3] in es && es[4] in es;
  }

  lemma StallFed()
    ensures
      var p := StallPipeline();
      && Fed(p, "start", "split") && Fed(p, "split", "a") && Fed(p, "split", "b") && Fed(p, "a", "join")
      && Fed(p, "join", "review") && Fed(p, "review", "end")
  {
    var es := StallPipeline().edges;
    assert es[0] in es && es[1] in es && es[2] in es && es[3] in es && es[5] in es && es[6] in es;
  }

  lemma StallMiddle(i: nat)
    requires 0 < i < 6
    ensures Middle(StallPipeline(), StallPipeline().nodes[i])
  {
    hide Ids, Lookup;
    StallNodes();
  }

  lemma StallIds()
    ensures forall e | e in StallPipeline().edges ::
      e.source in Ids(StallPipeline().nodes) && e.target in Ids(StallPipeline().nodes) && e.condition == None
  {
    hide Ids, Lookup;
    StallNodes();
  }

  lemma StallValid()
    ensures ValidPipeline(StallPipeline())
  {
    hide ValidPipeline, Ids, Lookup, Fed, Middle;
    StallFed();
    StallIds();
    forall i | 0 < i < 6
      ensures Middle(StallPipeline(), StallPipeline().nodes[i])
    {
      StallMiddle(i);
    }
    ForwardValid(StallPipeline(), [0, 0, 1, 1, 2, 4, 5]);
  }

  lemma StallSafe()
    ensures SafeId("review") && forall n | n in StallPipeline().nodes :: SafeId(n.id)
  {
    assert WithoutNewline("review") == "review";
    SafeNames();
  }

  lemma StallDeployable()
    ensures Deployable(StallPipeline())
  {
    hide ValidPipeline, SafeId, OutEdges;
    StallValid();
    StallSafe();
    StallEdges();
  }

  // ---- One step ----------------------------------------------------------------------

  /** Any completion: it raises nothing, and its rows are the marked ones with the
      dispatched keys put to dispatched. */
  lemma StallSteps(s: State, k: RowKey, id: int) returns (t: Turn)
    requires Bijective(s) && k in s.rows && k.run == "r"
    ensures k.run in s.runs && SafeKey(k)
    ensures t == TurnOf(StallEnv(), k, s.runs[k.run], Done(k, id)) && TurnAt(StallEnv(), s, Done(k, id)) == Some(t)
    ensures PlanOf(StallEnv(), s, Done(k, id)).exit != Errored && t.run == s.runs[k.run]
    ensures Bijective(Step(StallEnv(), s, Done(k, id)))
    ensures
      var rows, after := MarkedRows(t, s.rows), Step(StallEnv(), s, Done(k, id)).rows;
      && rows == s.rows[k := Marked(t, s.rows[k])]
      && after.Keys == rows.Keys + DispatchKeys(t, rows)
      && (forall j | j in DispatchKeys(t, rows) :: after[j].status == Dispatched)
      && (forall j | j in rows && j !in DispatchKeys(t, rows) :: after[j] == rows[j])
  {
    hide TailOf, Step, Bijective, ValidPipeline, DispatchKeys, PlanOf, Deployable, StallPipeline, KeyText, SafeId;
    var e := Done(k, id);
    StallDeployable();
    DeployableValid(StallPipeline());
    FindsOwn(s, k);
    HasRun(s, k);
    OwnTaskOf(s, k);
    t := TurnOf(StallEnv(), k, s.runs[k.run], e);
    PlanParts(StallEnv(), s, e, t);
    TailSafe(t, MarkedRows(t, s.rows));
    RowsAfterStep(StallEnv(), s, e, t);
    StepBijective(StallEnv(), s, e);
  }

  lemma DeployableValid(p: Pipeline)
    requires Deployable(p)
    ensures ValidPipeline(p)
  {
  }

  /** Where a branch stands between two completions. */
  ghost predicate Row(s: State, k: RowKey, status: NodeRunStatus) {
    k in s.rows && s.rows[k].status == status
  }

  const A2 := RowKey("r", "a", 2)

  /** A branch's turn leads to join, which fires iff both branches are done. */
  lemma BranchKeys(s: State, k: RowKey, id: int, t: Turn)
    requires Bijective(s) && k in s.rows && k.run == "r" && k.node in {"a", "b"} && "r" in s.runs
    requires t == TurnOf(StallEnv(), k, s.runs["r"], Done(k, id))
    ensures t.passed && Entered(t) == Some(JoinNode())
    ensures Marked(t, s.rows[k]) == Completed(s.rows[k])
    ensures DispatchKeys(t, MarkedRows(t, s.rows)) ==
      if AllDone(MarkedRows(t, s.rows), "r", {"a", "b"}) then {Key("join")} else {}
  {
    hide StallPipeline, Lookup, OutEdges, Entered, AllDone, Predecessors, Select, DispatchKeys, SafeId, KeyText;
    StallNodes();
    StallEdges();
    StallPredecessors();
    assert ChainLink(StallPipeline(), k.node, "join");
    OneEdgeEnters(t, "join");
    EnteredDispatches(t, MarkedRows(t, s.rows));
  }

  lemma LatestOnly(rows: Rows, node: string, last: nat)
    requires RowKey("r", node, last) in rows && forall k | k in rows && k.node == node :: k.attempt <= last
    requires forall k | k in rows :: k.run == "r"
    ensures LatestKey(rows, "r", node) == RowKey("r", node, last)
  {
    assert last in AttemptsOf(rows, "r", node);
  }

  // ---- The history ---------------------------------------------------------------------

  function History(n: nat): seq<Event>
    requires n <= 5
  {
    [Done(Key("a"), 2), Done(Key("b"), 3), Done(Key("join"), 4), Done(Key("review"), 5), Done(A2, 6)][..n]
  }

  ghost function Stalling(n: nat): State
    requires n <= 5
  {
    StateAfter(Solo("stall", StallPipeline()), Opening("stall") + Whole(History(n)))
  }

  lemma StallingStep(n: nat)
    requires n < 5
    ensures Stalling(n + 1) == Step(StallEnv(), Stalling(n), History(5)[n])
  {
    hide StateAfter, Step, StallPipeline;
    WholeDeliveries("stall", StallPipeline(), Opening("stall"), History(n));
    WholeDeliveries("stall", StallPipeline(), Opening("stall"), History(n + 1));
    assert History(n + 1)[..n] == History(n);
  }

  lemma StallOpen()
    ensures
      var s := Stalling(0);
      && Bijective(s) && "r" in s.runs && s.runs["r"].status == RUNNING
      && s.rows.Keys == {Key("split"), Key("a"), Key("b")} && Row(s, Key("a"), Dispatched)
      && Row(s, Key("b"), Dispatched)
  {
    hide ValidPipeline, Bijective, StateAfter, SafeId, Lookup, OutEdges, StallPipeline;
    SafeNames();
    StallValid();
    StallNodes();
    StallEdges();
    Opens("stall", StallPipeline(), "b");
    assert Opening("stall") + Whole(History(0)) == Opening("stall");
  }

  /** a completes, and join waits. */
  lemma StallOne()
    ensures
      var s := Stalling(1);
      && Bijective(s) && "r" in s.runs && s.runs["r"].status == RUNNING
      && s.rows.Keys == {Key("split"), Key("a"), Key("b")} && Row(s, Key("a"), NodeSucceeded)
      && Row(s, Key("b"), Dispatched)
  {
    hide Bijective, StallPipeline, Step, DispatchKeys, Entered, PlanOf, LatestKey, Stalling, Exhausts, Finishes;
    hide Pauses, KeyText;
    var s := Stalling(0);
    StallOpen();
    StallingStep(0);
    var t := StallSteps(s, Key("a"), 2);
    BranchKeys(s, Key("a"), 2, t);
    var rows := MarkedRows(t, s.rows);
    LatestOnly(rows, "b", 1);
    assert !IsDone(rows, LatestKey(rows, "r", "b"));
    PassedNotExhausted(t);
    StillRunning(s, Done(Key("a"), 2), t);
  }

  /** A step that neither exhausts a gate nor enters EXIT or HUMAN keeps RUNNING. */
  lemma StillRunning(s: State, e: Event, t: Turn)
    requires Bijective(s) && TurnAt(StallEnv(), s, e) == Some(t) && PlanOf(StallEnv(), s, e).exit != Errored
    requires t.key.run in s.runs && s.runs[t.key.run].status == RUNNING
    requires !Exhausts(t) && (Entered(t).Some? ==> Entered(t).value.shape !in {EXIT, HUMAN, TOOL})
    ensures t.key.run in Step(StallEnv(), s, e).runs && Step(StallEnv(), s, e).runs[t.key.run].status == RUNNING
  {
    hide Bijective, StallPipeline, Step, Entered, PlanOf, TailOf, Exhausts, Resumes, LeadsToExit;
    PlanParts(StallEnv(), s, e, t);
    ExitByTurn(t, MarkedRows(t, s.rows));
    StatusAfterStep(StallEnv(), s, e, t, t.key.run);
  }

  lemma PassedNotExhausted(t: Turn)
    requires t.passed
    ensures !Exhausts(t)
  {
  }

  /** b completes, and join fires. */
  lemma StallTwo()
    ensures
      var s := Stalling(2);
      && Bijective(s) && "r" in s.runs && s.runs["r"].status == RUNNING
      && s.rows.Keys == {Key("split"), Key("a"), Key("b"), Key("join")}
      && Row(s, Key("a"), NodeSucceeded) && Row(s, Key("b"), NodeSucceeded) && Row(s, Key("join"), Dispatched)
  {
    hide Bijective, StallPipeline, Step, DispatchKeys, Entered, PlanOf, LatestKey, Stalling, Exhausts, Finishes;
    hide Pauses, KeyText;
    var s := Stalling(1);
    StallOne();
    StallingStep(1);
    var t := StallSteps(s, Key("b"), 3);
    BranchKeys(s, Key("b"), 3, t);
    var rows := MarkedRows(t, s.rows);
    LatestOnly(rows, "a", 1);
    LatestOnly(rows, "b", 1);
    assert AllDone(rows, "r", {"a", "b"});
    PassedNotExhausted(t);
    StillRunning(s, Done(Key("b"), 3), t);
  }

  lemma JoinKeys(s: State, id: int, t: Turn)
    requires Bijective(s) && Key("join") in s.rows && "r" in s.runs
    requires t == TurnOf(StallEnv(), Key("join"), s.runs["r"], Done(Key("join"), id))
    requires forall k | k in s.rows :: k.node != "review"
    ensures t.passed && Entered(t) == Some(Review())
    ensures Marked(t, s.rows[Key("join")]) == Completed(s.rows[Key("join")])
    ensures DispatchKeys(t, MarkedRows(t, s.rows)) == {Key("review")}
  {
    hide StallPipeline, Lookup, OutEdges, Entered, Select, AttemptsOf, DispatchKeys, SafeId, KeyText;
    StallNodes();
    StallEdges();
    assert ChainLink(StallPipeline(), "join", "review");
    OneEdgeEnters(t, "review");
    EnteredDispatches(t, MarkedRows(t, s.rows));
    NoRows(MarkedRows(t, s.rows), "review");
  }

  lemma NoRows(rows: Rows, node: string)
    requires forall k | k in rows :: k.node != node
    ensures |AttemptsOf(rows, "r", node)| == 0
  {
    assert AttemptsOf(rows, "r", node) == {};
  }

  /** join completes, and review is dispatched. */
  lemma StallThree()
    ensures
      var s := Stalling(3);
      && Bijective(s) && "r" in s.runs && s.runs["r"].status == RUNNING
      && s.rows.Keys == {Key("split"), Key("a"), Key("b"), Key("join"), Key("review")}
      && Row(s, Key("b"), NodeSucceeded) && Row(s, Key("join"), NodeSucceeded)
  {
    hide Bijective, StallPipeline, Step, DispatchKeys, Entered, PlanOf, Stalling, Exhausts, Finishes, Pauses, KeyText;
    var s := Stalling(2);
    StallTwo();
    StallingStep(2);
    var t := StallSteps(s, Key("join"), 4);
    JoinKeys(s, 4, t);
    PassedNotExhausted(t);
    StillRunning(s, Done(Key("join"), 4), t);
  }

  lemma ReviewKeys(s: State, id: int, t: Turn)
    requires Bijective(s) && Key("review") in s.rows && "r" in s.runs
    requires t == TurnOf(StallEnv(), Key("review"), s.runs["r"], Done(Key("review"), id))
    ensures !Exhausts(t) && Entered(t) == None
    ensures DispatchKeys(t, MarkedRows(t, s.rows)) == {A2}
  {
    hide StallPipeline, Lookup, OutEdges, Select;
    StallNodes();
  }

  /** review completes without a passing verdict, and sends back to a. */
  lemma StallFour()
    ensures
      var s := Stalling(4);
      && Bijective(s) && "r" in s.runs && s.runs["r"].status == RUNNING
      && s.rows.Keys == {Key("split"), Key("a"), Key("b"), Key("join"), Key("review"), A2}
      && Row(s, Key("b"), NodeSucceeded) && Row(s, Key("join"), NodeSucceeded)
  {
    hide Bijective, StallPipeline, Step, DispatchKeys, Entered, PlanOf, Stalling, Exhausts, Finishes, Pauses, KeyText;
    var s := Stalling(3);
    StallThree();
    StallingStep(3);
    var t := StallSteps(s, Key("review"), 5);
    ReviewKeys(s, 5, t);
    StillRunning(s, Done(Key("review"), 5), t);
  }

  /** What the history has come to before a's second attempt completes. */
  ghost predicate BeforeLast(s: State) {
    && Bijective(s) && "r" in s.runs && s.runs["r"].status == RUNNING
    && s.rows.Keys == {Key("split"), Key("a"), Key("b"), Key("join"), Key("review"), A2}
    && Row(s, Key("b"), NodeSucceeded) && Row(s, Key("join"), NodeSucceeded)
  }

  lemma BranchesDone(s: State, rows: Rows)
    requires BeforeLast(s) && rows == s.rows[A2 := Completed(s.rows[A2])]
    ensures AllDone(rows, "r", {"a", "b"})
  {
    hide Bijective, LatestKey;
    LatestOnly(rows, "a", 2);
    LatestOnly(rows, "b", 1);
  }

  /** That completion fires join once more: its row is reopened and nothing added. */
  lemma FiresOnceMore(s: State)
    requires BeforeLast(s)
    ensures
      var after := Step(StallEnv(), s, Done(A2, 6));
      && Row(after, Key("join"), Dispatched) && after.cards == s.cards && after.rows.Keys == s.rows.Keys
      && "r" in after.runs && after.runs["r"].status == RUNNING
  {
    hide Bijective, StallPipeline, Step, DispatchKeys, Entered, PlanOf, Exhausts, Finishes, Pauses, KeyText;
    hide ValidPipeline, AllDone;
    var t := StallSteps(s, A2, 6);
    BranchKeys(s, A2, 6, t);
    BranchesDone(s, MarkedRows(t, s.rows));
    PassedNotExhausted(t);
    StillRunning(s, Done(A2, 6), t);
    StallFires(s, t, MarkedRows(t, s.rows));
    StallValid();
    RefiringAddsNothing(StallEnv(), s, Done(A2, 6), t, JoinNode());
  }

  ghost predicate CompletedIn(actions: seq<Action>, k: RowKey) {
    exists id :: Deliver(Done(k, id), WHOLE) in actions
  }

  /** A history of a valid pipeline: join's finished row is put back to dispatched
      under the card it already had. No card is added, every row's card has been
      completed, and the run stays RUNNING. */
  lemma JoinReopensAndStalls()
    ensures
      var before, after := Stalling(4), Stalling(5);
      && Row(before, Key("join"), NodeSucceeded) && Row(after, Key("join"), Dispatched)
      && after.cards == before.cards
      && "r" in after.runs && after.runs["r"].status == RUNNING
      && forall k | k in after.rows :: CompletedIn(Opening("stall") + Whole(History(5)), k)
  {
    hide Stalling, KeyText, Bijective, Step, CompletedIn, StallPipeline;
    StallFour();
    StallingStep(4);
    FiresOnceMore(Stalling(4));
    AllCompleted();
  }

  lemma StallFires(s: State, t: Turn, rows: Rows)
    requires TurnAt(StallEnv(), s, Done(A2, 6)) == Some(t) && t.key in s.rows && rows == MarkedRows(t, s.rows)
    requires t.env == StallEnv() && t.key.run == "r" && Entered(t) == Some(JoinNode()) && AllDone(rows, "r", {"a", "b"})
    requires PlanOf(StallEnv(), s, Done(A2, 6)).exit != Errored
    ensures PlanOf(StallEnv(), s, Done(A2, 6)).exit == FanInFired
  {
    hide TailOf, Entered, AllDone, FanInContext, StallPipeline, Unit, ForNode, Predecessors;
    StallPredecessors();
    PlanParts(StallEnv(), s, Done(A2, 6), t);
    TailEnters(t, rows, rows);
  }

  lemma AllCompleted()
    ensures forall k | k in {Key("split"), Key("a"), Key("b"), Key("join"), Key("review"), A2} ::
      CompletedIn(Opening("stall") + Whole(History(5)), k)
  {
    hide KeyText;
    var h := Opening("stall") + Whole(History(5));
    WholeAt(History(5), 0);
    WholeAt(History(5), 1);
    WholeAt(History(5), 2);
    WholeAt(History(5), 3);
    WholeAt(History(5), 4);
    assert h[1] in h && h[2] in h && h[3] in h && h[4] in h && h[5] in h && h[6] in h;
    assert Deliver(Done(Key("split"), 1), WHOLE) in h && Deliver(Done(Key("a"), 2), WHOLE) in h;
    assert Deliver(Done(Key("b"), 3), WHOLE) in h && Deliver(Done(Key("join"), 4), WHOLE) in h;
    assert Deliver(Done(Key("review"), 5), WHOLE) in h && Deliver(Done(A2, 6), WHOLE) in h;
  }

  lemma {:induction false} WholeAt(es: seq<Event>, i: nat)
    requires i < |es|
    ensures Whole(es)[i] == Deliver(es[i], WHOLE)
    decreases |es|
  {
    if i < |es| - 1 {
      WholeAt(es[..|es| - 1], i);
    }
  }
}

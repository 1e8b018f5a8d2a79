/** Histories of one valid pipeline on which documented promises fail. */
module Witnesses {
  import opened Basics
  import opened Pipelines
  import opened EdgeSelector
  import opened Keys
  import opened RunState
  import opened Advance
  import opened Invariants
  import opened CrashReplay
  import opened Histories
  import opened GateLoop
  import opened EventLog
  import opened Reconciling
  import opened BatchSize
  import opened Replays
  import opened ReplaySafety
  import opened Scenarios

  // ---- Repetition duplicates a card, in general ---------------------------------------

  /** Cut right after the next node's row, the re-run adds a second row. */
  lemma CrashDuplicates(env: Env, s: State, e: Event, k: RowKey, next: string)
    requires Bijective(s) && k in s.rows && e.task == TaskOf(k) && ChainLink(env.pipeline, k.node, next)
    requires ChainNode(env.pipeline, k.node, false) && ChainNode(env.pipeline, next, true)
    requires
      var n := |AttemptsOf(s.rows, k.run, next)|;
      RowKey(k.run, next, n + 1) !in s.rows && RowKey(k.run, next, n + 2) !in s.rows
    ensures
      var n := |AttemptsOf(s.rows, k.run, next)|;
      && Step(env, s, e).rows.Keys == s.rows.Keys + {RowKey(k.run, next, n + 1)}
      && Step(env, CrashAt(env, s, e, 3), e).rows.Keys ==
        s.rows.Keys + {RowKey(k.run, next, n + 1), RowKey(k.run, next, n + 2)}
  {
    hide Step, Bijective, CrashAt, KeyText, ChainLink, ChainNode, AttemptsOf;
    var n := |AttemptsOf(s.rows, k.run, next)|;
    LinkAdds(env, s, e, k, next);
    LinkCut(env, s, e, k, next);
    var cut := CrashAt(env, s, e, 3);
    StepKeepsBijective(env, s, e, 3);
    OneMoreAttempt(s.rows, cut.rows, RowKey(k.run, next, n + 1));
    LinkAdds(env, cut, e, k, next);
    BothKeys(s.rows, cut.rows, Step(env, cut, e).rows, RowKey(k.run, next, n + 1), RowKey(k.run, next, n + 2));
  }

  /** So does the whole step, delivered again. */
  lemma RedeliveryDuplicates(env: Env, s: State, e: Event, k: RowKey, next: string)
    requires Bijective(s) && k in s.rows && e.task == TaskOf(k) && ChainLink(env.pipeline, k.node, next)
    requires ChainNode(env.pipeline, k.node, false) && ChainNode(env.pipeline, next, true)
    requires
      var n := |AttemptsOf(s.rows, k.run, next)|;
      RowKey(k.run, next, n + 1) !in s.rows && RowKey(k.run, next, n + 2) !in s.rows
    ensures
      var n := |AttemptsOf(s.rows, k.run, next)|;
      && Step(env, s, e).rows.Keys == s.rows.Keys + {RowKey(k.run, next, n + 1)}
      && Step(env, Step(env, s, e), e).rows.Keys ==
        s.rows.Keys + {RowKey(k.run, next, n + 1), RowKey(k.run, next, n + 2)}
  {
    hide Step, Bijective, KeyText, ChainLink, ChainNode, AttemptsOf;
    var n := |AttemptsOf(s.rows, k.run, next)|;
    var once := Step(env, s, e);
    LinkAdds(env, s, e, k, next);
    StepBijective(env, s, e);
    OneMoreAttempt(s.rows, once.rows, RowKey(k.run, next, n + 1));
    LinkAdds(env, once, e, k, next);
    BothKeys(s.rows, once.rows, Step(env, once, e).rows, RowKey(k.run, next, n + 1), RowKey(k.run, next, n + 2));
  }

  lemma BothKeys(a: Rows, b: Rows, c: Rows, j: RowKey, k: RowKey)
    requires b.Keys == a.Keys + {j} && c.Keys == b.Keys + {k}
    ensures c.Keys == a.Keys + {j, k}
  {
  }

  lemma OneMoreAttempt(rows: Rows, other: Rows, k: RowKey)
    requires other.Keys == rows.Keys + {k} && k !in rows
    ensures |AttemptsOf(other, k.run, k.node)| == |AttemptsOf(rows, k.run, k.node)| + 1
    ensures forall j | j in rows :: j in other
  {
    AddedAttempt(rows, other, k, k.node);
    assert k.attempt !in AttemptsOf(rows, k.run, k.node) by {
      assert k.attempt in AttemptsOf(rows, k.run, k.node) ==> RowKey(k.run, k.node, k.attempt) in rows;
    }
  }

  /** The state after marking (1), creating the card (2) or writing its row (3). */
  lemma LinkPrefix(env: Env, s: State, e: Event, k: RowKey, next: string, upto: nat)
    requires Bijective(s) && k in s.rows && e.task == TaskOf(k) && ChainLink(env.pipeline, k.node, next)
    requires ChainNode(env.pipeline, k.node, false) && ChainNode(env.pipeline, next, true) && 1 <= upto <= 3
    ensures k.run in s.runs
    ensures
      var t, node := TurnOf(env, k, s.runs[k.run], e), Lookup(env.pipeline.nodes, next).value;
      CrashAt(env, s, e, upto) == Imprint(s.(rows := MarkedRows(t, s.rows)),
        CountedEffect(t, node, |AttemptsOf(s.rows, k.run, next)| + 1, upto - 1))
  {
    hide TailOf, Bijective, Entered, EnterTail, CountedTail, SafeId, KeyText, CrashAt, CountedEffect, Imprint;
    hide AttemptsOf, Select;
    LinkTurn(env, s, e, k, next);
    var t := TurnOf(env, k, s.runs[k.run], e);
    var rows, node := MarkedRows(t, s.rows), Lookup(env.pipeline.nodes, next).value;
    TailEnters(t, rows, rows);
    CountedEnters(t, node, rows);
    KeysDecideAttempts(rows, s.rows, k.run, next);
    CountedAdds(t, node, NextAttempt(t, node, rows));
    FreshCut(env, s, e, t, node, NextAttempt(t, node, rows), upto);
  }

  lemma LinkCut(env: Env, s: State, e: Event, k: RowKey, next: string)
    requires Bijective(s) && k in s.rows && e.task == TaskOf(k) && ChainLink(env.pipeline, k.node, next)
    requires ChainNode(env.pipeline, k.node, false) && ChainNode(env.pipeline, next, true)
    ensures CrashAt(env, s, e, 3).rows.Keys ==
      s.rows.Keys + {RowKey(k.run, next, |AttemptsOf(s.rows, k.run, next)| + 1)}
  {
    hide Bijective, CrashAt, AttemptsOf, KeyText, ChainLink, ChainNode;
    LinkPrefix(env, s, e, k, next, 3);
    LinkIds(env.pipeline, next);
  }

  lemma LinkIds(p: Pipeline, next: string)
    requires ChainNode(p, next, true)
    ensures Lookup(p.nodes, next).Some? && Lookup(p.nodes, next).value.id == next
  {
  }

  // ---- The pipeline --------------------------------------------------------------------

  /** start -> split, which fans out to a -> h (HUMAN) -> end and c -> d -> end. */
  function ForkPipeline(): Pipeline {
    Pipeline("fork",
      [Bare("start", START), Coder("split", FAN_OUT), Coder("a", CODERGEN), Coder("c", CODERGEN), Coder("h", HUMAN),
       Coder("d", CODERGEN), Bare("end", EXIT)],
      [Link("start", "split"), Link("split", "a"), Link("split", "c"), Link("a", "h"), Link("c", "d"), Link("h", "end"),
        Link("d", "end")],
      [])
  }

  function ForkEnv(): Env {
    Env(ForkPipeline(), None)
  }

  function ForkConfig(): Config {
    Solo("fork", ForkPipeline())
  }

  /** Launch, and the fan-out's completion. */
  function Opening(): seq<Action> {
    [Launch("r", "fork", map[], WHOLE), Deliver(Done(Key("split"), 1), WHOLE)]
  }

  ghost function Fork(actions: seq<Action>): State {
    StateAfter(ForkConfig(), Opening() + actions)
  }

  lemma ForkSafe()
    ensures SafeId("r") && SafeId("start") && SafeId("split") && SafeId("a") && SafeId("c") && SafeId("h")
    ensures SafeId("d") && SafeId("end")
  {
    assert WithoutNewline("r") == "r" && WithoutNewline("start") == "start" && WithoutNewline("split") == "split";
    assert WithoutNewline("a") == "a" && WithoutNewline("c") == "c" && WithoutNewline("h") == "h";
    assert WithoutNewline("d") == "d" && WithoutNewline("end") == "end";
  }

  lemma ForkNode(i: nat)
    requires i < 7
    ensures |ForkPipeline().nodes| == 7
    ensures Lookup(ForkPipeline().nodes, ForkPipeline().nodes[i].id) == Some(ForkPipeline().nodes[i])
  {
    hide Lookup;
    LookupIs(ForkPipeline().nodes, ForkPipeline().nodes[i]);
  }

  lemma ForkNodes()
    ensures
      var ns := ForkPipeline().nodes;
      && |ns| == 7
      && Lookup(ns, "start") == Some(Bare("start", START)) && Lookup(ns, "split") == Some(Coder("split", FAN_OUT))
      && Lookup(ns, "a") == Some(Coder("a", CODERGEN)) && Lookup(ns, "c") == Some(Coder("c", CODERGEN))
      && Lookup(ns, "h") == Some(Coder("h", HUMAN)) && Lookup(ns, "d") == Some(Coder("d", CODERGEN))
      && Lookup(ns, "end") == Some(Bare("end", EXIT))
  {
    hide Lookup;
    ForkNode(0);
    ForkNode(1);
    ForkNode(2);
    ForkNode(3);
    ForkNode(4);
    ForkNode(5);
    ForkNode(6);
  }

  lemma ForkEdges()
    ensures
      var es := ForkPipeline().edges;
      && OutEdges(es, "start") == [Link("start", "split")]
      && OutEdges(es, "split") == [Link("split", "a"), Link("split", "c")]
      && OutEdges(es, "a") == [Link("a", "h")] && OutEdges(es, "c") == [Link("c", "d")]
      && OutEdges(es, "d") == [Link("d", "end")]
  {
    hide OutEdges;
    var es := ForkPipeline().edges;
    OutEdgesOne(es, "start", 0);
    OutEdgesTwo(es, "split", 1, 2);
    OutEdgesOne(es, "a", 3);
    OutEdgesOne(es, "c", 4);
    OutEdgesOne(es, "d", 6);
  }

  lemma ForkFed()
    ensures
      var p := ForkPipeline();
      && Fed(p, "start", "split") && Fed(p, "split", "a") && Fed(p, "split", "c") && Fed(p, "a", "h")
      && Fed(p, "c", "d") && Fed(p, "h", "end")
  {
    var es := ForkPipeline().edges;
    assert es[0] in es && es[1] in es && es[2] in es && es[3] in es && es[4] in es && es[5] in es;
  }

  /** Every id of an edge is a node's. */
  lemma ForkIds()
    ensures forall e | e in ForkPipeline().edges ::
      e.source in Ids(ForkPipeline().nodes) && e.target in Ids(ForkPipeline().nodes) && e.condition == None
  {
    hide Ids, Lookup;
    ForkNodes();
  }

  lemma ForkMiddle(i: nat)
    requires 0 < i < 6
    ensures Middle(ForkPipeline(), ForkPipeline().nodes[i])
  {
    hide Ids;
  }

  lemma ForkValid()
    ensures ValidPipeline(ForkPipeline())
  {
    hide ValidPipeline, Ids, Fed, Middle;
    ForkFed();
    ForkIds();
    forall i | 0 < i < 6
      ensures Middle(ForkPipeline(), ForkPipeline().nodes[i])
    {
      ForkMiddle(i);
    }
    ForwardValid(ForkPipeline(), [0, 0, 1, 1, 2, 3, 4]);
  }

  lemma ForkLinks()
    ensures
      var p := ForkPipeline();
      && ChainLink(p, "a", "h") && ChainLink(p, "c", "d") && ChainLink(p, "d", "end")
      && ChainNode(p, "a", false) && ChainNode(p, "c", false) && ChainNode(p, "d", true) && ChainNode(p, "h", true)
      && ChainNode(p, "d", false)
  {
    hide Lookup, OutEdges, SafeId, ForkPipeline;
    ForkSafe();
    ForkNodes();
    ForkEdges();
  }

  /** After the opening: split is done, a and c are out, the cursor is 1. */
  lemma ForkOpen()
    ensures
      var s := Fork([]);
      && Bijective(s) && s.runs == map["r" := Run("fork", RUNNING, map[], 1)]
      && s.rows.Keys == {Key("split"), Key("a"), Key("c")}
      && s.rows[Key("a")].status == Dispatched && s.rows[Key("c")].status == Dispatched
  {
    hide Bijective, StateAfter, CrashAt, Step, ForkPipeline, KeyText;
    var e, launch := Done(Key("split"), 1), [Launch("r", "fork", map[], WHOLE)];
    var s := StateAfter(ForkConfig(), launch);
    ForkLaunched();
    DeliverIsStep("fork", ForkPipeline(), launch, e, WHOLE);
    WholeIsStep(ForkEnv(), s, e, WHOLE);
    assert launch + [Deliver(e, WHOLE)] == Opening() + [];
    DeliverIsStep("fork", ForkPipeline(), Opening() + [], e, 0);
    ForkSplits(s);
  }

  lemma ForkSplits(s: State)
    requires Bijective(s) && s.runs == map["r" := Run("fork", RUNNING, map[], 0)] && s.rows.Keys == {Key("split")}
    ensures
      var after := Step(ForkEnv(), s, Done(Key("split"), 1));
      && after.runs == map["r" := Run("fork", RUNNING, map[], 1)]
      && after.rows.Keys == {Key("split"), Key("a"), Key("c")}
      && after.rows[Key("a")].status == Dispatched && after.rows[Key("c")].status == Dispatched
  {
    hide Bijective, Lookup, OutEdges, SafeId, Step, ForkPipeline, KeyText;
    ForkNodes();
    ForkEdges();
    ForkSafe();
    SplitSteps(ForkEnv(), s, Key("split"), 1);
    assert (set x | x in OutEdges(ForkPipeline().edges, "split") :: RowKey("r", x.target, 1)) == {Key("a"), Key("c")};
  }

  lemma ForkStart()
    ensures ForkPipeline().nodes != [] && ForkPipeline().nodes[0] == Bare("start", START)
  {
  }

  lemma ForkLaunched()
    ensures
      var s := StateAfter(ForkConfig(), [Launch("r", "fork", map[], WHOLE)]);
      && s.runs == map["r" := Run("fork", RUNNING, map[], 0)]
      && s.rows == map[Key("split") := DispatchedRow(Key("split"), {"start"}, None)]
      && Bijective(s)
  {
    hide Bijective, ValidPipeline, Lookup, OutEdges, SafeId, StateAfter, ForkPipeline;
    ForkValid();
    ForkStart();
    ForkNodes();
    ForkEdges();
    ForkSafe();
    Launched("fork", ForkPipeline(), "r", Coder("split", FAN_OUT));
  }

  lemma ForkDelivers(actions: seq<Action>, e: Event, upto: nat)
    ensures Fork(actions + [Deliver(e, upto)]) == CrashAt(ForkEnv(), Fork(actions), e, upto)
    ensures upto >= WHOLE ==> CrashAt(ForkEnv(), Fork(actions), e, upto) == Step(ForkEnv(), Fork(actions), e)
    ensures Bijective(Fork(actions)) && Bijective(Fork(actions + [Deliver(e, upto)]))
  {
    hide StateAfter, CrashAt, Step, Bijective, ForkPipeline, Opening;
    DeliverIsStep("fork", ForkPipeline(), Opening() + actions, e, upto);
    DeliverIsStep("fork", ForkPipeline(), Opening() + (actions + [Deliver(e, upto)]), e, upto);
    assert Opening() + actions + [Deliver(e, upto)] == Opening() + (actions + [Deliver(e, upto)]);
    if upto >= WHOLE {
      WholeIsStep(ForkEnv(), Fork(actions), e, upto);
    }
  }

  /** One whole delivery first, or after one other. */
  lemma FirstDelivered(e: Event)
    ensures Fork([Deliver(e, WHOLE)]) == Step(ForkEnv(), Fork([]), e) && Bijective(Fork([]))
    ensures Bijective(Fork([Deliver(e, WHOLE)]))
  {
    hide Fork, CrashAt, Step, Bijective, ForkPipeline;
    ForkDelivers([], e, WHOLE);
    assert [] + [Deliver(e, WHOLE)] == [Deliver(e, WHOLE)];
  }

  lemma NextDelivered(a: Action, e: Event)
    ensures Fork([a, Deliver(e, WHOLE)]) == Step(ForkEnv(), Fork([a]), e) && Bijective(Fork([a]))
    ensures Bijective(Fork([a, Deliver(e, WHOLE)]))
  {
    hide Fork, CrashAt, Step, Bijective, ForkPipeline;
    ForkDelivers([a], e, WHOLE);
    assert [a] + [Deliver(e, WHOLE)] == [a, Deliver(e, WHOLE)];
  }

  lemma NoAttempts(rows: Rows, run: string, node: string)
    requires forall k | k in rows :: k.node != node
    ensures AttemptsOf(rows, run, node) == {} && |AttemptsOf(rows, run, node)| == 0
  {
  }

  // ---- Two cards where one was promised ----------------------------------------------

  function CDone(): Event {
    Done(Key("c"), 2)
  }

  lemma NoSuchRows(rows: Rows, node: string)
    requires forall k | k in rows :: k.node != node
    ensures |AttemptsOf(rows, "r", node)| == 0 && RowKey("r", node, 1) !in rows && RowKey("r", node, 2) !in rows
  {
    NoAttempts(rows, "r", node);
  }

  /** Completing c, before anything else. */
  lemma ForkReady()
    ensures
      var s := Fork([]);
      && Bijective(s) && Key("c") in s.rows && CDone().task == TaskOf(Key("c"))
      && |AttemptsOf(s.rows, "r", "d")| == 0 && RowKey("r", "d", 1) !in s.rows && RowKey("r", "d", 2) !in s.rows
  {
    hide Fork, Bijective, KeyText, AttemptsOf, ForkPipeline;
    ForkOpen();
    NoSuchRows(Fork([]).rows, "d");
  }

  /** The documentation promises that a re-run after a crash dispatches nothing
      twice. Completing c, cut after d's row is written, then run again: d has
      two rows under two keys, and so two cards. */
  lemma DispatchNotCrashIdempotent()
    ensures
      var smooth, rough := Fork([Deliver(CDone(), WHOLE)]), Fork([Deliver(CDone(), 3), Deliver(CDone(), WHOLE)]);
      && RowKey("r", "d", 1) in smooth.rows && RowKey("r", "d", 2) !in smooth.rows
      && RowKey("r", "d", 1) in rough.rows && RowKey("r", "d", 2) in rough.rows
      && KeyText(RowKey("r", "d", 1)) in rough.cards && KeyText(RowKey("r", "d", 2)) in rough.cards
  {
    hide Fork, Bijective, KeyText, ChainNode, ChainLink, CrashAt, Step, AttemptsOf, ForkPipeline, CDone;
    ForkReady();
    ForkLinks();
    CrashDuplicates(ForkEnv(), Fork([]), CDone(), Key("c"), "d");
    FirstDelivered(CDone());
    ForkDelivers([], CDone(), 3);
    assert [] + [Deliver(CDone(), 3)] == [Deliver(CDone(), 3)];
    NextDelivered(Deliver(CDone(), 3), CDone());
    HasCard(Fork([Deliver(CDone(), 3), Deliver(CDone(), WHOLE)]), RowKey("r", "d", 1));
    HasCard(Fork([Deliver(CDone(), 3), Deliver(CDone(), WHOLE)]), RowKey("r", "d", 2));
  }

  lemma HasCard(s: State, k: RowKey)
    requires Bijective(s) && k in s.rows
    ensures KeyText(k) in s.cards
  {
  }

  /** Nor is the same event harmless once its step is complete. */
  lemma RedeliveryDispatchesAgain()
    ensures
      var once, twice := Fork([Deliver(CDone(), WHOLE)]), Fork([Deliver(CDone(), WHOLE), Deliver(CDone(), WHOLE)]);
      && RowKey("r", "d", 2) !in once.rows && RowKey("r", "d", 2) in twice.rows
      && KeyText(RowKey("r", "d", 2)) in twice.cards
  {
    hide Fork, Bijective, KeyText, ChainNode, ChainLink, CrashAt, Step, AttemptsOf, ForkPipeline, CDone;
    ForkReady();
    ForkLinks();
    RedeliveryDuplicates(ForkEnv(), Fork([]), CDone(), Key("c"), "d");
    FirstDelivered(CDone());
    NextDelivered(Deliver(CDone(), WHOLE), CDone());
    HasCard(Fork([Deliver(CDone(), WHOLE), Deliver(CDone(), WHOLE)]), RowKey("r", "d", 2));
  }

  // ---- Undocumented moves of the status ------------------------------------------------

  function Finish(node: string, id: int): Action {
    Deliver(Done(Key(node), id), WHOLE)
  }

  /** The next ordinary or HUMAN node of a branch is dispatched. */
  lemma ForkMoves(s: State, node: string, id: int, next: string)
    requires Bijective(s) && Key(node) in s.rows && "r" in s.runs && forall k | k in s.rows :: k.node != next
    requires (node == "a" && next == "h") || (node == "c" && next == "d")
    ensures
      var after := Step(ForkEnv(), s, Done(Key(node), id));
      var status := if next == "h" then PAUSED_HUMAN
        else if s.runs["r"].status == PAUSED_HUMAN then RUNNING else s.runs["r"].status;
      && after.rows.Keys == s.rows.Keys + {Key(next)} && after.rows[Key(next)].status == Dispatched
      && (forall k | k in s.rows && k != Key(node) :: after.rows[k] == s.rows[k])
      && after.runs == s.runs["r" := s.runs["r"].(status := status, cursor := id)]
  {
    hide Bijective, KeyText, ChainNode, ChainLink, Step, AttemptsOf, Lookup, ForkPipeline;
    ForkLinks();
    ForkNodes();
    NoSuchRows(s.rows, next);
    LinkSteps(ForkEnv(), s, Key(node), id, next);
  }

  /** c's branch goes on to d, then a's branch reaches the HUMAN node. */
  lemma ForkPauses()
    ensures
      var s := Fork([Finish("c", 2), Finish("a", 3)]);
      && Bijective(s) && s.runs == map["r" := Run("fork", PAUSED_HUMAN, map[], 3)]
      && Key("d") in s.rows && Key("h") in s.rows && s.rows[Key("h")].status == Dispatched
  {
    hide Fork, Bijective, KeyText, Step, ForkPipeline;
    ForkOpen();
    ForkMoves(Fork([]), "c", 2, "d");
    FirstDelivered(Done(Key("c"), 2));
    ForkMoves(Fork([Finish("c", 2)]), "a", 3, "h");
    NextDelivered(Finish("c", 2), Done(Key("a"), 3));
  }

  /** PAUSED_HUMAN to SUCCEEDED, which is not among the documented transitions:
      the other branch reaches EXIT while the human's card is still open. */
  lemma PausedRunSucceeds()
    ensures
      var before, after := Fork([Finish("c", 2), Finish("a", 3)]),
        Fork([Finish("c", 2), Finish("a", 3), Finish("d", 4)]);
      && "r" in before.runs && before.runs["r"].status == PAUSED_HUMAN
      && "r" in after.runs && after.runs["r"].status == SUCCEEDED
      && Key("h") in after.rows && after.rows[Key("h")].status == Dispatched
  {
    hide Fork, Bijective, KeyText, ChainLink, ChainNode, CrashAt, Step, Lookup, ForkPipeline;
    var two := [Finish("c", 2), Finish("a", 3)];
    ForkPauses();
    ForkLinks();
    ForkNodes();
    ExitSteps(ForkEnv(), Fork(two), Key("d"), 4, "end");
    ForkDelivers(two, Done(Key("d"), 4), WHOLE);
    assert two + [Finish("d", 4)] == [Finish("c", 2), Finish("a", 3), Finish("d", 4)];
  }

  /** A paused run resumes while its human's card is still open. */
  lemma PausedRunResumes()
    ensures
      var paused, after := Fork([Finish("a", 2)]), Fork([Finish("a", 2), Finish("c", 3)]);
      && "r" in paused.runs && paused.runs["r"].status == PAUSED_HUMAN
      && "r" in after.runs && after.runs["r"].status == RUNNING
      && Key("h") in after.rows && after.rows[Key("h")].status == Dispatched
  {
    hide Fork, Bijective, KeyText, Step, ForkPipeline;
    ForkOpen();
    ForkMoves(Fork([]), "a", 2, "h");
    FirstDelivered(Done(Key("a"), 2));
    ForkMoves(Fork([Finish("a", 2)]), "c", 3, "d");
    NextDelivered(Finish("a", 2), Done(Key("c"), 3));
  }

  // ---- A completion that is never processed ----------------------------------------------

  function DDone(): Event {
    Done(Key("d"), 3)
  }

  function ADone(): Event {
    Done(Key("a"), 4)
  }

  function Log(): seq<Event> {
    [Done(Key("split"), 1), CDone(), DDone(), ADone()]
  }

  lemma LogPast()
    ensures InOrder(Log()) && Past(Log(), 1) == [CDone(), DDone(), ADone()]
  {
    hide KeyText;
    PastIndex(Log(), 1);
    assert Log()[1..] == [CDone(), DDone(), ADone()];
  }

  /** c's completion was cut between d's card and d's row. */
  lemma OrphanState()
    ensures
      var s := Fork([Deliver(CDone(), 2)]);
      && Bijective(s) && s.runs == map["r" := Run("fork", RUNNING, map[], 1)]
      && s.rows.Keys == {Key("split"), Key("a"), Key("c")} && KeyText(Key("d")) in s.cards
  {
    hide Fork, Bijective, KeyText, ChainNode, ChainLink, CrashAt, AttemptsOf, Lookup, ForkPipeline;
    ForkOpen();
    ForkReady();
    ForkLinks();
    ForkNodes();
    ForkDelivers([], CDone(), 2);
    assert [] + [Deliver(CDone(), 2)] == [Deliver(CDone(), 2)];
    LinkPrefix(ForkEnv(), Fork([]), CDone(), Key("c"), "d", 2);
  }

  lemma ForkSound()
    ensures SoundConfig(ForkConfig())
  {
    hide SafeId, OutEdges, ForkPipeline;
    assert forall id | id in ForkConfig().specs :: ForkConfig().specs[id] == ForkPipeline();
    forall n | n in ForkPipeline().nodes
      ensures SafeId(n.id) && (n.shape == FAN_OUT ==> |OutEdges(ForkPipeline().edges, n.id)| <= MAX_FAN_OUT_WIDTH)
    {
      ForkNodeSound(n);
    }
  }

  lemma ForkNodeSound(n: Node)
    requires n in ForkPipeline().nodes
    ensures SafeId(n.id) && (n.shape == FAN_OUT ==> |OutEdges(ForkPipeline().edges, n.id)| <= MAX_FAN_OUT_WIDTH)
  {
    hide SafeId, OutEdges;
    ForkSafe();
    ForkEdges();
  }

  lemma OrphanRaisesNothing()
    ensures
      var s := Fork([Deliver(CDone(), 2)]);
      "r" in s.runs && InOrder(Log()) && !EndOf(ForkEnv(), s, "r", Log(), EVENT_LOG_BATCH_SIZE).raised
  {
    hide ForkPipeline, EndOf, Bijective, KeyText, After, Log, SoundConfig, CDone;
    OrphanState();
    LogPast();
    ForkSound();
    ReplayNeverRaises(ForkConfig(), Opening() + [Deliver(CDone(), 2)], "r", Log(), EVENT_LOG_BATCH_SIZE);
  }

  /** The log reader promises that every event up to the final cursor is
      processed. Here d's card exists and d has been completed, but d's row was
      never written. One pass stores cursor 4 and leaves d dispatched; d's
      completion, with id 3, lies behind the cursor for good. */
  lemma OrphanCompletionLost()
    ensures
      var s := Fork([Deliver(CDone(), 2)]);
      && "r" in s.runs && InOrder(Log()) && KeyText(Key("d")) in s.cards
      && var end := EndOf(ForkEnv(), s, "r", Log(), EVENT_LOG_BATCH_SIZE);
      && !end.raised && Lost(ForkEnv(), s, "r", Log(), EVENT_LOG_BATCH_SIZE, DDone())
      && "r" in end.state.runs && end.state.runs["r"].cursor == 4
      && Key("d") in end.state.rows && end.state.rows[Key("d")].status == Dispatched
  {
    hide Fork, ForkPipeline;
    OrphanState();
    OrphanRaisesNothing();
    OrphanPasses(Fork([Deliver(CDone(), 2)]));
  }

  lemma OrphanPasses(s: State)
    requires Bijective(s) && s.runs == map["r" := Run("fork", RUNNING, map[], 1)]
    requires s.rows.Keys == {Key("split"), Key("a"), Key("c")} && InOrder(Log())
    requires !EndOf(ForkEnv(), s, "r", Log(), EVENT_LOG_BATCH_SIZE).raised
    ensures
      var end := EndOf(ForkEnv(), s, "r", Log(), EVENT_LOG_BATCH_SIZE);
      && Lost(ForkEnv(), s, "r", Log(), EVENT_LOG_BATCH_SIZE, DDone())
      && "r" in end.state.runs && end.state.runs["r"].cursor == 4
      && Key("d") in end.state.rows && end.state.rows[Key("d")].status == Dispatched
  {
    hide Bijective, KeyText, PassOver, Attempted, ReadAt, Past, Owned, OwnedOf, HandleAll, SafeId, ForkPipeline, Log;
    hide OfRun;
    var env, size := ForkEnv(), EVENT_LOG_BATCH_SIZE;
    LogPast();
    WhoOwns(s);
    HandledInOneBatch(env, s, "r", Log(), size);
    CursorIn(env, s, "r", Log(), size);
    OneBatchLossExactly(env, s, "r", Log(), size, DDone());
    assert ADone() in Past(Log(), 1) && DDone() in Past(Log(), 1);
    LossExactly(env, s, "r", Log(), size, DDone(), Key("d"));
    OrphanEventLost(env, s, "r", Log(), size, DDone(), Key("d"), ADone());
    PassIsAttempted(env, Pass(s, [], false), "r", Log(), 1, size);
    RowAppears(s);
    OtherTasks();
  }

  lemma WhoOwns(s: State)
    requires Bijective(s) && s.rows.Keys == {Key("split"), Key("a"), Key("c")}
    ensures Owned(s, "r", CDone()) && !Owned(s, "r", DDone()) && Owned(s, "r", ADone())
    ensures SafeKey(Key("d")) && OfRun("r", DDone())
    ensures OwnedOf(s, "r", [CDone(), DDone(), ADone()]) == [CDone(), ADone()]
  {
    hide KeyText, SafeId, Owned, Bijective;
    ForkSafe();
    OwnedIsRecorded(s, "r", CDone(), Key("c"));
    OwnedIsRecorded(s, "r", DDone(), Key("d"));
    OwnedIsRecorded(s, "r", ADone(), Key("a"));
    OwnOneAndThree(s, CDone(), DDone(), ADone());
  }

  lemma OwnOneAndThree(s: State, one: Event, two: Event, three: Event)
    requires Owned(s, "r", one) && !Owned(s, "r", two) && Owned(s, "r", three)
    ensures OwnedOf(s, "r", [one, two, three]) == [one, three]
  {
    hide Owned;
    assert [one, two, three][..2] == [one, two] && [one, two][..1] == [one] && [one][..0] == [];
    assert OwnedOf(s, "r", [one]) == [one] && OwnedOf(s, "r", [one, two]) == [one];
  }

  /** The two events that are handled are not d's. */
  lemma OtherTasks()
    ensures CDone().task != DDone().task && ADone().task != DDone().task
  {
    hide KeyText, SafeId;
    ForkSafe();
    if TaskOf(Key("c")) == TaskOf(Key("d")) {
      TaskOfInjective(Key("c"), Key("d"));
    }
    if TaskOf(Key("a")) == TaskOf(Key("d")) {
      TaskOfInjective(Key("a"), Key("d"));
    }
  }

  /** c's step, run again, writes the missing row. */
  lemma RowAppears(s: State)
    requires Bijective(s) && "r" in s.runs && s.rows.Keys == {Key("split"), Key("a"), Key("c")}
    ensures Key("d") in HandleAll(ForkEnv(), Pass(s, [], false), [CDone(), ADone()]).state.rows
  {
    hide Bijective, KeyText, ChainNode, ChainLink, AttemptsOf, PlanOf, Lookup, HandleAll, ForkPipeline;
    var o := Pass(s, [], false);
    ForkLinks();
    NoSuchRows(s.rows, "d");
    LinkAdds(ForkEnv(), s, CDone(), Key("c"), "d");
    HandleSingle(ForkEnv(), o, CDone());
    HandleKeeps(ForkEnv(), o, [CDone()]);
    assert [CDone()] + [ADone()] == [CDone(), ADone()];
    HandleConcat(ForkEnv(), o, [CDone()], [ADone()]);
    HandleKeeps(ForkEnv(), Handle(ForkEnv(), o, CDone()), [ADone()]);
  }

  // ---- A second pass, and another batch size ---------------------------------------------

  function ShortLog(): seq<Event> {
    [Done(Key("split"), 1), CDone(), DDone()]
  }

  lemma ShortLogPast()
    ensures InOrder(ShortLog()) && Past(ShortLog(), 1) == [CDone(), DDone()] && Past(ShortLog(), 2) == [DDone()]
  {
    hide KeyText;
    PastIndex(ShortLog(), 1);
    PastIndex(ShortLog(), 2);
    assert ShortLog()[1..] == [CDone(), DDone()] && ShortLog()[2..] == [DDone()];
  }

  ghost function FirstPass(): Pass
    requires InOrder(ShortLog()) && "r" in Fork([Deliver(CDone(), 2)]).runs
  {
    EndOf(ForkEnv(), Fork([Deliver(CDone(), 2)]), "r", ShortLog(), EVENT_LOG_BATCH_SIZE)
  }

  lemma FirstPassRuns()
    ensures InOrder(ShortLog()) && "r" in Fork([Deliver(CDone(), 2)]).runs && !FirstPass().raised
  {
    hide ForkPipeline, EndOf, Bijective, KeyText, After, ShortLog, SoundConfig, CDone;
    OrphanState();
    ShortLogPast();
    ForkSound();
    ReplayNeverRaises(ForkConfig(), Opening() + [Deliver(CDone(), 2)], "r", ShortLog(), EVENT_LOG_BATCH_SIZE);
  }

  /** From the cut state, the pass over this log handles c alone, and d's row is
      there afterwards. */
  lemma HandlesOnlyC(s: State)
    requires Bijective(s) && s.runs == map["r" := Run("fork", RUNNING, map[], 1)]
    requires s.rows.Keys == {Key("split"), Key("a"), Key("c")} && InOrder(ShortLog())
    ensures
      var end := EndOf(ForkEnv(), s, "r", ShortLog(), EVENT_LOG_BATCH_SIZE);
      && end == HandleAll(ForkEnv(), Pass(s, [], false), [CDone()])
      && HandledBy(ForkEnv(), s, "r", ShortLog(), EVENT_LOG_BATCH_SIZE) == [CDone()]
      && Bijective(end.state) && Owned(end.state, "r", DDone()) && !Owned(s, "r", DDone()) && Owned(s, "r", CDone())
      && OwnedOf(s, "r", [CDone()]) == [CDone()]
      && OwnedOf(s, "r", [CDone(), DDone()]) == [CDone()]
  {
    hide Bijective, KeyText, PassOver, Attempted, Past, Owned, OwnedOf, SafeId, ForkPipeline, ShortLog, PlanOf, Lookup;
    hide ChainNode, ChainLink, AttemptsOf, HandleAll, Handle;
    var env, o := ForkEnv(), Pass(s, [], false);
    ShortLogPast();
    WhoOwns(s);
    OwnFirst(s, CDone(), DDone());
    HandledInOneBatch(env, s, "r", ShortLog(), EVENT_LOG_BATCH_SIZE);
    PassIsAttempted(env, o, "r", ShortLog(), 1, EVENT_LOG_BATCH_SIZE);
    HandleKeeps(env, o, [CDone()]);
    HandleSingle(env, o, CDone());
    ForkLinks();
    NoSuchRows(s.rows, "d");
    LinkAdds(env, s, CDone(), Key("c"), "d");
    HandleSteps(env, o, CDone());
    OwnedIsRecorded(HandleAll(env, o, [CDone()]).state, "r", DDone(), Key("d"));
  }

  lemma HandleSteps(env: Env, o: Pass, e: Event)
    requires !o.raised
    ensures Handle(env, o, e).state == Step(env, o.state, e)
    ensures Handle(env, o, e).raised == (PlanOf(env, o.state, e).exit == Errored)
  {
    hide PlanOf;
  }

  lemma OwnFirst(s: State, one: Event, two: Event)
    requires Owned(s, "r", one) && !Owned(s, "r", two)
    ensures OwnedOf(s, "r", [one]) == [one] && OwnedOf(s, "r", [one, two]) == [one]
  {
    hide Owned;
    assert [one, two][..1] == [one] && [one][..0] == [];
  }

  /** The documentation promises that a second pass has no effect. Here the first
      pass ends at c's completion, and writes d's row on the way; d's completion
      was logged all the time, and the second pass handles it. */
  lemma SecondPassHandlesMore()
    ensures
      && InOrder(ShortLog()) && "r" in Fork([Deliver(CDone(), 2)]).runs && !FirstPass().raised
      && var end := FirstPass().state;
      && "r" in end.runs && end.runs["r"].cursor == 2
      && EndOf(ForkEnv(), end, "r", ShortLog(), EVENT_LOG_BATCH_SIZE) != Pass(end, [], false)
  {
    hide Fork, Bijective, KeyText, PassOver, Attempted, Past, Owned, OwnedOf, SafeId, ForkPipeline, ShortLog;
    hide HandleAll, EndOf;
    var s := Fork([Deliver(CDone(), 2)]);
    OrphanState();
    FirstPassRuns();
    HandlesOnlyC(s);
    ShortLogPast();
    CursorIn(ForkEnv(), s, "r", ShortLog(), EVENT_LOG_BATCH_SIZE);
    SecondPassExactly(ForkEnv(), s, "r", ShortLog(), EVENT_LOG_BATCH_SIZE);
    assert DDone() in Past(ShortLog(), 2);
  }

  /** The documentation calls the batch size a throughput knob only. On the same
      log, batches of one handle d's completion and the default batch does not. */
  lemma BatchSizeMatters()
    ensures
      var o := Pass(Fork([Deliver(CDone(), 2)]), [], false);
      && InOrder(ShortLog()) && "r" in o.state.runs && o.state.runs["r"].cursor == 1
      && PassOver(Some(ForkEnv()), o, "r", ShortLog(), 1, 1)
           != PassOver(Some(ForkEnv()), o, "r", ShortLog(), 1, EVENT_LOG_BATCH_SIZE)
  {
    hide Fork, Bijective, KeyText, Attempted, Past, Owned, OwnedOf, SafeId, ForkPipeline, ShortLog, HandleAll, FoldOwn;
    hide PassOver;
    var s := Fork([Deliver(CDone(), 2)]);
    var o, env, past := Pass(s, [], false), ForkEnv(), [CDone(), DDone()];
    OrphanState();
    FirstPassRuns();
    ShortLogPast();
    HandlesOnlyC(s);
    assert past[..1] == [CDone()] && past[1] == DDone();
    OneEventFold(env, o, "r", CDone());
    EmptyFold(env, o, "r");
    assert !TimelyAt(env, o, "r", past, 1);
    assert past[..1][..0] == [];
    assert TimelyAt(env, o, "r", past[..1], 0);
    SizeOneIsFold(env, o, "r", ShortLog(), 1);
    FoldTakes(env, o, "r", past, 1);
    FilterSkips(env, o, "r", past, 1);
  }

  // ---- A pause that no human ends --------------------------------------------------------

  /** The board records the engine's own block as a terminal event of the human's
      card, and the step does not look at an event's kind. So if that event is the
      only one the paused run owns past its cursor, the next pass resumes the run
      and dispatches what follows the HUMAN node; and the human's completion, when
      it comes, dispatches it again. */
  lemma BlockedEventResumes(env: Env, s: State, run: string, log: seq<Event>, size: nat, k: RowKey, id: int,
    next: string, later: int)
    requires InOrder(log) && size >= 1 && Bijective(s) && k in s.rows && k.run == run
    requires run in s.runs && s.runs[run].status == PAUSED_HUMAN && |Past(log, s.runs[run].cursor)| <= size
    requires OwnedOf(s, run, Past(log, s.runs[run].cursor)) == [Done(k, id)]
    requires ChainLink(env.pipeline, k.node, next) && Lookup(env.pipeline.nodes, k.node).value.shape == HUMAN
    requires ChainNode(env.pipeline, k.node, false) && ChainNode(env.pipeline, next, true)
    requires Lookup(env.pipeline.nodes, next).value.shape != HUMAN
    requires AttemptsOf(s.rows, run, next) == {}
    ensures
      var end := EndOf(env, s, run, log, size);
      && !end.raised && run in end.state.runs && end.state.runs[run].status == RUNNING
      && RowKey(run, next, 1) in end.state.rows && end.state.rows[RowKey(run, next, 1)].status == Dispatched
      && RowKey(run, next, 2) in Step(env, end.state, Done(k, later)).rows
  {
    hide Bijective, KeyText, PassOver, Attempted, Past, Owned, OwnedOf, PlanOf, Lookup, ChainLink, ChainNode;
    hide HandleAll, Handle;
    hide Step, AttemptsOf;
    var o, e := Pass(s, [], false), Done(k, id);
    HandledInOneBatch(env, s, run, log, size);
    PassIsAttempted(env, o, run, log, s.runs[run].cursor, size);
    HandleSingle(env, o, e);
    HandleSteps(env, o, e);
    NoneLeft(s.rows, run, next);
    LinkAdds(env, s, e, k, next);
    LinkSteps(env, s, k, id, next);
    StepBijective(env, s, e);
    OneMoreAttempt(s.rows, Step(env, s, e).rows, RowKey(run, next, 1));
    LinkAdds(env, Step(env, s, e), Done(k, later), k, next);
  }

  lemma NoneLeft(rows: Rows, run: string, node: string)
    requires AttemptsOf(rows, run, node) == {}
    ensures |AttemptsOf(rows, run, node)| == 0 && RowKey(run, node, 1) !in rows
  {
    assert RowKey(run, node, 1) in rows ==> 1 in AttemptsOf(rows, run, node);
  }

  function HBlocked(): Event {
    Done(Key("h"), 3)
  }

  function PauseLog(): seq<Event> {
    [Done(Key("split"), 1), Done(Key("a"), 2), HBlocked()]
  }

  lemma PauseLogPast()
    ensures InOrder(PauseLog()) && Past(PauseLog(), 2) == [HBlocked()]
  {
    hide KeyText;
    PastIndex(PauseLog(), 2);
    assert PauseLog()[2..] == [HBlocked()];
  }

  lemma ForkPaused()
    ensures
      var s := Fork([Finish("a", 2)]);
      && Bijective(s) && s.runs == map["r" := Run("fork", PAUSED_HUMAN, map[], 2)]
      && Key("h") in s.rows && s.rows[Key("h")].status == Dispatched && TaskOf(Key("h")) in s.blocked
  {
    hide Fork, Bijective, KeyText, Step, ForkPipeline, Lookup, ChainLink, ChainNode, AttemptsOf;
    ForkOpen();
    ForkLinks();
    ForkNodes();
    NoSuchRows(Fork([]).rows, "h");
    LinkSteps(ForkEnv(), Fork([]), Key("a"), 2, "h");
    FirstDelivered(Done(Key("a"), 2));
  }

  /** A history: the run pauses at h and h's card is blocked; the next pass reads
      that block, and the run is SUCCEEDED without any human. */
  lemma BlockedEventFinishes()
    ensures
      var s := Fork([Finish("a", 2)]);
      && "r" in s.runs && s.runs["r"].status == PAUSED_HUMAN && TaskOf(Key("h")) in s.blocked
      && InOrder(PauseLog())
      && var end := EndOf(ForkEnv(), s, "r", PauseLog(), EVENT_LOG_BATCH_SIZE).state;
      "r" in end.runs && end.runs["r"].status == SUCCEEDED
  {
    hide Fork, Bijective, KeyText, PassOver, Attempted, Past, Owned, OwnedOf, SafeId, ForkPipeline, HandleAll, Handle;
    hide PlanOf, Step;
    hide PauseLog, Lookup, ChainLink, ChainNode;
    var s, env := Fork([Finish("a", 2)]), ForkEnv();
    var o := Pass(s, [], false);
    ForkPaused();
    PauseLogPast();
    ForkLinks();
    ForkNodes();
    ForkExits();
    HRowOwned(s);
    HandledInOneBatch(env, s, "r", PauseLog(), EVENT_LOG_BATCH_SIZE);
    PassIsAttempted(env, o, "r", PauseLog(), 2, EVENT_LOG_BATCH_SIZE);
    HandleSingle(env, o, HBlocked());
    HandleSteps(env, o, HBlocked());
    ExitSteps(env, s, Key("h"), 3, "end");
  }

  lemma ForkExits()
    ensures ChainLink(ForkPipeline(), "h", "end")
  {
    hide OutEdges, Lookup;
    ForkNodes();
    OutEdgesOne(ForkPipeline().edges, "h", 5);
  }

  lemma HRowOwned(s: State)
    requires Bijective(s) && Key("h") in s.rows
    ensures OwnedOf(s, "r", [HBlocked()]) == [HBlocked()]
  {
    hide Bijective, KeyText, SafeId, Owned;
    ForkSafe();
    OwnedIsRecorded(s, "r", HBlocked(), Key("h"));
    assert [HBlocked()][..0] == [];
  }
}

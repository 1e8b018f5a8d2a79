/** Delivering an event a second time, after its step has completed. */
module Redelivery {
  import opened Basics
  import opened Values
  import opened Pipelines
  import opened EdgeSelector
  import opened ContextMerge
  import opened Keys
  import opened RunState
  import opened Advance
  import opened Invariants
  import opened CrashReplay
  import opened FanInConfluence
  import opened Remerge
  import opened Lifecycle

  // ---- What a tail takes from its turn ---------------------------------------

  /** Turns that differ in the stored run only. */
  ghost predicate Alike(t: Turn, u: Turn) {
    t.env == u.env && t.key == u.key && t.event == u.event && t.isGate == u.isGate && t.passed == u.passed
  }

  /** The same writes and exit, and (but for a waiting fan-in) the same context. */
  ghost predicate SameBut(a: Tail, b: Tail) {
    && a.dispatch == b.dispatch && a.exit == b.exit
    && (a.saved == None <==> b.saved == None)
    && (a.saved.Some? && a.exit != FanInWaiting ==> a.saved.value.context == b.saved.value.context)
  }

  lemma {:induction false} AlikeBranches(t: Turn, u: Turn, edges: seq<Edge>)
    requires Alike(t, u) && t.run.context == u.run.context
    ensures Branches(t, edges) == Branches(u, edges)
    decreases |edges|
  {
    hide Unit, ForNode;
    if edges != [] {
      AlikeBranches(t, u, edges[..|edges| - 1]);
    }
  }

  lemma AlikeSend(t: Turn, u: Turn, node: Node, attempt: nat, ctx: Data, parents: set<string>,
                  gate: Option<GoalGatePolicy>, more: seq<Write>, a: Run, b: Run, exit: Exit)
    requires Alike(t, u) && a.context == b.context
    ensures SameBut(SendOne(t, node, attempt, ctx, parents, gate, more, a, exit),
                    SendOne(u, node, attempt, ctx, parents, gate, more, b, exit))
  {
    hide Unit, ForNode;
  }

  lemma AlikeParts(t: Turn, u: Turn)
    requires Alike(t, u)
    ensures t.key == u.key && t.env == u.env && t.event == u.event
  {
  }

  /** A TOOL's tail takes from the turn what its tool leaves. */
  lemma SameToolTail(t: Turn, u: Turn, tool: Node)
    requires Alike(t, u) && ToolContext(u, tool) == ToolContext(t, tool)
    ensures SameBut(ToolTail(t, tool), ToolTail(u, tool))
  {
    hide Select, ToolContext, SendOne, Alike;
    AlikeParts(t, u);
    var ctx := ToolContext(t, tool);
    match Select(OutEdges(t.env.pipeline.edges, tool.id), ctx, Hints(None, []))
    case Raised =>
    case Ok(None) =>
    case Ok(Some(edge)) =>
      match Lookup(t.env.pipeline.nodes, edge.target)
      case None =>
      case Some(next) =>
        AlikeSend(t, u, next, 1, ctx, {tool.id}, next.goalGate, [],
          t.run.(context := ctx).(cursor := t.event.id), u.run.(context := ctx).(cursor := u.event.id), ToolForwarded);
  }

  lemma AlikeTool(t: Turn, u: Turn, tool: Node)
    requires Alike(t, u) && t.run.context == u.run.context
    ensures SameBut(ToolTail(t, tool), ToolTail(u, tool))
  {
    hide ToolTail;
    SameToolTail(t, u, tool);
  }

  lemma AlikeFanIn(t: Turn, u: Turn, next: Node, rows: Rows)
    requires Alike(t, u) && t.run.context == u.run.context
    ensures SameBut(FanInTail(t, next, rows), FanInTail(u, next, rows))
  {
    hide SendOne, AllDone, Alike;
    var preds, ctx := Predecessors(t.env.pipeline.edges, next.id), FanInContext(t, next, rows);
    AlikeParts(t, u);
    assert FanInContext(u, next, rows) == ctx;
    AlikeSend(t, u, next, 1, ctx, preds, next.goalGate, [], Resumed(t, t.run.(context := ctx)),
      Resumed(u, u.run.(context := ctx)), FanInFired);
  }

  lemma AlikeEnter(t: Turn, u: Turn, next: Node, rows: Rows)
    requires Alike(t, u) && t.run.context == u.run.context
    ensures SameBut(EnterTail(t, next, rows), EnterTail(u, next, rows))
  {
    hide SendOne, FanInTail, ToolTail, AttemptsOf, Alike;
    AlikeParts(t, u);
    var attempt := NextAttempt(t, next, rows);
    match next.shape
    case TOOL => AlikeTool(t, u, next);
    case FAN_IN => AlikeFanIn(t, u, next, rows);
    case EXIT =>
    case HUMAN =>
      AlikeSend(t, u, next, attempt, t.run.context, {t.key.node}, next.goalGate,
        [Block(TaskOf(RowKey(t.key.run, next.id, attempt)))],
        t.run.(status := PAUSED_HUMAN, cursor := t.event.id),
        u.run.(status := PAUSED_HUMAN, cursor := u.event.id), HumanPaused);
    case _ =>
      AlikeSend(t, u, next, attempt, t.run.context, {t.key.node}, next.goalGate, [], Resumed(t, t.run),
        Resumed(u, u.run), Forwarded);
  }

  lemma AlikeRoute(t: Turn, u: Turn, rows: Rows)
    requires Alike(t, u) && t.run.context == u.run.context
    ensures SameBut(RouteTail(t, rows), RouteTail(u, rows))
  {
    hide EnterTail, Select;
    forall next
      ensures SameBut(EnterTail(t, next, rows), EnterTail(u, next, rows))
    {
      AlikeEnter(t, u, next, rows);
    }
  }

  lemma AlikeTails(t: Turn, u: Turn, rows: Rows)
    requires Alike(t, u) && t.run.context == u.run.context
    ensures SameBut(TailOf(t, rows), TailOf(u, rows))
  {
    hide RouteTail, Unit, ForNode, Branches;
    AlikeBranches(t, u, OutEdges(t.env.pipeline.edges, t.key.node));
    AlikeRoute(t, u, rows);
  }

  // ---- The second turn -------------------------------------------------------

  ghost function Again(t: Turn, saved: Run): Turn {
    TurnOf(t.env, t.key, saved, t.event)
  }

  ghost predicate IsTurn(t: Turn) {
    t == TurnOf(t.env, t.key, t.before, t.event)
  }

  /** With the same context to work on, the second tail is the first. */
  lemma SecondTail(t: Turn, rows: Rows)
    requires IsTurn(t) && TailOf(t, rows).saved.Some?
    requires
      var saved := TailOf(t, rows).saved.value;
      Again(t, saved).run.context == t.run.context
    ensures TailOf(Again(t, TailOf(t, rows).saved.value), rows) == TailOf(t, rows)
  {
    hide TailOf, Alike;
    var tail := TailOf(t, rows);
    var u := Again(t, tail.saved.value);
    TurnInherits(t);
    TurnInherits(u);
    AlikeAgain(t, tail.saved.value);
    AlikeTails(t, u, rows);
    TailSaves(t, rows);
    TailSaves(u, rows);
    TailStatus(t, rows);
    TailStatus(u, rows);
    if tail.exit == FanInWaiting {
      WaitingSaves(t, rows);
      WaitingSaves(u, rows);
    }
  }

  lemma TurnInherits(t: Turn)
    requires IsTurn(t)
    ensures t.run.specId == t.before.specId && t.run.status == t.before.status
  {
  }

  lemma AlikeAgain(t: Turn, saved: Run)
    requires IsTurn(t)
    ensures Alike(t, Again(t, saved)) && IsTurn(Again(t, saved)) && Again(t, saved).before == saved
  {
  }

  lemma WaitingSaves(t: Turn, rows: Rows)
    requires TailOf(t, rows).exit == FanInWaiting
    ensures TailOf(t, rows).saved == Some(t.before.(cursor := t.event.id))
    ensures Entered(t).Some? && Entered(t).value.shape == FAN_IN
  {
    hide TailOf, Entered, ForNode, Unit, NextAttempt, ToolTail, AllDone;
    TailEnters(t, rows, rows);
    var next := Entered(t).value;
    if next.shape == TOOL {
      BlindTail(t, next, rows, rows);
    }
  }

  /** Exits that save the context they worked with. */
  ghost predicate KeepsContext(t: Turn, exit: Exit) {
    exit in {FannedOut, GateBlocked, GateRetried, FanInWaiting, HumanPaused, Forwarded, Finished, NoEdge}
    || (t.env.tools == None && exit in {ToolFinished, ToolForwarded, ToolStalled, ToolDeadEnd})
  }

  ghost predicate ContextFits(t: Turn, tail: Tail) {
    tail.saved.Some? && KeepsContext(t, tail.exit) ==>
      tail.saved.value.context == if tail.exit == FanInWaiting then t.before.context else t.run.context
  }

  lemma EnterContext(t: Turn, next: Node, rows: Rows)
    ensures ContextFits(t, EnterTail(t, next, rows))
  {
    hide Unit, ForNode, Select, AllDone, FanInContext, NextAttempt;
    match next.shape
    case TOOL =>
    case _ =>
  }

  lemma RouteContext(t: Turn, rows: Rows)
    ensures ContextFits(t, RouteTail(t, rows))
  {
    hide EnterTail, Select, KeepsContext;
    forall next
      ensures ContextFits(t, EnterTail(t, next, rows))
    {
      EnterContext(t, next, rows);
    }
  }

  lemma TailContext(t: Turn, rows: Rows)
    ensures ContextFits(t, TailOf(t, rows))
  {
    hide RouteTail, Unit, ForNode, Branches, KeepsContext;
    RouteContext(t, rows);
  }

  lemma EnteredFeeds(t: Turn)
    requires IsTurn(t) && Entered(t).Some? && Entered(t).value.shape == FAN_IN
    ensures FeedsFanIn(t.env.pipeline, t.key.node) && t.run == t.before
  {
    hide Select;
    SelectOptimal(OutEdges(t.env.pipeline.edges, t.key.node), t.run.context, HintsOf(t));
  }

  /** Applying the same updates again changes nothing. */
  lemma SecondContext(t: Turn, rows: Rows)
    requires IsTurn(t) && TailOf(t, rows).saved.Some? && KeepsContext(t, TailOf(t, rows).exit)
    ensures Again(t, TailOf(t, rows).saved.value).run.context == t.run.context
  {
    hide TailOf, Entered, KeepsContext;
    TailContext(t, rows);
    if TailOf(t, rows).exit == FanInWaiting {
      WaitingSaves(t, rows);
      EnteredFeeds(t);
    }
  }

  // ---- The second step -------------------------------------------------------

  /** The state after a step that saves. */
  lemma FirstStep(env: Env, s: State, e: Event, t: Turn)
    requires Bijective(s) && TurnAt(env, s, e) == Some(t) && TailOf(t, MarkedRows(t, s.rows)).saved.Some?
    ensures
      var tail := TailOf(t, MarkedRows(t, s.rows));
      var before := Imprint(s.(rows := MarkedRows(t, s.rows)), EffectOf(tail.dispatch));
      && Step(env, s, e) == before.(runs := s.runs[t.key.run := tail.saved.value])
      && Bijective(Step(env, s, e)) && t.key in Step(env, s, e).rows
      && IsTurn(t)
      && TurnAt(env, Step(env, s, e), e) == Some(Again(t, tail.saved.value))
  {
    hide TailOf, Step, Bijective, Imprint;
    var tail := TailOf(t, MarkedRows(t, s.rows));
    EndsBeforeSave(env, s, e, t);
    StepBijective(env, s, e);
    var marked := s.(rows := MarkedRows(t, s.rows));
    FoundTurn(env, s, e, t);
    ImprintRows(marked, EffectOf(tail.dispatch));
    SavedState(Imprint(marked, EffectOf(tail.dispatch)), t.key.run, tail.saved.value);
    FindsOwn(Step(env, s, e), t.key);
    HasRun(Step(env, s, e), t.key);
    OwnTaskOf(Step(env, s, e), t.key);
  }

  lemma FoundTurn(env: Env, s: State, e: Event, t: Turn)
    requires Bijective(s) && TurnAt(env, s, e) == Some(t)
    ensures IsTurn(t) && t.key in s.rows && t.key.run in s.runs && t.env == env && t.event == e
    ensures e.task == TaskOf(t.key)
  {
  }

  lemma ImprintRows(s: State, a: Effect)
    ensures forall k | k in s.rows :: k in Imprint(s, a).rows
    ensures Imprint(s, a).runs == s.runs && Imprint(s, a).rows == s.rows + a.rows
  {
  }

  lemma SavedState(s: State, run: string, saved: Run)
    requires run in s.runs
    ensures ApplyAll(s, [Save(run, saved)]) == s.(runs := s.runs[run := saved])
  {
    assert [Save(run, saved)][..0] == [];
  }

  /** If the second tail is the first, the second delivery changes nothing. */
  lemma SameTailSilent(env: Env, s: State, e: Event, t: Turn)
    requires Bijective(s) && TurnAt(env, s, e) == Some(t) && TailOf(t, MarkedRows(t, s.rows)).saved.Some?
    requires
      var tail := TailOf(t, MarkedRows(t, s.rows));
      var u := Again(t, tail.saved.value);
      t.key in Step(env, s, e).rows ==> TailOf(u, MarkedRows(u, Step(env, s, e).rows)) == tail
    ensures Step(env, Step(env, s, e), e) == Step(env, s, e)
  {
    hide TailOf, Step, Bijective, Imprint;
    var tail := TailOf(t, MarkedRows(t, s.rows));
    var s1 := Step(env, s, e);
    FirstStep(env, s, e, t);
    FirstStep(env, s1, e, Again(t, tail.saved.value));
    var marked, a := s.(rows := MarkedRows(t, s.rows)), EffectOf(tail.dispatch);
    CutKeepsOwnRow(t, marked, a);
    WithinSelf(a);
    RemarkedImprint(marked, t.key, Marked(t, s1.rows[t.key]), a, a);
    ImprintOver(marked, s1, t, a, tail.saved.value);
  }

  lemma WithinSelf(a: Effect)
    ensures Within(a, a)
  {
  }

  lemma ImprintOver(marked: State, s1: State, t: Turn, a: Effect, saved: Run)
    requires t.key in Imprint(marked, a).rows && s1 == Imprint(marked, a).(runs := marked.runs[t.key.run := saved])
    requires
      var cut := Imprint(marked, a);
      Imprint(cut.(rows := cut.rows[t.key := Marked(t, s1.rows[t.key])]), a) == Imprint(marked, a)
    ensures Imprint(s1.(rows := MarkedRows(t, s1.rows)), a).(runs := s1.runs[t.key.run := saved]) == s1
  {
    assert s1.runs[t.key.run := saved] == s1.runs;
  }

  /** Marking depends on the event only. */
  lemma MarkedAlike(t: Turn, u: Turn, rows: Rows)
    requires Alike(t, u) && t.key in rows
    ensures MarkedRows(t, rows) == MarkedRows(u, rows)
  {
  }

  /** A sturdy step that keeps its context is idempotent: delivered again, it
      changes nothing. */
  lemma SturdyIdempotent(env: Env, s: State, e: Event, t: Turn)
    requires Bijective(s) && TurnAt(env, s, e) == Some(t) && Sturdy(t, MarkedRows(t, s.rows))
    requires TailOf(t, MarkedRows(t, s.rows)).saved.Some? && KeepsContext(t, TailOf(t, MarkedRows(t, s.rows)).exit)
    ensures Step(env, Step(env, s, e), e) == Step(env, s, e)
  {
    hide TailOf, Step, Bijective, Imprint, Sturdy, KeepsContext;
    var rows := MarkedRows(t, s.rows);
    var tail := TailOf(t, rows);
    FirstStep(env, s, e, t);
    SecondRows(env, s, e, t);
    var u := Again(t, tail.saved.value);
    AlikeAgain(t, tail.saved.value);
    MarkedAlike(t, u, Step(env, s, e).rows);
    var after := MarkedRows(t, Step(env, s, e).rows);
    SecondContextAt(t, rows, after);
    SameTailSilent(env, s, e, t);
  }

  lemma SecondRows(env: Env, s: State, e: Event, t: Turn)
    requires Bijective(s) && TurnAt(env, s, e) == Some(t) && Sturdy(t, MarkedRows(t, s.rows))
    requires TailOf(t, MarkedRows(t, s.rows)).saved.Some?
    ensures t.key in Step(env, s, e).rows
    ensures TailOf(t, MarkedRows(t, Step(env, s, e).rows)) == TailOf(t, MarkedRows(t, s.rows))
  {
    hide TailOf, Step, Bijective, Imprint, Sturdy;
    var rows := MarkedRows(t, s.rows);
    var tail := TailOf(t, rows);
    FirstStep(env, s, e, t);
    ImprintRows(s.(rows := rows), EffectOf(tail.dispatch));
    FoundTurn(env, s, e, t);
    AttemptsPositive(t, s);
    SameTail(t, rows, |tail.dispatch|);
    assert tail.dispatch[..|tail.dispatch|] == tail.dispatch;
  }

  lemma SecondContextAt(t: Turn, rows: Rows, after: Rows)
    requires IsTurn(t) && TailOf(t, rows).saved.Some? && KeepsContext(t, TailOf(t, rows).exit)
    requires TailOf(t, after) == TailOf(t, rows)
    ensures TailOf(Again(t, TailOf(t, rows).saved.value), after) == TailOf(t, rows)
  {
    hide TailOf, KeepsContext;
    SecondContext(t, after);
    SecondTail(t, after);
  }

  // ---- Exactly when it is silent -----------------------------------------------

  /** A fresh ordinary or HUMAN dispatch: the second delivery dispatches the
      next attempt. */
  lemma FreshAgain(env: Env, s: State, e: Event, t: Turn, next: Node)
    requires Bijective(s) && TurnAt(env, s, e) == Some(t) && Entered(t) == Some(next) && Counted(next)
    requires TailOf(t, MarkedRows(t, s.rows)).exit != Errored && !Sturdy(t, MarkedRows(t, s.rows))
    ensures
      var second := RowKey(t.key.run, next.id, NextAttempt(t, next, MarkedRows(t, s.rows)) + 1);
      Step(env, Step(env, s, e), e).rows ==
        Step(env, s, e).rows[second := DispatchedRow(second, {t.key.node}, next.goalGate)]
    ensures Step(env, Step(env, s, e), e) == Step(env, s, e) <==> Coincides(t, s, 4)
  {
    hide Step, Bijective, CrashAt, Entered, EnterTail, TailOf, CountedTail, NextAttempt, KeyText, Imprint;
    hide CountedEffect, ApplyAll, Coincides;
    var rows := MarkedRows(t, s.rows);
    var attempt, all := NextAttempt(t, next, rows), CountedLength(next);
    FoundTurn(env, s, e, t);
    CountedFresh(t, next, rows);
    FreshForms(env, s, e, t, next);
    FreshEndsCompare(s, t, next, attempt, all + 1);
    LateCoincides(t, s, next, all + 1);
    CountedRows(Step(env, s, e), t, next, attempt + 1);
  }

  lemma CountedFresh(t: Turn, next: Node, rows: Rows)
    requires Entered(t) == Some(next) && Counted(next) && TailOf(t, rows).exit != Errored && !Sturdy(t, rows)
    ensures RowKey(t.key.run, next.id, NextAttempt(t, next, rows)) !in rows
    ensures ForNode(RowKey(t.key.run, next.id, NextAttempt(t, next, rows))) != Raised
    ensures TailOf(t, rows) == CountedTail(t, next, NextAttempt(t, next, rows))
    ensures forall a: nat | a >= 1 :: CountedTail(t, next, a).dispatch != []
  {
    hide Entered, EnterTail, TailOf, CountedTail, NextAttempt, KeyText;
    TailEnters(t, rows, rows);
    CountedEnters(t, next, rows);
    CountedDispatches(t, next, NextAttempt(t, next, rows));
  }

  /** The state after the first delivery of a fresh dispatch. */
  lemma FreshFirst(env: Env, s: State, e: Event, t: Turn, next: Node)
    requires Bijective(s) && TurnAt(env, s, e) == Some(t) && Entered(t) == Some(next) && Counted(next)
    requires TailOf(t, MarkedRows(t, s.rows)).exit != Errored && !Sturdy(t, MarkedRows(t, s.rows))
    ensures t.key in s.rows && t.key.run in s.runs && IsTurn(t)
    ensures
      var rows, saved := MarkedRows(t, s.rows), CountedSave(t, next);
      var whole := Imprint(s.(rows := rows), CountedEffect(t, next, NextAttempt(t, next, rows), CountedLength(next)));
      && Step(env, s, e) == ApplyAll(whole, [Save(t.key.run, saved)])
      && Step(env, s, e) == whole.(runs := whole.runs[t.key.run := saved])
      && Bijective(Step(env, s, e)) && TurnAt(env, Step(env, s, e), e) == Some(Again(t, saved))
      && t.key.run in whole.runs && t.key in whole.rows && whole.runs == s.runs
  {
    hide Step, Bijective, Entered, TailOf, CountedTail, NextAttempt, KeyText, Imprint, CountedEffect, ApplyAll, Sturdy;
    hide CountedSave;
    var rows, saved := MarkedRows(t, s.rows), CountedSave(t, next);
    var attempt, all := NextAttempt(t, next, rows), CountedLength(next);
    FoundTurn(env, s, e, t);
    CountedFresh(t, next, rows);
    CountedWhole(t, next, attempt);
    FirstStep(env, s, e, t);
    var whole := Imprint(s.(rows := rows), CountedEffect(t, next, attempt, all));
    ImprintRuns(s.(rows := rows), CountedEffect(t, next, attempt, all));
    ImprintRows(s.(rows := rows), CountedEffect(t, next, attempt, all));
    SavedState(whole, t.key.run, saved);
  }

  /** The states after the first and after the second delivery. */
  lemma FreshForms(env: Env, s: State, e: Event, t: Turn, next: Node)
    requires Bijective(s) && TurnAt(env, s, e) == Some(t) && Entered(t) == Some(next) && Counted(next)
    requires TailOf(t, MarkedRows(t, s.rows)).exit != Errored && !Sturdy(t, MarkedRows(t, s.rows))
    ensures t.key in s.rows
    ensures
      var marked := s.(rows := MarkedRows(t, s.rows));
      var attempt, all := NextAttempt(t, next, marked.rows), CountedLength(next);
      var whole := Imprint(marked, CountedEffect(t, next, attempt, all));
      var more := CountedEffect(t, next, attempt + 1, all);
      var save := [Save(t.key.run, CountedSave(t, next))];
      && Step(env, s, e) == ApplyAll(whole, save)
      && Step(env, Step(env, s, e), e) == ApplyAll(Imprint(whole, more), save)
      && Step(env, Step(env, s, e), e).rows == Imprint(Step(env, s, e), more).rows
  {
    hide Step, Bijective, Entered, TailOf, CountedTail, NextAttempt, KeyText, Imprint, CountedEffect, ApplyAll, Sturdy;
    hide CountedSave;
    hide Alike, IsTurn;
    var marked := s.(rows := MarkedRows(t, s.rows));
    FreshFirst(env, s, e, t, next);
    FoundTurn(env, s, e, t);
    CountedFresh(t, next, marked.rows);
    var attempt, all, saved := NextAttempt(t, next, marked.rows), CountedLength(next), CountedSave(t, next);
    var whole, more := Imprint(marked, CountedEffect(t, next, attempt, all)), CountedEffect(t, next, attempt + 1, all);
    FreshRerun(t, next, marked, whole, attempt, all);
    CountedWhole(t, next, attempt + 1);
    SecondCounted(t, next, attempt + 1, whole.rows);
    AlikeAgain(t, saved);
    FreshSecond(env, Step(env, s, e), e, t, Again(t, saved), whole, CountedTail(t, next, attempt + 1), saved);
    ImprintRuns(whole, more);
    SavedState(Imprint(whole, more), t.key.run, saved);
    ImprintElsewhere(whole, Step(env, s, e), more, t.key.run, saved);
  }

  /** The second delivery, when marking changes nothing and the tail is known. */
  lemma FreshSecond(env: Env, s1: State, e: Event, t: Turn, u: Turn, whole: State, tail: Tail, saved: Run)
    requires Bijective(s1) && TurnAt(env, s1, e) == Some(u) && Alike(t, u) && t.key in whole.rows
    requires t.key.run in whole.runs && s1 == whole.(runs := whole.runs[t.key.run := saved])
    requires whole.(rows := MarkedRows(t, whole.rows)) == whole
    requires TailOf(u, MarkedRows(t, whole.rows)) == tail && tail.saved == Some(saved)
    ensures Step(env, s1, e) == Imprint(s1, EffectOf(tail.dispatch)).(runs := s1.runs[t.key.run := saved])
  {
    hide Step, Bijective, TailOf, Imprint, EffectOf;
    MarkedAlike(t, u, whole.rows);
    AlikeParts(t, u);
    FirstStep(env, s1, e, u);
  }

  lemma CountedRows(s: State, t: Turn, next: Node, attempt: nat)
    ensures
      var k := RowKey(t.key.run, next.id, attempt);
      Imprint(s, CountedEffect(t, next, attempt, CountedLength(next))).rows ==
        s.rows[k := DispatchedRow(k, {t.key.node}, next.goalGate)]
  {
  }

  lemma CountedWhole(t: Turn, next: Node, attempt: nat)
    requires CountedTail(t, next, attempt).dispatch != []
    ensures CountedTail(t, next, attempt).saved == Some(CountedSave(t, next))
    ensures EffectOf(CountedTail(t, next, attempt).dispatch) == CountedEffect(t, next, attempt, CountedLength(next))
    ensures KeepsContext(t, CountedTail(t, next, attempt).exit)
  {
    hide CountedTail, KeyText;
    var tail := CountedTail(t, next, attempt);
    CountedTailShape(t, next, attempt, 0);
    CountedTailShape(t, next, attempt, |tail.dispatch|);
    assert tail.dispatch[..|tail.dispatch|] == tail.dispatch;
  }

  lemma SecondCounted(t: Turn, next: Node, attempt: nat, rows: Rows)
    requires IsTurn(t) && t.key in rows && TailOf(t, MarkedRows(t, rows)) == CountedTail(t, next, attempt)
    requires CountedTail(t, next, attempt).dispatch != []
    ensures TailOf(Again(t, CountedSave(t, next)), MarkedRows(t, rows)) == CountedTail(t, next, attempt)
  {
    hide TailOf, CountedTail, KeepsContext, CountedSave;
    CountedWhole(t, next, attempt);
    SecondContext(t, MarkedRows(t, rows));
    SecondTail(t, MarkedRows(t, rows));
  }

  /** An effect on two states that differ in their runs only. */
  lemma ImprintElsewhere(whole: State, s1: State, more: Effect, run: string, saved: Run)
    requires s1 == whole.(runs := whole.runs[run := saved])
    ensures Imprint(s1, more).(runs := s1.runs[run := saved]) == Imprint(whole, more).(runs := whole.runs[run := saved])
  {
  }

  lemma LateCoincides(t: Turn, s: State, next: Node, cut: nat)
    requires t.key in s.rows && Entered(t) == Some(next) && Counted(next) && cut == CountedLength(next) + 1
    ensures Coincides(t, s, cut) <==> Coincides(t, s, 4)
  {
  }

  /** Main result, against the documented promise that running a step twice is
      running it once. Of the steps that keep their context, a second delivery
      changes nothing iff the step is sturdy, that is, it does not dispatch a
      fresh attempt by counting rows; or the attempt after that one exists
      already in just the form it would be dispatched in. */
  lemma IdempotentExactly(env: Env, s: State, e: Event, t: Turn)
    requires Bijective(s) && TurnAt(env, s, e) == Some(t)
    requires PlanOf(env, s, e).exit != Errored && KeepsContext(t, PlanOf(env, s, e).exit)
    ensures Step(env, Step(env, s, e), e) == Step(env, s, e) <==> Sturdy(t, MarkedRows(t, s.rows)) || Coincides(t, s, 4)
  {
    hide Step, Bijective, TailOf, Sturdy, Coincides, KeepsContext, PlanOf;
    var rows := MarkedRows(t, s.rows);
    PlanParts(env, s, e, t);
    SavesUnlessRaised(t, rows, env, s, e);
    if Sturdy(t, rows) {
      SturdyIdempotent(env, s, e, t);
    } else {
      ShakyIsCounted(t, rows);
      FreshAgain(env, s, e, t, Entered(t).value);
    }
  }

  lemma SavesUnlessRaised(t: Turn, rows: Rows, env: Env, s: State, e: Event)
    requires TurnAt(env, s, e) == Some(t) && TailOf(t, rows).exit != Errored
    ensures TailOf(t, rows).saved.Some?
  {
    hide TailOf;
    TailSaves(t, rows);
  }

  lemma ShakyIsCounted(t: Turn, rows: Rows)
    requires !Sturdy(t, rows) && TailOf(t, rows).exit != Errored && KeepsContext(t, TailOf(t, rows).exit)
    ensures Entered(t).Some? && Counted(Entered(t).value)
  {
    hide TailOf, Entered, EnterTail, SelfBlocking, AllDone;
    TailEnters(t, rows, rows);
    var next := Entered(t).value;
    if next.shape == FAN_IN {
      FanInFires(t, next, rows);
      FanInTailShape(t, next, rows, 0);
    }
  }

  /** In terms of the exits. */
  lemma IdempotentExits(env: Env, s: State, e: Event, t: Turn)
    requires Bijective(s) && TurnAt(env, s, e) == Some(t)
    requires PlanOf(env, s, e).exit in {FannedOut, GateBlocked, GateRetried, FanInWaiting, Finished, NoEdge}
    ensures Step(env, Step(env, s, e), e) == Step(env, s, e)
  {
    hide Step, Bijective, TailOf, Sturdy, Coincides, PlanOf;
    if !Sturdy(t, MarkedRows(t, s.rows)) {
      SturdyExits(env, s, e);
    }
    IdempotentExactly(env, s, e, t);
  }

  // ---- A fan-in delivered again --------------------------------------------------

  /** The turn as it stands once the merge is stored. */
  ghost function MergedTurn(t: Turn, fan: Node, rows: Rows): Turn {
    t.(run := t.run.(context := FanInContext(t, fan, rows)))
  }

  lemma AgainEnters(t: Turn, fan: Node, rows: Rows, saved: Run)
    requires IsTurn(t) && FeedsFanIn(t.env.pipeline, t.key.node) && saved.context == FanInContext(t, fan, rows)
    ensures Entered(Again(t, saved)) == Entered(MergedTurn(t, fan, rows))
    ensures Again(t, saved).run == saved && Again(t, saved).before == saved
  {
    hide Select, FanInContext;
  }

  /** Without guards on its edges a node selects the same edge in any context. */
  lemma {:induction false} UnguardedCandidates(edges: seq<Edge>, ctx: Data)
    requires forall e | e in edges :: e.condition == None
    ensures Candidates(edges, ctx) == edges
    decreases |edges|
  {
    if edges != [] {
      var n := |edges| - 1;
      assert edges == edges[..n] + [edges[n]];
      UnguardedCandidates(edges[..n], ctx);
    }
  }

  lemma UnguardedEnters(t: Turn, fan: Node, rows: Rows)
    requires Entered(t) == Some(fan)
    requires forall e | e in OutEdges(t.env.pipeline.edges, t.key.node) :: e.condition == None
    ensures Entered(MergedTurn(t, fan, rows)) == Some(fan)
  {
    hide First, FanInContext;
    var edges := OutEdges(t.env.pipeline.edges, t.key.node);
    UnguardedCandidates(edges, t.run.context);
    UnguardedCandidates(edges, FanInContext(t, fan, rows));
  }

  /** The step that fires a fan-in: its tail and the rows it leaves. */
  lemma FiredStep(env: Env, s: State, e: Event, t: Turn, fan: Node)
    requires Bijective(s) && TurnAt(env, s, e) == Some(t) && Entered(t) == Some(fan) && fan.shape == FAN_IN
    requires TailOf(t, MarkedRows(t, s.rows)).exit == FanInFired
    ensures IsTurn(t) && t.key in s.rows && SafeId(t.key.run) && SafeId(fan.id)
    ensures FeedsFanIn(t.env.pipeline, t.key.node) && t.run == t.before == s.runs[t.key.run]
    ensures
      var rows, first := MarkedRows(t, s.rows), RowKey(t.key.run, fan.id, 1);
      var preds, ctx := Predecessors(t.env.pipeline.edges, fan.id), FanInContext(t, fan, rows);
      && AllDone(rows, t.key.run, preds)
      && TailOf(t, rows) == Tail(
           [Create(KeyText(first), CardFor(t.env.pipeline, fan, ctx, [t.event.task])),
             Upsert(first, DispatchedRow(first, preds, fan.goalGate))],
           Some(Resumed(t, t.run.(context := ctx))), FanInFired)
      && Step(env, s, e).rows == rows[first := DispatchedRow(first, preds, fan.goalGate)]
  {
    hide TailOf, Entered, KeyText, SafeId, AllDone, FanInContext, Bijective, Step, Imprint, Predecessors;
    var rows, first := MarkedRows(t, s.rows), RowKey(t.key.run, fan.id, 1);
    var preds, ctx := Predecessors(t.env.pipeline.edges, fan.id), FanInContext(t, fan, rows);
    FoundTurn(env, s, e, t);
    EnteredFeeds(t);
    FiredFacts(t, fan, rows);
    FanInSends(t, fan, rows);
    var card, row := CardFor(t.env.pipeline, fan, ctx, [t.event.task]), DispatchedRow(first, preds, fan.goalGate);
    SendStep(env, s, e, t, first, card, row, Resumed(t, t.run.(context := ctx)), FanInFired);
  }

  lemma FiredFacts(t: Turn, fan: Node, rows: Rows)
    requires Entered(t) == Some(fan) && fan.shape == FAN_IN && TailOf(t, rows).exit == FanInFired
    ensures AllDone(rows, t.key.run, Predecessors(t.env.pipeline.edges, fan.id)) && SafeId(t.key.run) && SafeId(fan.id)
  {
    hide TailOf, Entered, KeyText, SafeId, AllDone, FanInContext;
    TailEnters(t, rows, rows);
  }

  /** The completion that fires a fan-in, delivered again while its node still
      selects that fan-in: nothing changes iff the fan-in blocks itself, or
      merging the same updates once more changes nothing, which `RemergeSilent`
      says of the stored context and the branches' updates. */
  lemma FanInAgain(env: Env, s: State, e: Event, t: Turn, fan: Node)
    requires Bijective(s) && TurnAt(env, s, e) == Some(t) && Entered(t) == Some(fan) && fan.shape == FAN_IN
    requires PlanOf(env, s, e).exit == FanInFired
    requires Entered(MergedTurn(t, fan, MarkedRows(t, s.rows))) == Some(fan)
    ensures t.key.run in s.runs
    ensures
      var rows := MarkedRows(t, s.rows);
      var updates := UpdatesOf(rows, t.key.run, Sorted(Predecessors(env.pipeline.edges, fan.id)));
      Step(env, Step(env, s, e), e) == Step(env, s, e) <==>
        SelfBlocking(t, fan, rows) || RemergeSilent(s.runs[t.key.run].context, updates)
  {
    hide Step, Bijective, TailOf, Entered, AllDone, Merged, UpdatesOf, KeyText, SafeId, Predecessors, PlanOf;
    hide RemergeSilent, SelfBlocking;
    var rows := MarkedRows(t, s.rows);
    PlanParts(env, s, e, t);
    FoundTurn(env, s, e, t);
    FiredStep(env, s, e, t, fan);
    var saved := TailOf(t, rows).saved.value;
    AgainEnters(t, fan, rows, saved);
    if SelfBlocking(t, fan, rows) {
      BlockedAgain(env, s, e, t, fan);
    } else {
      RefiresExactly(env, s, e, t, fan);
      RemergeExactly(s.runs[t.key.run].context,
        UpdatesOf(rows, t.key.run, Sorted(Predecessors(env.pipeline.edges, fan.id))));
    }
  }

  lemma BlockedAgain(env: Env, s: State, e: Event, t: Turn, fan: Node)
    requires Bijective(s) && TurnAt(env, s, e) == Some(t) && Entered(t) == Some(fan) && fan.shape == FAN_IN
    requires TailOf(t, MarkedRows(t, s.rows)).exit == FanInFired && TailOf(t, MarkedRows(t, s.rows)).saved.Some?
    requires SelfBlocking(t, fan, MarkedRows(t, s.rows))
    requires Entered(Again(t, TailOf(t, MarkedRows(t, s.rows)).saved.value)) == Some(fan)
    ensures Step(env, Step(env, s, e), e) == Step(env, s, e)
  {
    hide Step, Bijective, TailOf, Entered, AllDone, FanInContext, KeyText, SafeId, Predecessors, SelfBlocking, Imprint;
    var rows := MarkedRows(t, s.rows);
    var tail := TailOf(t, rows);
    FirstStep(env, s, e, t);
    var u, s1 := Again(t, tail.saved.value), Step(env, s, e);
    BlockedTail(env, s, e, t, fan, u);
    FirstStep(env, s1, e, u);
    ImprintNothing(s1);
    WaitingSame(t, rows, tail.saved.value, u);
  }

  /** The second turn finds the fan-in's own row open again, and waits. */
  lemma BlockedTail(env: Env, s: State, e: Event, t: Turn, fan: Node, u: Turn)
    requires Bijective(s) && TurnAt(env, s, e) == Some(t) && Entered(t) == Some(fan) && fan.shape == FAN_IN
    requires TailOf(t, MarkedRows(t, s.rows)).exit == FanInFired && TailOf(t, MarkedRows(t, s.rows)).saved.Some?
    requires SelfBlocking(t, fan, MarkedRows(t, s.rows)) && u == Again(t, TailOf(t, MarkedRows(t, s.rows)).saved.value)
    requires Entered(u) == Some(fan)
    ensures u.key in Step(env, s, e).rows && MarkedRows(u, Step(env, s, e).rows) == Step(env, s, e).rows
    ensures TailOf(u, MarkedRows(u, Step(env, s, e).rows)) ==
      Tail([], Some(u.before.(cursor := u.event.id)), FanInWaiting)
  {
    hide Step, Bijective, TailOf, Entered, AllDone, FanInContext, KeyText, SafeId, Predecessors, SelfBlocking, Imprint;
    var rows := MarkedRows(t, s.rows);
    var marked, first := s.(rows := rows), RowKey(t.key.run, fan.id, 1);
    FiredStep(env, s, e, t, fan);
    AlikeAgain(t, TailOf(t, rows).saved.value);
    var done := Effect(map[first := DispatchedRow(first, Predecessors(t.env.pipeline.edges, fan.id), fan.goalGate)],
      map[], {});
    ImprintRows(marked, done);
    AlikeBlocking(t, u, fan, rows);
    MarkedTwice(t, u, s.rows);
    SelfBlocked(u, fan, marked, Imprint(marked, done), done);
    UnmarkedSame(Imprint(marked, done), Step(env, s, e), u);
  }

  lemma UnmarkedSame(cut: State, s: State, u: Turn)
    requires cut.rows == s.rows && u.key in cut.rows && cut.(rows := MarkedRows(u, cut.rows)) == cut
    ensures MarkedRows(u, s.rows) == s.rows
  {
  }

  lemma MarkedTwice(t: Turn, u: Turn, rows: Rows)
    requires Alike(t, u) && t.key in rows
    ensures u.key in MarkedRows(t, rows) && Marked(u, MarkedRows(t, rows)[u.key]) == MarkedRows(t, rows)[u.key]
  {
  }

  lemma AlikeBlocking(t: Turn, u: Turn, fan: Node, rows: Rows)
    requires Alike(t, u)
    ensures SelfBlocking(t, fan, rows) <==> SelfBlocking(u, fan, rows)
  {
    hide LatestKey, Predecessors;
  }

  lemma WaitingSame(t: Turn, rows: Rows, saved: Run, u: Turn)
    requires IsTurn(t) && TailOf(t, rows).saved == Some(saved) && u == Again(t, saved)
    ensures u.before.(cursor := u.event.id) == saved
  {
    hide TailOf;
    TurnInherits(t);
    AlikeAgain(t, saved);
    TailSaves(t, rows);
  }

  /** Otherwise the fan-in fires again, into the context merged once more. */
  lemma RefiresExactly(env: Env, s: State, e: Event, t: Turn, fan: Node)
    requires Bijective(s) && TurnAt(env, s, e) == Some(t) && Entered(t) == Some(fan) && fan.shape == FAN_IN
    requires TailOf(t, MarkedRows(t, s.rows)).exit == FanInFired && TailOf(t, MarkedRows(t, s.rows)).saved.Some?
    requires !SelfBlocking(t, fan, MarkedRows(t, s.rows))
    requires Entered(Again(t, TailOf(t, MarkedRows(t, s.rows)).saved.value)) == Some(fan)
    ensures t.key.run in s.runs
    ensures
      var rows := MarkedRows(t, s.rows);
      var updates := UpdatesOf(rows, t.key.run, Sorted(Predecessors(env.pipeline.edges, fan.id)));
      var once := Merged(s.runs[t.key.run].context, updates);
      Step(env, Step(env, s, e), e) == Step(env, s, e) <==> Merged(once, updates) == once
  {
    hide Step, Bijective, TailOf, Entered, AllDone, Merged, UpdatesOf, KeyText, SafeId, Predecessors, SelfBlocking;
    hide Imprint;
    var rows := MarkedRows(t, s.rows);
    var tail := TailOf(t, rows);
    FoundTurn(env, s, e, t);
    FiredStep(env, s, e, t, fan);
    FirstStep(env, s, e, t);
    AgainEnters(t, fan, rows, tail.saved.value);
    var u, s1 := Again(t, tail.saved.value), Step(env, s, e);
    AlikeAgain(t, tail.saved.value);
    var preds := Predecessors(t.env.pipeline.edges, fan.id);
    var after := MarkedRows(u, s1.rows);
    SameBranchesAfter(env, s, e, t, fan, u);
    FanInSends(u, fan, after);
    FirstStep(env, s1, e, u);
    if FanInContext(u, fan, after) == FanInContext(t, fan, rows) {
      ResumedAgain(t, u, tail.saved.value, FanInContext(t, fan, rows));
      SameTailSilent(env, s, e, t);
    }
  }

  lemma ResumedAgain(t: Turn, u: Turn, saved: Run, ctx: Data)
    requires saved == Resumed(t, t.run.(context := ctx)) && u.run == saved && u.event == t.event
    ensures Resumed(u, u.run.(context := ctx)) == saved
  {
  }

  /** The branches look the same to the second turn. */
  lemma SameBranchesAfter(env: Env, s: State, e: Event, t: Turn, fan: Node, u: Turn)
    requires Bijective(s) && TurnAt(env, s, e) == Some(t) && Entered(t) == Some(fan) && fan.shape == FAN_IN
    requires Alike(t, u)
    requires TailOf(t, MarkedRows(t, s.rows)).exit == FanInFired && !SelfBlocking(t, fan, MarkedRows(t, s.rows))
    ensures t.key in Step(env, s, e).rows
    ensures
      var rows, after := MarkedRows(t, s.rows), MarkedRows(u, Step(env, s, e).rows);
      var preds := Predecessors(t.env.pipeline.edges, fan.id);
      && AllDone(after, t.key.run, preds)
      && UpdatesOf(after, t.key.run, Sorted(preds)) == UpdatesOf(rows, t.key.run, Sorted(preds))
  {
    hide Step, Bijective, TailOf, Entered, UpdatesOf, KeyText, SafeId, Predecessors, SelfBlocking, LatestKey;
    var rows := MarkedRows(t, s.rows);
    FiredStep(env, s, e, t, fan);
    AttemptsPositive(t, s);
    var preds, first := Predecessors(t.env.pipeline.edges, fan.id), RowKey(t.key.run, fan.id, 1);
    FanInSurvives(t, fan, rows, DispatchedRow(first, preds, fan.goalGate));
    MarkedAlike(t, u, Step(env, s, e).rows);
    SameUpdates(rows, MarkedRows(t, Step(env, s, e).rows), t.key.run, preds, Sorted(preds));
  }

  // ---- A TOOL delivered again ------------------------------------------------------

  /** A TOOL step, delivered again while its node still selects that TOOL: nothing
      changes iff the tool leaves the same context again. */
  lemma ToolAgain(env: Env, s: State, e: Event, t: Turn, tool: Node)
    requires Bijective(s) && TurnAt(env, s, e) == Some(t) && Entered(t) == Some(tool) && tool.shape == TOOL
    requires forall n | n in env.pipeline.nodes :: SafeId(n.id)
    requires TailOf(t, MarkedRows(t, s.rows)).saved.Some?
    requires Entered(Again(t, TailOf(t, MarkedRows(t, s.rows)).saved.value)) == Some(tool)
    ensures
      var u := Again(t, TailOf(t, MarkedRows(t, s.rows)).saved.value);
      Step(env, Step(env, s, e), e) == Step(env, s, e) <==> ToolContext(u, tool) == ToolContext(t, tool)
  {
    hide Step, Bijective, TailOf, Entered, KeyText, SafeId, Imprint, ToolContext, ToolTail;
    var rows := MarkedRows(t, s.rows);
    var saved := TailOf(t, rows).saved.value;
    var u, s1 := Again(t, saved), Step(env, s, e);
    FoundTurn(env, s, e, t);
    HasRun(s, t.key);
    FirstStep(env, s, e, t);
    AlikeAgain(t, saved);
    ToolEntered(t, tool, rows);
    ToolEntered(u, tool, MarkedRows(u, s1.rows));
    ToolSavesContext(t, tool);
    ToolSavesContext(u, tool);
    ToolNeverRaises(t, u, tool);
    FirstStep(env, s1, e, u);
    if ToolContext(u, tool) == ToolContext(t, tool) {
      SameToolTail(t, u, tool);
      SecondSaved(t, u, rows, MarkedRows(u, s1.rows));
      SameTailSilent(env, s, e, t);
    }
  }

  lemma ToolEntered(t: Turn, tool: Node, rows: Rows)
    requires Entered(t) == Some(tool) && tool.shape == TOOL
    ensures TailOf(t, rows) == ToolTail(t, tool)
  {
    hide TailOf, Entered, ToolTail;
    TailEnters(t, rows, rows);
  }

  lemma ToolSavesContext(t: Turn, tool: Node)
    ensures ToolTail(t, tool).saved.Some? ==> ToolTail(t, tool).saved.value.context == ToolContext(t, tool)
    ensures ToolTail(t, tool).exit != FanInWaiting
  {
    hide Select, ToolContext, Unit, ForNode;
  }

  /** With safe ids a TOOL raises only on malformed guards, in any context. */
  lemma ToolNeverRaises(t: Turn, u: Turn, tool: Node)
    requires Alike(t, u) && ToolTail(t, tool).saved.Some? && SafeId(t.key.run)
    requires forall n | n in t.env.pipeline.nodes :: SafeId(n.id)
    ensures ToolTail(u, tool).saved.Some?
  {
    hide Select, ToolContext, Unit, SafeId, KeyText;
    SelectOptimal(OutEdges(t.env.pipeline.edges, tool.id), ToolContext(t, tool), Hints(None, []));
    SelectOptimal(OutEdges(t.env.pipeline.edges, tool.id), ToolContext(u, tool), Hints(None, []));
  }

  /** Same writes, exit and context: the same run is saved. */
  lemma SecondSaved(t: Turn, u: Turn, rows: Rows, after: Rows)
    requires IsTurn(t) && TailOf(t, rows).saved.Some? && u == Again(t, TailOf(t, rows).saved.value)
    requires SameBut(TailOf(t, rows), TailOf(u, after)) && TailOf(t, rows).exit != FanInWaiting
    ensures TailOf(u, after) == TailOf(t, rows)
  {
    hide TailOf;
    AlikeAgain(t, TailOf(t, rows).saved.value);
    TurnInherits(t);
    TurnInherits(u);
    TailSaves(t, rows);
    TailSaves(u, after);
    TailStatus(t, rows);
    TailStatus(u, after);
  }

  // ---- Whatever the second delivery selects ----------------------------------------------

  /** The second tail's writes are all there already. */
  ghost predicate Absorbed(u: Turn, s1: State, a: Effect)
    requires u.key in s1.rows
  {
    && MarkedRows(u, s1.rows) + a.rows == s1.rows
    && a.cards.Keys <= s1.cards.Keys && a.blocked <= s1.blocked
  }

  /** Main result for any step that saves: its second delivery, if that saves too,
      changes nothing iff the second tail saves the same run and its writes are
      there already. */
  lemma AgainExactly(env: Env, s: State, e: Event, t: Turn)
    requires Bijective(s) && TurnAt(env, s, e) == Some(t) && TailOf(t, MarkedRows(t, s.rows)).saved.Some?
    ensures t.key in Step(env, s, e).rows
    ensures
      var saved, s1 := TailOf(t, MarkedRows(t, s.rows)).saved, Step(env, s, e);
      var u := Again(t, saved.value);
      var tail := TailOf(u, MarkedRows(u, s1.rows));
      tail.saved.Some? ==> (Step(env, s1, e) == s1 <==> tail.saved == saved && Absorbed(u, s1, EffectOf(tail.dispatch)))
  {
    hide TailOf, Step, Bijective, Imprint, Absorbed;
    FirstStep(env, s, e, t);
    FoundTurn(env, s, e, t);
    var saved, s1 := TailOf(t, MarkedRows(t, s.rows)).saved, Step(env, s, e);
    var u := Again(t, saved.value);
    var tail := TailOf(u, MarkedRows(u, s1.rows));
    if tail.saved.Some? {
      FirstStep(env, s1, e, u);
      ImprintRuns(s.(rows := MarkedRows(t, s.rows)), EffectOf(TailOf(t, MarkedRows(t, s.rows)).dispatch));
      AbsorbedExactly(u, s1, EffectOf(tail.dispatch), tail.saved.value);
    }
  }

  lemma AbsorbedExactly(u: Turn, s1: State, a: Effect, saved: Run)
    requires u.key in s1.rows && u.key.run in s1.runs
    ensures
      Imprint(s1.(rows := MarkedRows(u, s1.rows)), a).(runs := s1.runs[u.key.run := saved]) == s1 <==>
        saved == s1.runs[u.key.run] && Absorbed(u, s1, a)
  {
    var after := Imprint(s1.(rows := MarkedRows(u, s1.rows)), a).(runs := s1.runs[u.key.run := saved]);
    assert after.runs[u.key.run] == saved;
    if a.cards.Keys <= s1.cards.Keys {
      assert a.cards + s1.cards == s1.cards;
    } else {
      var text :| text in a.cards && text !in s1.cards;
      assert text in after.cards;
    }
    if a.blocked <= s1.blocked {
      assert s1.blocked + a.blocked == s1.blocked;
    } else {
      var task :| task in a.blocked && task !in s1.blocked;
      assert task in after.blocked;
    }
  }

  /** The second delivery selects nothing: it only saves, so it is silent iff the
      run needs no resuming, no update is new and its own row is still marked. */
  lemma UnselectedAgain(env: Env, s: State, e: Event, t: Turn)
    requires Bijective(s) && TurnAt(env, s, e) == Some(t) && TailOf(t, MarkedRows(t, s.rows)).saved.Some?
    requires Entered(t).Some? && Entered(Again(t, TailOf(t, MarkedRows(t, s.rows)).saved.value)) == None
    ensures t.key in Step(env, s, e).rows
    ensures
      var saved, s1 := TailOf(t, MarkedRows(t, s.rows)).saved.value, Step(env, s, e);
      var u := Again(t, saved);
      Step(env, s1, e) == s1 <==>
        saved.status != PAUSED_HUMAN && u.run.context == saved.context && MarkedRows(u, s1.rows) == s1.rows
  {
    hide TailOf, Step, Bijective, Entered, Absorbed, EffectOf;
    AgainExactly(env, s, e, t);
    FoundTurn(env, s, e, t);
    var saved, s1 := TailOf(t, MarkedRows(t, s.rows)).saved.value, Step(env, s, e);
    var u := Again(t, saved);
    AlikeAgain(t, saved);
    UnselectedTail(t, u, MarkedRows(u, s1.rows));
    TurnInherits(u);
    TailSaves(t, MarkedRows(t, s.rows));
    TurnInherits(t);
    NothingAbsorbed(u, s1);
  }

  lemma UnselectedTail(t: Turn, u: Turn, rows: Rows)
    requires Alike(t, u) && Entered(t).Some? && Entered(u) == None
    ensures TailOf(u, rows) == Tail([], Some(Resumed(u, u.run)), NoEdge)
  {
    hide EnterTail, Branches, SendOne;
    SelectOptimal(OutEdges(t.env.pipeline.edges, t.key.node), t.run.context, HintsOf(t));
    SelectOptimal(OutEdges(u.env.pipeline.edges, u.key.node), u.run.context, HintsOf(u));
  }

  lemma NothingAbsorbed(u: Turn, s1: State)
    requires u.key in s1.rows
    ensures Absorbed(u, s1, EffectOf([])) <==> MarkedRows(u, s1.rows) == s1.rows
  {
    assert MarkedRows(u, s1.rows) + map[] == MarkedRows(u, s1.rows);
  }

  /** The second delivery selects an ordinary or HUMAN node: a row is added under
      its count plus one, unless there is one. */
  lemma MovesOnAgain(env: Env, s: State, e: Event, t: Turn, next: Node)
    requires Bijective(s) && TurnAt(env, s, e) == Some(t) && TailOf(t, MarkedRows(t, s.rows)).saved.Some?
    requires Entered(Again(t, TailOf(t, MarkedRows(t, s.rows)).saved.value)) == Some(next) && Counted(next)
    requires SafeId(next.id)
    ensures t.key in Step(env, s, e).rows
    ensures
      var s1, u := Step(env, s, e), Again(t, TailOf(t, MarkedRows(t, s.rows)).saved.value);
      var rows := MarkedRows(u, s1.rows);
      var k := RowKey(t.key.run, next.id, NextAttempt(u, next, rows));
      && Step(env, s1, e).rows == rows[k := DispatchedRow(k, {t.key.node}, next.goalGate)]
      && (k !in s1.rows ==> Step(env, s1, e) != s1)
  {
    hide TailOf, Step, Bijective, Entered, EnterTail, CountedTail, NextAttempt, SafeId, KeyText, Imprint;
    hide CountedEffect, ForNode;
    FirstStep(env, s, e, t);
    FoundTurn(env, s, e, t);
    HasRun(s, t.key);
    var saved, s1 := TailOf(t, MarkedRows(t, s.rows)).saved.value, Step(env, s, e);
    var u := Again(t, saved);
    var rows := MarkedRows(u, s1.rows);
    AlikeAgain(t, saved);
    TailEnters(u, rows, rows);
    CountedEnters(u, next, rows);
    CountedSends(u, next, NextAttempt(u, next, rows));
    CountedWhole(u, next, NextAttempt(u, next, rows));
    FirstStep(env, s1, e, u);
    CountedRows(s1.(rows := rows), u, next, NextAttempt(u, next, rows));
  }

  lemma CountedSends(t: Turn, next: Node, attempt: nat)
    requires SafeId(t.key.run) && SafeId(next.id)
    ensures CountedTail(t, next, attempt).dispatch != []
  {
    hide SafeId, KeyText;
  }
}

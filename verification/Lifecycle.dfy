/** The run's lifecycle: what each exit does to its status, over every step and
    every history. */
module Lifecycle {
  import opened Basics
  import opened Values
  import opened Pipelines
  import opened EdgeSelector
  import opened Keys
  import opened RunState
  import opened Advance
  import opened Invariants
  import opened CrashReplay
  import opened Launching
  import opened Histories

  /** The status a step leaves, by its exit. */
  function StatusAfter(exit: Exit, status: RunStatus): RunStatus {
    match exit
    case GateBlocked => BLOCKED
    case HumanPaused => PAUSED_HUMAN
    case Finished => SUCCEEDED
    case ToolFinished => SUCCEEDED
    case FanInFired => if status == PAUSED_HUMAN then RUNNING else status
    case Forwarded => if status == PAUSED_HUMAN then RUNNING else status
    case NoEdge => if status == PAUSED_HUMAN then RUNNING else status
    case _ => status
  }

  /** The transitions `RunStatus` documents. */
  predicate DocumentedMove(a: RunStatus, b: RunStatus) {
    || a == b
    || (a == PENDING && b == RUNNING)
    || (a == RUNNING && b in {PAUSED_HUMAN, BLOCKED, SUCCEEDED, FAILED})
    || (a == PAUSED_HUMAN && b == RUNNING)
  }

  ghost predicate StatusFits(t: Turn, tail: Tail) {
    tail.saved.Some? ==> tail.saved.value.status == StatusAfter(tail.exit, t.before.status)
  }

  lemma ToolStatus(t: Turn, tool: Node)
    requires t.run.status == t.before.status
    ensures StatusFits(t, ToolTail(t, tool))
  {
    hide Select, ToolContext, Unit, ForNode;
  }

  lemma EnterStatus(t: Turn, next: Node, rows: Rows)
    requires t.run.status == t.before.status
    ensures StatusFits(t, EnterTail(t, next, rows))
  {
    hide ToolTail, Unit, ForNode, AllDone, FanInContext, NextAttempt;
    match next.shape
    case TOOL => ToolStatus(t, next);
    case _ =>
  }

  lemma RouteStatus(t: Turn, rows: Rows)
    requires t.run.status == t.before.status
    ensures StatusFits(t, RouteTail(t, rows))
  {
    hide EnterTail, Select;
    forall next
      ensures StatusFits(t, EnterTail(t, next, rows))
    {
      EnterStatus(t, next, rows);
    }
  }

  lemma TailStatus(t: Turn, rows: Rows)
    requires t.run.status == t.before.status
    ensures StatusFits(t, TailOf(t, rows))
  {
    hide RouteTail, Unit, ForNode, Branches;
    RouteStatus(t, rows);
  }

  lemma TurnStatus(env: Env, s: State, e: Event, t: Turn)
    requires TurnAt(env, s, e) == Some(t)
    ensures t.key.run in s.runs && t.before == s.runs[t.key.run] && t.run.status == t.before.status
  {
  }

  /** Every step moves its own run's status as its exit says, and no other
      run's; a step that raises moves none. */
  lemma StatusAfterStep(env: Env, s: State, e: Event, t: Turn, run: string)
    requires Bijective(s) && TurnAt(env, s, e) == Some(t) && run in s.runs
    ensures run in Step(env, s, e).runs
    ensures Step(env, s, e).runs[run].status ==
      if run == t.key.run && PlanOf(env, s, e).exit != Errored
      then StatusAfter(PlanOf(env, s, e).exit, s.runs[run].status)
      else s.runs[run].status
  {
    hide TailOf, Step, PlanOf, Bijective, StatusAfter;
    TurnStatus(env, s, e, t);
    PlanParts(env, s, e, t);
    StepRuns(env, s, e, t);
    TailStatus(t, MarkedRows(t, s.rows));
    SpecKept(env, s, e, t);
    TailSaves(t, MarkedRows(t, s.rows));
  }

  lemma SpecKept(env: Env, s: State, e: Event, t: Turn)
    requires TurnAt(env, s, e) == Some(t)
    ensures t.run.specId == t.before.specId
  {
  }

  // ---- In terms of the completed node ------------------------------------------

  /** A failed gate with no attempt left. */
  ghost predicate Exhausts(t: Turn) {
    var node := Lookup(t.env.pipeline.nodes, t.key.node);
    && node.Some? && node.value.shape != FAN_OUT && !t.passed
    && node.value.goalGate.Some? && t.key.attempt + 1 > node.value.goalGate.value.maxAttempts
  }

  /** The tool's own edge leads to EXIT, on the context the tool leaves. */
  ghost predicate LeadsToExit(t: Turn, tool: Node) {
    match Select(OutEdges(t.env.pipeline.edges, tool.id), ToolContext(t, tool), Hints(None, []))
    case Ok(Some(edge)) =>
      var next := Lookup(t.env.pipeline.nodes, edge.target);
      next.Some? && next.value.shape == EXIT
    case _ => false
  }

  /** The selected edge leads to EXIT, directly or through a TOOL. */
  ghost predicate Finishes(t: Turn) {
    && Entered(t).Some?
    && (Entered(t).value.shape == EXIT || (Entered(t).value.shape == TOOL && LeadsToExit(t, Entered(t).value)))
  }

  ghost predicate Pauses(t: Turn) {
    Entered(t).Some? && Entered(t).value.shape == HUMAN
  }

  /** The step comes to edge selection. */
  ghost predicate Selects(t: Turn) {
    var node := Lookup(t.env.pipeline.nodes, t.key.node);
    node.Some? ==>
      && node.value.shape != FAN_OUT
      && (!t.passed && node.value.goalGate.Some? ==>
        !Exhausts(t) && Lookup(t.env.pipeline.nodes, node.value.goalGate.value.retryTarget) == None)
  }

  /** It selects nothing, an ordinary node, or a fan-in whose branches are done. */
  ghost predicate Resumes(t: Turn, rows: Rows) {
    && Selects(t)
    && match Entered(t)
       case None => true
       case Some(next) =>
         if next.shape == FAN_IN then AllDone(rows, t.key.run, Predecessors(t.env.pipeline.edges, next.id))
         else next.shape !in {HUMAN, TOOL, EXIT}
  }

  ghost predicate ExitFits(t: Turn, rows: Rows, exit: Exit) {
    exit != Errored ==>
      && (exit == GateBlocked <==> Exhausts(t))
      && (exit in {Finished, ToolFinished} <==> Finishes(t))
      && (exit == HumanPaused <==> Pauses(t))
      && (exit in {Forwarded, FanInFired, NoEdge} <==> Resumes(t, rows))
  }

  lemma EnteredSelects(t: Turn)
    ensures Entered(t).Some? ==> Selects(t) && !Exhausts(t)
  {
    hide Select;
  }

  lemma ToolExit(t: Turn, tool: Node)
    requires ToolTail(t, tool).exit != Errored
    ensures ToolTail(t, tool).exit in {ToolFinished, ToolForwarded, ToolStalled, ToolDeadEnd}
    ensures ToolTail(t, tool).exit == ToolFinished <==> LeadsToExit(t, tool)
  {
    hide Select, ToolContext, Unit, ForNode;
  }

  lemma EnteredExit(t: Turn, next: Node, rows: Rows)
    requires Entered(t) == Some(next)
    ensures ExitFits(t, rows, EnterTail(t, next, rows).exit)
  {
    hide Entered, ToolTail, LeadsToExit, Unit, ForNode, AllDone, FanInContext, NextAttempt, Selects, Exhausts;
    EnteredSelects(t);
    match next.shape
    case TOOL =>
      if ToolTail(t, next).exit != Errored {
        ToolExit(t, next);
      }
    case _ =>
  }

  lemma UnenteredExit(t: Turn, rows: Rows)
    requires Entered(t) == None
    ensures ExitFits(t, rows, TailOf(t, rows).exit)
  {
    hide EnterTail, Select, Unit, ForNode, Branches;
  }

  lemma ExitByTurn(t: Turn, rows: Rows)
    ensures ExitFits(t, rows, TailOf(t, rows).exit)
  {
    hide TailOf, EnterTail, Entered, ExitFits;
    TailEnters(t, rows, rows);
    match Entered(t)
    case None => UnenteredExit(t, rows);
    case Some(next) => EnteredExit(t, next, rows);
  }

  /** Which completions keep to the documented transitions, by the completed node
      and where it leads: all those of a RUNNING run; of a paused run not those
      that exhaust a gate or lead to EXIT; of a finished run only those that leave
      its status alone. */
  lemma DocumentedExactly(env: Env, s: State, e: Event, t: Turn)
    requires Bijective(s) && TurnAt(env, s, e) == Some(t) && PlanOf(env, s, e).exit != Errored
    ensures t.key.run in s.runs && t.key.run in Step(env, s, e).runs
    ensures
      DocumentedMove(s.runs[t.key.run].status, Step(env, s, e).runs[t.key.run].status) <==>
        match s.runs[t.key.run].status
        case RUNNING => true
        case PAUSED_HUMAN => !Exhausts(t) && !Finishes(t)
        case BLOCKED => !Pauses(t) && !Finishes(t)
        case SUCCEEDED => !Pauses(t) && !Exhausts(t)
        case _ => !Pauses(t) && !Exhausts(t) && !Finishes(t)
  {
    hide PlanOf, Step, Bijective, TailOf, Exhausts, Finishes, Pauses, Resumes;
    TurnStatus(env, s, e, t);
    PlanParts(env, s, e, t);
    ExitByTurn(t, MarkedRows(t, s.rows));
    StatusAfterStep(env, s, e, t, t.key.run);
  }

  /** A paused run resumes on whichever completion selects nothing, an ordinary
      node or a fan-in that is ready: not only on its HUMAN node's. */
  lemma ResumesExactly(env: Env, s: State, e: Event, t: Turn)
    requires Bijective(s) && TurnAt(env, s, e) == Some(t) && PlanOf(env, s, e).exit != Errored
    requires t.key.run in s.runs && s.runs[t.key.run].status == PAUSED_HUMAN
    ensures t.key.run in Step(env, s, e).runs
    ensures Step(env, s, e).runs[t.key.run].status == RUNNING <==> Resumes(t, MarkedRows(t, s.rows))
  {
    hide PlanOf, Step, Bijective, TailOf, Exhausts, Finishes, Pauses, Resumes;
    PlanParts(env, s, e, t);
    ExitByTurn(t, MarkedRows(t, s.rows));
    StatusAfterStep(env, s, e, t, t.key.run);
  }

  // ---- Whole histories -------------------------------------------------------

  predicate Lively(status: RunStatus) {
    status in {RUNNING, PAUSED_HUMAN, BLOCKED, SUCCEEDED}
  }

  ghost predicate AllLively(s: State) {
    forall r | r in s.runs :: Lively(s.runs[r].status)
  }

  ghost predicate LivelyWrites(ws: seq<Write>) {
    forall w | w in ws && (w.Insert? || w.Save?) :: Lively(w.run.status)
  }

  lemma {:induction false} WritesKeepLively(s: State, ws: seq<Write>)
    requires AllLively(s) && LivelyWrites(ws)
    ensures AllLively(ApplyAll(s, ws))
    decreases |ws|
  {
    if ws != [] {
      var n := |ws| - 1;
      assert ws == ws[..n] + [ws[n]];
      WritesKeepLively(s, ws[..n]);
      assert ws[n] in ws;
    }
  }

  lemma PlanLively(env: Env, s: State, e: Event)
    requires AllLively(s)
    ensures LivelyWrites(PlanOf(env, s, e).writes)
  {
    hide TailOf, PlanOf;
    if TurnAt(env, s, e) == None {
      Unplanned(env, s, e);
    } else {
      var t := TurnAt(env, s, e).value;
      var tail := TailOf(t, MarkedRows(t, s.rows));
      PlanParts(env, s, e, t);
      TurnStatus(env, s, e, t);
      TailStatus(t, MarkedRows(t, s.rows));
      TailOrderly(t, MarkedRows(t, s.rows));
      OrderlyPlain(env.pipeline, t.key.run, tail.dispatch);
    }
  }

  lemma Unplanned(env: Env, s: State, e: Event)
    requires TurnAt(env, s, e) == None
    ensures PlanOf(env, s, e).writes == []
  {
  }

  lemma EntryLively(p: Pipeline, runId: string, start: Node, ctx: Data)
    ensures LivelyWrites(EntryWrites(p, runId, start, ctx))
  {
    hide EntryOf, ForNode, CardFor;
  }

  /** In every history no run is ever PENDING or FAILED. */
  lemma {:induction false} NeverFailed(cfg: Config, actions: seq<Action>)
    ensures forall r | r in After(cfg, actions).state.runs ::
      After(cfg, actions).state.runs[r].status in {RUNNING, PAUSED_HUMAN, BLOCKED, SUCCEEDED}
    decreases |actions|
  {
    hide PlanOf, EnvAt, EntryWrites, Launchable;
    if actions != [] {
      var n := |actions| - 1;
      NeverFailed(cfg, actions[..n]);
      var s, a := After(cfg, actions[..n]).state, actions[n];
      ActionLively(cfg, s, a);
      WritesKeepLively(s, Take(WritesOf(cfg, s, a), a.upto));
    }
  }

  lemma ActionLively(cfg: Config, s: State, a: Action)
    requires AllLively(s)
    ensures LivelyWrites(Take(WritesOf(cfg, s, a), a.upto))
  {
    hide PlanOf, EnvAt, EntryWrites, Launchable, WithShape;
    match a
    case Launch(runId, specId, ctx, _) =>
      if specId in cfg.specs && WithShape(cfg.specs[specId].nodes, START) != [] {
        EntryLively(cfg.specs[specId], runId, WithShape(cfg.specs[specId].nodes, START)[0], ctx);
      }
    case Deliver(e, _) =>
      match EnvAt(cfg, s, e)
      case None =>
      case Some(env) => PlanLively(env, s, e);
  }
}

/** The gate loop: a failed gate re-runs the chain of nodes that leads back to
    it. The retried node takes the gate's attempt plus one, the others one more
    than their own rows; the two formulas stay in step. */
module GateLoop {
  import opened Basics
  import opened Pipelines
  import opened EdgeSelector
  import opened Keys
  import opened RunState
  import opened Advance
  import opened Invariants
  import opened CrashReplay
  import opened Termination

  /** `chain` leads from the gate's retry target to the gate by single
      unconditional edges; its nodes are ungated except the last. The first may
      be the gate itself. */
  ghost predicate Chain(p: Pipeline, chain: seq<string>) {
    && chain != []
    && (forall i, j | 0 <= i < j < |chain| :: chain[i] != chain[j])
    && (forall i | 0 <= i < |chain| :: ChainNode(p, chain[i], i > 0))
    && (forall i | 0 <= i < |chain| - 1 :: ChainLink(p, chain[i], chain[i + 1]))
    && Lookup(p.nodes, chain[|chain| - 1]).value.goalGate.Some?
    && Lookup(p.nodes, chain[|chain| - 1]).value.goalGate.value.retryTarget == chain[0]
  }

  ghost predicate ChainNode(p: Pipeline, id: string, entered: bool) {
    var node := Lookup(p.nodes, id);
    node.Some? && SafeId(id) && node.value.shape != FAN_OUT && (entered ==> Counted(node.value))
  }

  ghost predicate ChainLink(p: Pipeline, from: string, to: string) {
    && Lookup(p.nodes, from).Some? && Lookup(p.nodes, from).value.goalGate == None
    && |OutEdges(p.edges, from)| == 1
    && OutEdges(p.edges, from)[0].condition == None && OutEdges(p.edges, from)[0].target == to
  }

  function UpTo(n: nat): (s: set<nat>)
    ensures |s| == n
    ensures forall a: nat :: a in s <==> 1 <= a <= n
  {
    if n == 0 then {} else UpTo(n - 1) + {n}
  }

  /** The chain's nodes up to the `i`th have attempts 1 to `a`, the later ones
      1 to `a` - 1. */
  ghost predicate InLockstep(s: State, run: string, chain: seq<string>, a: nat, i: nat) {
    && a >= 1
    && forall j | 0 <= j < |chain| :: AttemptsOf(s.rows, run, chain[j]) == UpTo(if j <= i then a else a - 1)
  }

  // ---- What one step adds ----------------------------------------------------

  lemma AddedAttempt(rows: Rows, other: Rows, k: RowKey, node: string)
    requires other.Keys == rows.Keys + {k}
    ensures AttemptsOf(other, k.run, node) == AttemptsOf(rows, k.run, node) + if node == k.node then {k.attempt} else {}
  {
    forall a
      ensures a in AttemptsOf(other, k.run, node) <==>
        a in AttemptsOf(rows, k.run, node) || (node == k.node && a == k.attempt)
    {
      assert a in AttemptsOf(other, k.run, node) <==> RowKey(k.run, node, a) in other;
      assert a in AttemptsOf(rows, k.run, node) <==> RowKey(k.run, node, a) in rows;
    }
  }

  lemma KeysDecideAttempts(rows: Rows, other: Rows, run: string, node: string)
    requires rows.Keys == other.Keys
    ensures AttemptsOf(rows, run, node) == AttemptsOf(other, run, node)
  {
    assert forall k :: k in rows <==> k in other;
  }

  /** A completed chain node adds the next one's row: its count plus one. */
  lemma LinkAdds(env: Env, s: State, e: Event, k: RowKey, next: string)
    requires Bijective(s) && k in s.rows && e.task == TaskOf(k) && ChainLink(env.pipeline, k.node, next)
    requires ChainNode(env.pipeline, k.node, false) && ChainNode(env.pipeline, next, true)
    ensures k.run in s.runs && k.run in Step(env, s, e).runs
    ensures Step(env, s, e).rows.Keys == s.rows.Keys + {RowKey(k.run, next, |AttemptsOf(s.rows, k.run, next)| + 1)}
    ensures Step(env, s, e).runs[k.run].status in {s.runs[k.run].status, RUNNING, PAUSED_HUMAN}
    ensures PlanOf(env, s, e).exit in {Forwarded, HumanPaused}
  {
    hide TailOf, Step, Bijective, Entered, Select, EnterTail, CountedTail, SafeId, KeyText, PlanOf;
    LinkTurn(env, s, e, k, next);
    PlanParts(env, s, e, TurnOf(env, k, s.runs[k.run], e));
    var t := TurnOf(env, k, s.runs[k.run], e);
    var rows, node := MarkedRows(t, s.rows), Lookup(env.pipeline.nodes, next).value;
    TailEnters(t, rows, rows);
    CountedEnters(t, node, rows);
    KeysDecideAttempts(rows, s.rows, k.run, next);
    StepRows(env, s, e, t);
    StepRuns(env, s, e, t);
    CountedAdds(t, node, NextAttempt(t, node, rows));
  }

  lemma LinkTurn(env: Env, s: State, e: Event, k: RowKey, next: string)
    requires Bijective(s) && k in s.rows && e.task == TaskOf(k) && ChainLink(env.pipeline, k.node, next)
    requires ChainNode(env.pipeline, k.node, false) && ChainNode(env.pipeline, next, true)
    ensures k.run in s.runs && SafeId(k.run)
    ensures
      var t := TurnOf(env, k, s.runs[k.run], e);
      && TurnAt(env, s, e) == Some(t) && Entered(t) == Lookup(env.pipeline.nodes, next)
      && Lookup(env.pipeline.nodes, next).value.id == next
      && t.run.status == s.runs[k.run].status
  {
    hide Select;
    FindsOwn(s, k);
    var t := TurnOf(env, k, s.runs[k.run], e);
    var edges := OutEdges(env.pipeline.edges, k.node);
    assert edges == [edges[0]];
    SelectOnly(edges, edges[0], t.run.context, HintsOf(t));
  }

  lemma CountedAdds(t: Turn, node: Node, attempt: nat)
    requires SafeId(t.key.run) && SafeId(node.id) && Counted(node)
    ensures CountedTail(t, node, attempt).saved == Some(CountedSave(t, node))
    ensures CountedTail(t, node, attempt).exit in {Forwarded, HumanPaused}
    ensures CountedTail(t, node, attempt).dispatch != []
    ensures Added(CountedTail(t, node, attempt).dispatch) == {RowKey(t.key.run, node.id, attempt)}
  {
    hide Unit, SafeId, KeyText;
    var key := RowKey(t.key.run, node.id, attempt);
    var more := if node.shape == HUMAN then [Block(TaskOf(key))] else [];
    UnitAdds(t.env.pipeline, node, key, t.run.context, [t.event.task], {t.key.node}, node.goalGate, more);
  }

  ghost predicate GateOf(p: Pipeline, k: RowKey, first: string, e: Event) {
    && ChainNode(p, k.node, false) && ChainNode(p, first, false)
    && Lookup(p.nodes, k.node).value.goalGate.Some?
    && Lookup(p.nodes, k.node).value.goalGate.value.retryTarget == first
    && !VerdictPass(e.metadata)
  }

  function MaxAttempts(p: Pipeline, id: string): nat
    requires Lookup(p.nodes, id).Some? && Lookup(p.nodes, id).value.goalGate.Some?
  {
    Lookup(p.nodes, id).value.goalGate.value.maxAttempts
  }

  /** A gate that fails adds its retry target's row at its own attempt plus one,
      or, with no attempt left, adds nothing and blocks the run. */
  lemma FailureAdds(env: Env, s: State, e: Event, k: RowKey, first: string)
    requires Bijective(s) && k in s.rows && e.task == TaskOf(k) && GateOf(env.pipeline, k, first, e)
    ensures k.run in s.runs && k.run in Step(env, s, e).runs
    ensures
      var exhausted := k.attempt >= MaxAttempts(env.pipeline, k.node);
      && Step(env, s, e).rows.Keys == s.rows.Keys + (if exhausted then {} else {RowKey(k.run, first, k.attempt + 1)})
      && Step(env, s, e).runs[k.run].status == if exhausted then BLOCKED else s.runs[k.run].status
  {
    hide TailOf, Step, Bijective, SafeId, KeyText, GateTail;
    FailureTurn(env, s, e, k, first);
    var t := TurnOf(env, k, s.runs[k.run], e);
    StepRows(env, s, e, t);
    StepRuns(env, s, e, t);
    FailureTail(t, first, MarkedRows(t, s.rows));
  }

  lemma FailureTurn(env: Env, s: State, e: Event, k: RowKey, first: string)
    requires Bijective(s) && k in s.rows && e.task == TaskOf(k) && GateOf(env.pipeline, k, first, e)
    ensures k.run in s.runs && SafeId(k.run)
    ensures
      var t := TurnOf(env, k, s.runs[k.run], e);
      TurnAt(env, s, e) == Some(t) && !t.passed && t.run.status == s.runs[k.run].status
  {
    FindsOwn(s, k);
  }

  lemma FailureTail(t: Turn, first: string, rows: Rows)
    requires GateOf(t.env.pipeline, t.key, first, t.event) && !t.passed && SafeId(t.key.run)
    ensures
      var exhausted := t.key.attempt >= MaxAttempts(t.env.pipeline, t.key.node);
      && TailOf(t, rows).saved ==
        Some(t.run.(status := if exhausted then BLOCKED else t.run.status, cursor := t.event.id))
      && Added(TailOf(t, rows).dispatch) == if exhausted then {} else {RowKey(t.key.run, first, t.key.attempt + 1)}
  {
    hide Unit, SafeId, KeyText, RouteTail;
    var target := Lookup(t.env.pipeline.nodes, first).value;
    var key := RowKey(t.key.run, first, t.key.attempt + 1);
    var unit := Unit(t.env.pipeline, target, key, t.run.context, [t.event.task], {t.key.node}, None);
    UnitAdds(t.env.pipeline, target, key, t.run.context, [t.event.task], {t.key.node}, None, []);
    assert unit + [] == unit;
  }

  // ---- In step ---------------------------------------------------------------

  lemma StepHasRow(s: State, run: string, chain: seq<string>, a: nat, i: nat)
    requires InLockstep(s, run, chain, a, i) && i < |chain|
    ensures RowKey(run, chain[i], a) in s.rows
  {
    assert a in AttemptsOf(s.rows, run, chain[i]);
  }

  lemma UpToNext(a: nat)
    ensures |UpTo(a)| == a && UpTo(a) + {a + 1} == UpTo(a + 1) && UpTo(a) + {} == UpTo(a)
  {
  }

  /** Completing the chain's `i`th node moves the loop one node on. */
  lemma LinkKeepsStep(env: Env, s: State, e: Event, run: string, chain: seq<string>, a: nat, i: nat)
    requires Bijective(s) && Chain(env.pipeline, chain) && InLockstep(s, run, chain, a, i) && i + 1 < |chain|
    requires e.task == TaskOf(RowKey(run, chain[i], a))
    ensures InLockstep(Step(env, s, e), run, chain, a, i + 1)
    ensures run in s.runs && run in Step(env, s, e).runs
    ensures Step(env, s, e).runs[run].status in {s.runs[run].status, RUNNING, PAUSED_HUMAN}
  {
    hide Step, Bijective, ChainNode, ChainLink, KeyText, InLockstep;
    var k := RowKey(run, chain[i], a);
    StepHasRow(s, run, chain, a, i);
    EnteredOrNot(env.pipeline, chain, i);
    LinkAdds(env, s, e, k, chain[i + 1]);
    OneOn(s, Step(env, s, e), run, chain, a, i);
  }

  lemma OneOn(s: State, other: State, run: string, chain: seq<string>, a: nat, i: nat)
    requires i + 1 < |chain| && (forall j | 0 <= j < |chain| && j != i + 1 :: chain[j] != chain[i + 1])
    requires InLockstep(s, run, chain, a, i)
    requires other.rows.Keys == s.rows.Keys + {RowKey(run, chain[i + 1], |AttemptsOf(s.rows, run, chain[i + 1])| + 1)}
    ensures InLockstep(other, run, chain, a, i + 1)
  {
    hide AttemptsOf, UpTo;
    UpToNext(a - 1);
    forall j | 0 <= j < |chain|
      ensures AttemptsOf(other.rows, run, chain[j]) == UpTo(if j <= i + 1 then a else a - 1)
    {
      AddedAttempt(s.rows, other.rows, RowKey(run, chain[i + 1], a), chain[j]);
    }
  }

  lemma EnteredOrNot(p: Pipeline, chain: seq<string>, i: nat)
    requires Chain(p, chain) && i < |chain|
    ensures ChainNode(p, chain[i], false) && ChainNode(p, chain[0], false)
    ensures i > 0 ==> ChainNode(p, chain[i], true)
    ensures i + 1 < |chain| ==> ChainNode(p, chain[i + 1], true) && ChainLink(p, chain[i], chain[i + 1])
  {
    assert ChainNode(p, chain[i], i > 0) && ChainNode(p, chain[0], false);
  }

  /** A failing gate starts the next round, or blocks the run for good. */
  lemma FailureKeepsStep(env: Env, s: State, e: Event, run: string, chain: seq<string>, a: nat)
    requires Bijective(s) && Chain(env.pipeline, chain) && InLockstep(s, run, chain, a, |chain| - 1)
    requires e.task == TaskOf(RowKey(run, chain[|chain| - 1], a)) && !VerdictPass(e.metadata)
    ensures run in s.runs && run in Step(env, s, e).runs
    ensures
      var exhausted := a >= MaxAttempts(env.pipeline, chain[|chain| - 1]);
      && Step(env, s, e).runs[run].status == (if exhausted then BLOCKED else s.runs[run].status)
      && if exhausted then InLockstep(Step(env, s, e), run, chain, a, |chain| - 1)
        else InLockstep(Step(env, s, e), run, chain, a + 1, 0)
  {
    hide Step, Bijective, ChainNode, ChainLink, KeyText, InLockstep, VerdictPass;
    var n := |chain| - 1;
    var k := RowKey(run, chain[n], a);
    StepHasRow(s, run, chain, a, n);
    ChainGate(env.pipeline, chain, k, e);
    FailureAdds(env, s, e, k, chain[0]);
    if a >= MaxAttempts(env.pipeline, chain[n]) {
      assert Step(env, s, e).rows.Keys == s.rows.Keys;
      SameKeysInStep(s, Step(env, s, e), run, chain, a, n);
    } else {
      NextRound(s, Step(env, s, e), run, chain, a);
    }
  }

  lemma ChainGate(p: Pipeline, chain: seq<string>, k: RowKey, e: Event)
    requires Chain(p, chain) && k.node == chain[|chain| - 1] && !VerdictPass(e.metadata)
    ensures GateOf(p, k, chain[0], e) && Lookup(p.nodes, k.node).Some?
    ensures forall j | 0 < j < |chain| :: chain[j] != chain[0]
  {
    EnteredOrNot(p, chain, |chain| - 1);
  }

  lemma SameKeysInStep(s: State, other: State, run: string, chain: seq<string>, a: nat, i: nat)
    requires InLockstep(s, run, chain, a, i) && other.rows.Keys == s.rows.Keys
    ensures InLockstep(other, run, chain, a, i)
  {
    forall j | 0 <= j < |chain|
      ensures AttemptsOf(other.rows, run, chain[j]) == AttemptsOf(s.rows, run, chain[j])
    {
      KeysDecideAttempts(s.rows, other.rows, run, chain[j]);
    }
  }

  lemma NextRound(s: State, other: State, run: string, chain: seq<string>, a: nat)
    requires chain != [] && (forall j | 0 < j < |chain| :: chain[j] != chain[0])
    requires InLockstep(s, run, chain, a, |chain| - 1)
    requires other.rows.Keys == s.rows.Keys + {RowKey(run, chain[0], a + 1)}
    ensures InLockstep(other, run, chain, a + 1, 0)
  {
    hide AttemptsOf, UpTo;
    UpToNext(a);
    forall j | 0 <= j < |chain|
      ensures AttemptsOf(other.rows, run, chain[j]) == UpTo(if j == 0 then a + 1 else a)
    {
      AddedAttempt(s.rows, other.rows, RowKey(run, chain[0], a + 1), chain[j]);
    }
  }

  // ---- Whole rounds ----------------------------------------------------------

  /** Round `a`: the chain's nodes complete in turn, and the gate fails. */
  ghost predicate FailedRound(run: string, chain: seq<string>, a: nat, round: seq<Event>) {
    && chain != [] && |round| == |chain|
    && (forall i | 0 <= i < |chain| :: round[i].task == TaskOf(RowKey(run, chain[i], a)))
    && !VerdictPass(round[|chain| - 1].metadata)
  }

  ghost function AfterRounds(env: Env, s: State, rounds: seq<seq<Event>>): State
    decreases |rounds|
  {
    if rounds == [] then s else Deliveries(env, AfterRounds(env, s, rounds[..|rounds| - 1]), rounds[|rounds| - 1])
  }

  lemma {:induction false} RoundInStep(env: Env, s: State, run: string, chain: seq<string>, a: nat, round: seq<Event>,
    i: nat)
    requires Bijective(s) && Chain(env.pipeline, chain) && InLockstep(s, run, chain, a, 0)
    requires FailedRound(run, chain, a, round) && i < |chain|
    requires run in s.runs && s.runs[run].status != BLOCKED
    ensures
      var after := Deliveries(env, s, round[..i]);
      && Bijective(after) && InLockstep(after, run, chain, a, i) && run in after.runs
      && after.runs[run].status != BLOCKED
    decreases i
  {
    hide Step, Bijective, Chain, InLockstep;
    if i == 0 {
      assert round[..0] == [];
    } else {
      RoundInStep(env, s, run, chain, a, round, i - 1);
      assert round[..i][..i - 1] == round[..i - 1];
      var before := Deliveries(env, s, round[..i - 1]);
      LinkKeepsStep(env, before, round[i - 1], run, chain, a, i - 1);
      StepBijective(env, before, round[i - 1]);
    }
  }

  /** One failed round: the next attempt all round the loop, or BLOCKED. */
  lemma FailedRoundEnds(env: Env, s: State, run: string, chain: seq<string>, a: nat, round: seq<Event>)
    requires Bijective(s) && Chain(env.pipeline, chain) && InLockstep(s, run, chain, a, 0)
    requires FailedRound(run, chain, a, round)
    requires run in s.runs && s.runs[run].status != BLOCKED
    ensures
      var after := Deliveries(env, s, round);
      && Bijective(after) && run in after.runs
      && (after.runs[run].status == BLOCKED <==> a >= MaxAttempts(env.pipeline, chain[|chain| - 1]))
      && (after.runs[run].status != BLOCKED ==> InLockstep(after, run, chain, a + 1, 0))
      && (after.runs[run].status == BLOCKED ==> InLockstep(after, run, chain, a, |chain| - 1))
  {
    hide Step, Bijective, InLockstep, ChainNode, ChainLink;
    var n := |chain| - 1;
    RoundInStep(env, s, run, chain, a, round, n);
    assert round[..|round|] == round;
    var before := Deliveries(env, s, round[..n]);
    FailureKeepsStep(env, before, round[n], run, chain, a);
    StepBijective(env, before, round[n]);
  }

  /** Main result: from the loop's first entry, after `k` failed rounds every
      chain node has attempts exactly 1 to `k` + 1 (the gate 1 to `k` until it
      is reached again), and the run is BLOCKED exactly at failure number
      `maxAttempts`. */
  lemma {:induction false} Lockstep(env: Env, s: State, run: string, chain: seq<string>, rounds: seq<seq<Event>>)
    requires Bijective(s) && Chain(env.pipeline, chain) && InLockstep(s, run, chain, 1, 0)
    requires run in s.runs && s.runs[run].status != BLOCKED
    requires forall r | 0 <= r < |rounds| :: FailedRound(run, chain, r + 1, rounds[r])
    requires |rounds| <= MaxAttempts(env.pipeline, chain[|chain| - 1])
    ensures
      var after, k := AfterRounds(env, s, rounds), |rounds|;
      && Bijective(after) && run in after.runs
      && (after.runs[run].status == BLOCKED <==> k > 0 && k == MaxAttempts(env.pipeline, chain[|chain| - 1]))
      && if after.runs[run].status == BLOCKED then InLockstep(after, run, chain, k, |chain| - 1)
        else InLockstep(after, run, chain, k + 1, 0)
    decreases |rounds|
  {
    hide Step, Bijective, InLockstep, ChainNode, ChainLink, FailedRound, Deliveries;
    if rounds != [] {
      var n := |rounds| - 1;
      Lockstep(env, s, run, chain, rounds[..n]);
      FailedRoundEnds(env, AfterRounds(env, s, rounds[..n]), run, chain, n + 1, rounds[n]);
    }
  }

  /** The hypothesis is needed: a retry target the run never reached before the
      first failure starts at the gate's attempt plus one, and stays a step off. */
  lemma OffPathSkipsFirst(env: Env, s: State, e: Event, k: RowKey, first: string)
    requires Bijective(s) && k in s.rows && e.task == TaskOf(k) && GateOf(env.pipeline, k, first, e)
    requires AttemptsOf(s.rows, k.run, first) == {} && k.attempt < MaxAttempts(env.pipeline, k.node)
    ensures AttemptsOf(Step(env, s, e).rows, k.run, first) == {k.attempt + 1}
    ensures forall a :: AttemptsOf(Step(env, s, e).rows, k.run, first) != UpTo(a)
  {
    hide Step, Bijective, KeyText, GateOf, AttemptsOf;
    FailureAdds(env, s, e, k, first);
    AddedAttempt(s.rows, Step(env, s, e).rows, RowKey(k.run, first, k.attempt + 1), first);
    HasRun(s, k);
    forall a
      ensures UpTo(a) != {k.attempt + 1}
    {
      assert a > 0 ==> 1 in UpTo(a);
    }
  }
}

/** Fan-in confluence: the order in which branches complete does not matter. */
module FanInConfluence {
  import opened Basics
  import opened Values
  import opened Pipelines
  import opened EdgeSelector
  import opened ContextMerge
  import opened Keys
  import opened RunState
  import opened Advance
  import opened Invariants
  import opened CrashReplay

  /** A node whose one outgoing edge leads unconditionally to the fan-in. */
  ghost predicate IsBranch(p: Pipeline, node: string, fan: Node) {
    && Lookup(p.nodes, node).Some? && Lookup(p.nodes, node).value.shape != FAN_OUT
    && |OutEdges(p.edges, node)| == 1
    && OutEdges(p.edges, node)[0].condition == None
    && OutEdges(p.edges, node)[0].target == fan.id
  }

  /** The branch is not a gate, or its gate passed. */
  ghost predicate Succeeds(p: Pipeline, node: string, e: Event) {
    Lookup(p.nodes, node).Some? && Lookup(p.nodes, node).value.goalGate.Some? ==> VerdictPass(e.metadata)
  }

  /** The branch is a gate that failed and will run again itself. */
  ghost predicate Retries(p: Pipeline, k: RowKey, e: Event) {
    var node := Lookup(p.nodes, k.node);
    && node.Some? && node.value.goalGate.Some? && !VerdictPass(e.metadata)
    && node.value.goalGate.value.retryTarget == k.node
    && k.attempt + 1 <= node.value.goalGate.value.maxAttempts
  }

  ghost predicate FansInto(env: Env, fan: Node) {
    && Lookup(env.pipeline.nodes, fan.id) == Some(fan) && fan.shape == FAN_IN && SafeId(fan.id)
    && fan.id !in Predecessors(env.pipeline.edges, fan.id)
  }

  /** `e` completes a branch's latest attempt, which was still open. */
  ghost predicate Moves(env: Env, s: State, run: string, fan: Node, e: Event, k: RowKey) {
    && k in s.rows && k.run == run && e.task == TaskOf(k)
    && k.node in Predecessors(env.pipeline.edges, fan.id)
    && k == LatestKey(s.rows, run, k.node) && !IsDone(s.rows, k)
    && IsBranch(env.pipeline, k.node, fan)
    && (Succeeds(env.pipeline, k.node, e) || Retries(env.pipeline, k, e))
  }

  function MarkedBy(row: Row, e: Event): Row {
    row.(status := NodeSucceeded, updates := ContextUpdates(e.metadata))
  }

  /** Completions of open branches, retries included, in whatever order. */
  ghost predicate Course(env: Env, s: State, run: string, fan: Node, es: seq<Event>)
    decreases |es|
  {
    es == [] ||
      var n := |es| - 1;
      Course(env, s, run, fan, es[..n]) && exists k :: Moves(env, Deliveries(env, s, es[..n]), run, fan, es[n], k)
  }

  // ---- One completion ------------------------------------------------------

  lemma BranchEnters(env: Env, s: State, e: Event, k: RowKey, fan: Node)
    requires Bijective(s) && k in s.rows && e.task == TaskOf(k)
    requires IsBranch(env.pipeline, k.node, fan) && Succeeds(env.pipeline, k.node, e)
    requires Lookup(env.pipeline.nodes, fan.id) == Some(fan) && fan.shape == FAN_IN
    ensures
      var t := TurnOf(env, k, s.runs[k.run], e);
      && TurnAt(env, s, e) == Some(t) && t.passed && t.run == t.before && Entered(t) == Some(fan)
  {
    hide Select;
    FindsOwn(s, k);
    var edges := OutEdges(env.pipeline.edges, k.node);
    assert edges == [edges[0]];
    assert edges[0] in edges;
    assert FeedsFanIn(env.pipeline, k.node);
    var t := TurnOf(env, k, s.runs[k.run], e);
    SelectOnly(edges, edges[0], t.run.context, HintsOf(t));
  }

  /** A branch that is not the last only marks its row and moves the cursor. */
  lemma BranchWaits(env: Env, s: State, e: Event, k: RowKey, fan: Node)
    requires Bijective(s) && k in s.rows && e.task == TaskOf(k)
    requires IsBranch(env.pipeline, k.node, fan) && Succeeds(env.pipeline, k.node, e)
    requires Lookup(env.pipeline.nodes, fan.id) == Some(fan) && fan.shape == FAN_IN
    requires !AllDone(s.rows[k := MarkedBy(s.rows[k], e)], k.run, Predecessors(env.pipeline.edges, fan.id))
    ensures Step(env, s, e) ==
      s.(rows := s.rows[k := MarkedBy(s.rows[k], e)], runs := s.runs[k.run := s.runs[k.run].(cursor := e.id)])
  {
    hide TailOf, Entered, IsBranch, Succeeds, AllDone, Bijective, PlanOf;
    HasRun(s, k);
    BranchEnters(env, s, e, k, fan);
    var t := TurnOf(env, k, s.runs[k.run], e);
    var rows := MarkedRows(t, s.rows);
    TailEnters(t, rows, rows);
    EndsBeforeSave(env, s, e, t);
    ImprintNothing(s.(rows := rows));
    var save := [Save(k.run, t.before.(cursor := e.id))];
    assert save[..0] == [];
  }

  /** A step that dispatches one node and saves. */
  lemma SendStep(env: Env, s: State, e: Event, t: Turn, key: RowKey, card: Card, row: Row, saved: Run, exit: Exit)
    requires Bijective(s) && TurnAt(env, s, e) == Some(t)
    requires TailOf(t, MarkedRows(t, s.rows)) == Tail([Create(KeyText(key), card), Upsert(key, row)], Some(saved), exit)
    ensures PlanOf(env, s, e).exit == exit && t.key.run in s.runs
    ensures Step(env, s, e).runs == s.runs[t.key.run := saved]
    ensures Step(env, s, e).rows == MarkedRows(t, s.rows)[key := row]
  {
    hide TailOf, Step, Bijective, PlanOf, KeyText, Imprint, EffectOf;
    PlanParts(env, s, e, t);
    EndsBeforeSave(env, s, e, t);
    TurnHasRun(env, s, e, t);
    UnitSaved(s.(rows := MarkedRows(t, s.rows)), key, card, row, t.key.run, saved);
  }

  lemma UnitSaved(m: State, key: RowKey, card: Card, row: Row, run: string, saved: Run)
    requires run in m.runs
    ensures
      var after := ApplyAll(Imprint(m, EffectOf([Create(KeyText(key), card), Upsert(key, row)])), [Save(run, saved)]);
      after.runs == m.runs[run := saved] && after.rows == m.rows[key := row]
  {
    hide KeyText;
    UnitEffect(key, row, card, [], 2);
    var ws := [Create(KeyText(key), card), Upsert(key, row)];
    assert (ws + [])[..2] == ws;
    assert [Save(run, saved)][..0] == [];
    assert m.rows + map[key := row] == m.rows[key := row];
  }

  lemma TurnHasRun(env: Env, s: State, e: Event, t: Turn)
    requires TurnAt(env, s, e) == Some(t)
    ensures t.key.run in s.runs
  {
  }

  lemma FanInSends(t: Turn, fan: Node, rows: Rows)
    requires SafeId(t.key.run) && SafeId(fan.id) && fan.shape == FAN_IN && Entered(t) == Some(fan)
    requires AllDone(rows, t.key.run, Predecessors(t.env.pipeline.edges, fan.id))
    ensures
      var first, preds := RowKey(t.key.run, fan.id, 1), Predecessors(t.env.pipeline.edges, fan.id);
      var ctx := FanInContext(t, fan, rows);
      TailOf(t, rows) == Tail(
        [Create(KeyText(first), CardFor(t.env.pipeline, fan, ctx, [t.event.task])),
          Upsert(first, DispatchedRow(first, preds, fan.goalGate))],
        Some(Resumed(t, t.run.(context := ctx))), FanInFired)
  {
    hide Entered, KeyText, SafeId, FanInContext, AllDone, TailOf;
    TailEnters(t, rows, rows);
  }

  /** The last branch fires the fan-in with the merged context. */
  lemma BranchFires(env: Env, s: State, e: Event, k: RowKey, fan: Node)
    requires Bijective(s) && k in s.rows && e.task == TaskOf(k) && SafeId(fan.id)
    requires IsBranch(env.pipeline, k.node, fan) && Succeeds(env.pipeline, k.node, e)
    requires Lookup(env.pipeline.nodes, fan.id) == Some(fan) && fan.shape == FAN_IN
    requires AllDone(s.rows[k := MarkedBy(s.rows[k], e)], k.run, Predecessors(env.pipeline.edges, fan.id))
    ensures PlanOf(env, s, e).exit == FanInFired
    ensures k.run in s.runs && k.run in Step(env, s, e).runs
    ensures
      var first, marked := RowKey(k.run, fan.id, 1), s.rows[k := MarkedBy(s.rows[k], e)];
      && Step(env, s, e).rows.Keys == marked.Keys + {first}
      && forall j | j in marked && j != first :: Step(env, s, e).rows[j] == marked[j]
    ensures
      var preds := Predecessors(env.pipeline.edges, fan.id);
      Step(env, s, e).runs[k.run].context ==
        Merged(s.runs[k.run].context, UpdatesOf(s.rows[k := MarkedBy(s.rows[k], e)], k.run, Sorted(preds)))
  {
    hide TailOf, Entered, IsBranch, Succeeds, AllDone, Bijective, PlanOf, KeyText, Step, Merged, UpdatesOf;
    HasRun(s, k);
    BranchEnters(env, s, e, k, fan);
    var t := TurnOf(env, k, s.runs[k.run], e);
    var rows := MarkedRows(t, s.rows);
    FanInSends(t, fan, rows);
    var first, preds, ctx := RowKey(k.run, fan.id, 1), Predecessors(env.pipeline.edges, fan.id),
      FanInContext(t, fan, rows);
    SendStep(env, s, e, t, first, CardFor(env.pipeline, fan, ctx, [e.task]), DispatchedRow(first, preds, fan.goalGate),
      Resumed(t, t.run.(context := ctx)), FanInFired);
  }

  lemma RetryTurn(env: Env, s: State, e: Event, k: RowKey, fan: Node)
    requires Bijective(s) && k in s.rows && e.task == TaskOf(k) && FansInto(env, fan)
    requires IsBranch(env.pipeline, k.node, fan) && Retries(env.pipeline, k, e)
    ensures
      var t := TurnOf(env, k, s.runs[k.run], e);
      TurnAt(env, s, e) == Some(t) && !t.passed && t.run == t.before
  {
    hide Select;
    FindsOwn(s, k);
    var edges := OutEdges(env.pipeline.edges, k.node);
    assert edges[0] in edges;
    assert FeedsFanIn(env.pipeline, k.node);
  }

  function RetriedRows(rows: Rows, e: Event, k: RowKey): Rows
    requires k in rows
  {
    var again := k.(attempt := k.attempt + 1);
    rows[k := rows[k].(status := Partial, updates := ContextUpdates(e.metadata))]
      [again := DispatchedRow(again, {k.node}, None)]
  }

  /** A failed branch marks its row, adds its next attempt and moves the cursor. */
  lemma BranchRetries(env: Env, s: State, e: Event, k: RowKey, fan: Node)
    requires Bijective(s) && k in s.rows && e.task == TaskOf(k) && FansInto(env, fan)
    requires IsBranch(env.pipeline, k.node, fan) && Retries(env.pipeline, k, e)
    ensures k.run in s.runs
    ensures
      Step(env, s, e).runs == s.runs[k.run := s.runs[k.run].(cursor := e.id)]
    ensures Step(env, s, e).rows == RetriedRows(s.rows, e, k)
  {
    hide TailOf, IsBranch, Bijective, PlanOf, KeyText, Step, FansInto, Retries;
    HasRun(s, k);
    RetryTurn(env, s, e, k, fan);
    var t := TurnOf(env, k, s.runs[k.run], e);
    var again := k.(attempt := k.attempt + 1);
    BranchIsNode(env.pipeline, k.node, fan);
    RetryTail(t, MarkedRows(t, s.rows));
    var card := CardFor(env.pipeline, Lookup(env.pipeline.nodes, k.node).value, t.run.context, [e.task]);
    SendStep(env, s, e, t, again, card, DispatchedRow(again, {k.node}, None), t.run.(cursor := e.id), GateRetried);
  }

  lemma BranchIsNode(p: Pipeline, node: string, fan: Node)
    requires IsBranch(p, node, fan)
    ensures Lookup(p.nodes, node).Some? && Lookup(p.nodes, node).value.shape != FAN_OUT
  {
  }

  lemma RetryTail(t: Turn, rows: Rows)
    requires SafeKey(t.key) && Retries(t.env.pipeline, t.key, t.event) && !t.passed
    requires Lookup(t.env.pipeline.nodes, t.key.node).value.shape != FAN_OUT
    ensures
      var again := t.key.(attempt := t.key.attempt + 1);
      var node := Lookup(t.env.pipeline.nodes, t.key.node).value;
      TailOf(t, rows) == Tail(
        [Create(KeyText(again), CardFor(t.env.pipeline, node, t.run.context, [t.event.task])),
         Upsert(again, DispatchedRow(again, {t.key.node}, None))],
        Some(t.run.(cursor := t.event.id)), GateRetried)
  {
    hide KeyText, RouteTail, SafeId;
  }

  // ---- Any order -----------------------------------------------------------

  lemma SameKeysSameLatest(rows: Rows, other: Rows, run: string, n: string)
    requires rows.Keys == other.Keys
    ensures LatestKey(rows, run, n) == LatestKey(other, run, n)
  {
    assert AttemptsOf(rows, run, n) == AttemptsOf(other, run, n) by {
      assert forall k :: k in rows <==> k in other;
    }
  }

  lemma LatestAfterRetry(rows: Rows, other: Rows, k: RowKey, n: string)
    requires k in rows && k == LatestKey(rows, k.run, k.node)
    requires other.Keys == rows.Keys + {k.(attempt := k.attempt + 1)}
    ensures LatestKey(other, k.run, n) ==
      if n == k.node then k.(attempt := k.attempt + 1) else LatestKey(rows, k.run, n)
  {
    var again := k.(attempt := k.attempt + 1);
    AttemptsAfter(rows, again, rows[k], n);
    SameKeysSameLatest(other, rows[again := rows[k]], k.run, n);
    if n == k.node {
      assert k.attempt in AttemptsOf(rows, k.run, n);
    } else {
      assert AttemptsOf(rows, k.run, n) + {} == AttemptsOf(rows, k.run, n);
    }
  }

  /** `e` is a passing completion of some attempt of branch `m`. */
  ghost predicate Passing(p: Pipeline, run: string, m: string, e: Event) {
    exists a: nat :: PassedBy(p, RowKey(run, m, a), e)
  }

  ghost predicate PassedBy(p: Pipeline, k: RowKey, e: Event) {
    SafeKey(k) && e.task == TaskOf(k) && Succeeds(p, k.node, e)
  }

  /** Where branch `m` stands: as at first if it was done then; otherwise done
      iff one of the events passed it, and then with that event's updates. */
  ghost predicate BranchStands(p: Pipeline, s: Rows, w: Rows, run: string, es: set<Event>, m: string) {
    var was, now := LatestKey(s, run, m), LatestKey(w, run, m);
    if IsDone(s, was) then now == was && was in w && w[was] == s[was]
    else
      && (IsDone(w, now) <==> exists e :: e in es && Passing(p, run, m, e))
      && (forall e | e in es && Passing(p, run, m, e) :: now in w && w[now].updates == ContextUpdates(e.metadata))
  }

  /** Nothing but the cursor has changed in the run, and every branch stands
      where its own events put it. */
  ghost predicate Along(env: Env, s: State, w: State, run: string, fan: Node, es: set<Event>) {
    && Bijective(w) && run in s.runs && run in w.runs
    && w.runs[run] == s.runs[run].(cursor := w.runs[run].cursor)
    && forall m | m in Predecessors(env.pipeline.edges, fan.id) ::
      BranchStands(env.pipeline, s.rows, w.rows, run, es, m)
  }

  lemma OnlyOwnBranch(p: Pipeline, k: RowKey, e: Event, m: string)
    requires SafeKey(k) && e.task == TaskOf(k) && Passing(p, k.run, m, e)
    ensures m == k.node && Succeeds(p, m, e)
  {
    hide KeyText, SafeId, Succeeds;
    var a: nat :| PassedBy(p, RowKey(k.run, m, a), e);
    TaskOfInjective(RowKey(k.run, m, a), k);
  }

  lemma MarkStands(p: Pipeline, s: Rows, w: Rows, run: string, es: set<Event>, e: Event, k: RowKey, m: string)
    requires BranchStands(p, s, w, run, es, m)
    requires SafeKey(k) && k in w && k.run == run && e.task == TaskOf(k) && Succeeds(p, k.node, e)
    requires k == LatestKey(w, run, k.node) && !IsDone(w, k)
    ensures BranchStands(p, s, w[k := MarkedBy(w[k], e)], run, es + {e}, m)
  {
    hide KeyText, SafeId, Succeeds, LatestKey;
    SameKeysSameLatest(w, w[k := MarkedBy(w[k], e)], run, m);
    if m == k.node {
      assert PassedBy(p, RowKey(run, m, k.attempt), e);
    } else if Passing(p, run, m, e) {
      OnlyOwnBranch(p, k, e, m);
    }
    LatestKeyOf(w, run, m);
  }

  lemma RetryStands(p: Pipeline, s: Rows, w: Rows, other: Rows, run: string, es: set<Event>, e: Event, k: RowKey,
    m: string)
    requires BranchStands(p, s, w, run, es, m)
    requires SafeKey(k) && k in w && k.run == run && e.task == TaskOf(k) && Retries(p, k, e)
    requires k == LatestKey(w, run, k.node) && !IsDone(w, k)
    requires
      var again := k.(attempt := k.attempt + 1);
      && other.Keys == w.Keys + {again} && other[again].status == Dispatched
      && forall j | j in w && j != k && j != again :: other[j] == w[j]
    ensures BranchStands(p, s, other, run, es + {e}, m)
  {
    hide KeyText, SafeId, LatestKey;
    LatestAfterRetry(w, other, k, m);
    LatestKeyOf(w, run, m);
    LatestKeyOf(s, run, m);
    if Passing(p, run, m, e) {
      OnlyOwnBranch(p, k, e, m);
    }
  }

  /** One more completion, unless it is the last. */
  lemma AlongStep(env: Env, s: State, w: State, run: string, fan: Node, es: set<Event>, e: Event, k: RowKey)
    requires Along(env, s, w, run, fan, es) && FansInto(env, fan) && Moves(env, w, run, fan, e, k)
    requires Retries(env.pipeline, k, e)
      || !AllDone(w.rows[k := MarkedBy(w.rows[k], e)], run, Predecessors(env.pipeline.edges, fan.id))
    ensures Along(env, s, Step(env, w, e), run, fan, es + {e})
  {
    hide Step, Bijective, BranchStands, LatestKey, IsBranch, Succeeds, Retries, AllDone, KeyText, SafeId;
    HasRun(w, k);
    StepBijective(env, w, e);
    if Retries(env.pipeline, k, e) {
      BranchRetries(env, w, e, k, fan);
      forall m | m in Predecessors(env.pipeline.edges, fan.id)
        ensures BranchStands(env.pipeline, s.rows, Step(env, w, e).rows, run, es + {e}, m)
      {
        RetryStands(env.pipeline, s.rows, w.rows, Step(env, w, e).rows, run, es, e, k, m);
      }
    } else {
      BranchWaits(env, w, e, k, fan);
      forall m | m in Predecessors(env.pipeline.edges, fan.id)
        ensures BranchStands(env.pipeline, s.rows, w.rows[k := MarkedBy(w.rows[k], e)], run, es + {e}, m)
      {
        MarkStands(env.pipeline, s.rows, w.rows, run, es, e, k, m);
      }
    }
  }

  ghost function Heard(es: seq<Event>): set<Event> {
    set e | e in es
  }

  lemma AlongAtFirst(env: Env, s: State, run: string, fan: Node)
    requires Bijective(s) && run in s.runs
    ensures Along(env, s, s, run, fan, {})
  {
  }

  lemma HeardSnoc(es: seq<Event>)
    requires es != []
    ensures Heard(es) == Heard(es[..|es| - 1]) + {es[|es| - 1]}
  {
    assert es == es[..|es| - 1] + [es[|es| - 1]];
  }

  /** The last completion, and what it does. */
  lemma LastFires(env: Env, s: State, w: State, run: string, fan: Node, es: set<Event>, e: Event, k: RowKey)
    requires Along(env, s, w, run, fan, es) && FansInto(env, fan) && Moves(env, w, run, fan, e, k)
    requires !Retries(env.pipeline, k, e)
    requires AllDone(w.rows[k := MarkedBy(w.rows[k], e)], run, Predecessors(env.pipeline.edges, fan.id))
    ensures PlanOf(env, w, e).exit == FanInFired
    ensures AllDone(Step(env, w, e).rows, run, Predecessors(env.pipeline.edges, fan.id))
    ensures run in s.runs && run in Step(env, w, e).runs
    ensures Step(env, w, e).runs[run].context ==
      Merged(s.runs[run].context,
        FinalUpdates(env.pipeline, s.rows, run, es + {e}, Sorted(Predecessors(env.pipeline.edges, fan.id))))
  {
    hide Step, Bijective, BranchStands, LatestKey, IsBranch, Succeeds, Retries, KeyText, SafeId, PlanOf, UpdatesOf;
    hide FinalUpdates, IsDone;
    HasRun(w, k);
    BranchFires(env, w, e, k, fan);
    var marked := w.rows[k := MarkedBy(w.rows[k], e)];
    var preds := Predecessors(env.pipeline.edges, fan.id);
    forall m | m in preds
      ensures BranchStands(env.pipeline, s.rows, marked, run, es + {e}, m)
      ensures IsDone(Step(env, w, e).rows, LatestKey(Step(env, w, e).rows, run, m))
    {
      MarkStands(env.pipeline, s.rows, w.rows, run, es, e, k, m);
      StillDone(marked, Step(env, w, e).rows, RowKey(run, fan.id, 1), m);
    }
    StandsUpdates(env.pipeline, s.rows, marked, run, es + {e}, Sorted(preds));
  }

  /** Adding the fan-in's row leaves its predecessors done. */
  lemma StillDone(rows: Rows, other: Rows, first: RowKey, m: string)
    requires other.Keys == rows.Keys + {first} && (forall j | j in rows && j != first :: other[j] == rows[j])
    requires m != first.node && IsDone(rows, LatestKey(rows, first.run, m))
    ensures IsDone(other, LatestKey(other, first.run, m))
  {
    assert AttemptsOf(other, first.run, m) == AttemptsOf(rows, first.run, m) by {
      assert forall a: nat :: RowKey(first.run, m, a) in other <==> RowKey(first.run, m, a) in rows;
      forall a
        ensures a in AttemptsOf(other, first.run, m) <==> a in AttemptsOf(rows, first.run, m)
      {
        if a in AttemptsOf(other, first.run, m) {
          assert RowKey(first.run, m, a) in other;
        }
        if a in AttemptsOf(rows, first.run, m) {
          assert RowKey(first.run, m, a) in rows;
        }
      }
    }
  }

  /** A branch's part of the merge: its stored updates if it was done at first,
      else those of the event that passed it. No order of events enters. */
  ghost function FinalUpdate(p: Pipeline, rows: Rows, run: string, es: set<Event>, m: string): Data {
    var k := LatestKey(rows, run, m);
    if IsDone(rows, k) then rows[k].updates
    else if exists e :: e in es && Passing(p, run, m, e) then
      var e :| e in es && Passing(p, run, m, e);
      ContextUpdates(e.metadata)
    else map[]
  }

  ghost function FinalUpdates(p: Pipeline, rows: Rows, run: string, es: set<Event>, ids: seq<string>): seq<Data> {
    if ids == [] then [] else
      FinalUpdates(p, rows, run, es, ids[..|ids| - 1]) + [FinalUpdate(p, rows, run, es, ids[|ids| - 1])]
  }

  lemma {:induction false} StandsUpdates(p: Pipeline, s: Rows, w: Rows, run: string, es: set<Event>, ids: seq<string>)
    requires forall m | m in ids :: BranchStands(p, s, w, run, es, m) && IsDone(w, LatestKey(w, run, m))
    ensures UpdatesOf(w, run, ids) == FinalUpdates(p, s, run, es, ids)
    decreases |ids|
  {
    hide LatestKey, Passing;
    if ids != [] {
      var n := |ids| - 1;
      assert ids == ids[..n] + [ids[n]];
      StandsUpdates(p, s, w, run, es, ids[..n]);
      assert BranchStands(p, s, w, run, es, ids[n]);
    }
  }

  lemma StillOpen(env: Env, w: State, run: string, fan: Node, e: Event, k: RowKey)
    requires Moves(env, w, run, fan, e, k)
    ensures !AllDone(w.rows, run, Predecessors(env.pipeline.edges, fan.id))
  {
  }

  /** A retry leaves the fan-in waiting for the new attempt. */
  lemma RetryStillOpen(env: Env, w: State, run: string, fan: Node, e: Event, k: RowKey)
    requires Bijective(w) && FansInto(env, fan) && Moves(env, w, run, fan, e, k) && Retries(env.pipeline, k, e)
    ensures !AllDone(Step(env, w, e).rows, run, Predecessors(env.pipeline.edges, fan.id))
  {
    hide Step, Bijective, LatestKey, IsBranch, Succeeds, Retries, KeyText, SafeId;
    BranchRetries(env, w, e, k, fan);
    LatestAfterRetry(w.rows, Step(env, w, e).rows, k, k.node);
  }

  /** Until every branch is done, whatever the order and however many retries,
      the run keeps its context and status. */
  lemma {:induction false} WaitingUntilLast(env: Env, s: State, run: string, fan: Node, es: seq<Event>)
    requires Bijective(s) && run in s.runs && FansInto(env, fan) && Course(env, s, run, fan, es)
    requires !AllDone(Deliveries(env, s, es).rows, run, Predecessors(env.pipeline.edges, fan.id))
    ensures Along(env, s, Deliveries(env, s, es), run, fan, Heard(es))
    decreases |es|
  {
    hide Step, Along, Bijective, Moves, FansInto, AllDone, Retries;
    if es == [] {
      AlongAtFirst(env, s, run, fan);
      assert Heard([]) == {};
    } else {
      var n := |es| - 1;
      var before := Deliveries(env, s, es[..n]);
      var k :| Moves(env, before, run, fan, es[n], k);
      StillOpen(env, before, run, fan, es[n], k);
      WaitingUntilLast(env, s, run, fan, es[..n]);
      HeardSnoc(es);
      MovedKey(env, before, run, fan, es[n], k);
      if !Retries(env.pipeline, k, es[n])
        && AllDone(before.rows[k := MarkedBy(before.rows[k], es[n])], run, Predecessors(env.pipeline.edges, fan.id)) {
        LastFires(env, s, before, run, fan, Heard(es[..n]), es[n], k);
        assert false;
      }
      AlongStep(env, s, before, run, fan, Heard(es[..n]), es[n], k);
    }
  }

  lemma MovedKey(env: Env, w: State, run: string, fan: Node, e: Event, k: RowKey)
    requires Moves(env, w, run, fan, e, k)
    ensures k in w.rows
  {
  }

  /** Main result: when the last branch is done the fan-in fires, and the run's
      context is the base merged with each predecessor's final updates, once, in
      node order: a function of the events heard and not of their order. */
  lemma FiresWithMerge(env: Env, s: State, run: string, fan: Node, es: seq<Event>)
    requires Bijective(s) && run in s.runs && FansInto(env, fan) && Course(env, s, run, fan, es)
    requires !AllDone(s.rows, run, Predecessors(env.pipeline.edges, fan.id))
    requires AllDone(Deliveries(env, s, es).rows, run, Predecessors(env.pipeline.edges, fan.id))
    ensures es != [] && PlanOf(env, Deliveries(env, s, es[..|es| - 1]), es[|es| - 1]).exit == FanInFired
    ensures run in Deliveries(env, s, es).runs
    ensures Deliveries(env, s, es).runs[run].context ==
      Merged(s.runs[run].context,
        FinalUpdates(env.pipeline, s.rows, run, Heard(es), Sorted(Predecessors(env.pipeline.edges, fan.id))))
  {
    hide Step, Along, Bijective, Moves, FansInto, AllDone, Retries, PlanOf, FinalUpdates;
    var n := |es| - 1;
    var before := Deliveries(env, s, es[..n]);
    var k :| Moves(env, before, run, fan, es[n], k);
    StillOpen(env, before, run, fan, es[n], k);
    WaitingUntilLast(env, s, run, fan, es[..n]);
    HeardSnoc(es);
    LastIsLast(env, s, before, run, fan, Heard(es[..n]), es[n], k);
    LastFires(env, s, before, run, fan, Heard(es[..n]), es[n], k);
  }

  lemma LastIsLast(env: Env, s: State, w: State, run: string, fan: Node, es: set<Event>, e: Event, k: RowKey)
    requires Along(env, s, w, run, fan, es) && FansInto(env, fan) && Moves(env, w, run, fan, e, k)
    requires AllDone(Step(env, w, e).rows, run, Predecessors(env.pipeline.edges, fan.id))
    ensures !Retries(env.pipeline, k, e)
    ensures AllDone(w.rows[k := MarkedBy(w.rows[k], e)], run, Predecessors(env.pipeline.edges, fan.id))
  {
    hide Step, Bijective, BranchStands, LatestKey, IsBranch, Succeeds, Retries, AllDone, KeyText, SafeId;
    if Retries(env.pipeline, k, e) {
      RetryStillOpen(env, w, run, fan, e, k);
    } else if !AllDone(w.rows[k := MarkedBy(w.rows[k], e)], run, Predecessors(env.pipeline.edges, fan.id)) {
      BranchWaits(env, w, e, k, fan);
    }
  }

  /** So any two orders of the same completions end in the same context. */
  lemma CompletionOrderIrrelevant(env: Env, s: State, run: string, fan: Node, es: seq<Event>, es': seq<Event>)
    requires Bijective(s) && run in s.runs && FansInto(env, fan)
    requires !AllDone(s.rows, run, Predecessors(env.pipeline.edges, fan.id))
    requires Course(env, s, run, fan, es)
    requires AllDone(Deliveries(env, s, es).rows, run, Predecessors(env.pipeline.edges, fan.id))
    requires Course(env, s, run, fan, es')
    requires AllDone(Deliveries(env, s, es').rows, run, Predecessors(env.pipeline.edges, fan.id))
    requires forall e :: e in es <==> e in es'
    ensures run in Deliveries(env, s, es).runs && run in Deliveries(env, s, es').runs
    ensures Deliveries(env, s, es).runs[run].context == Deliveries(env, s, es').runs[run].context
  {
    hide Bijective, FansInto, AllDone, Course, Deliveries, FinalUpdates;
    FiresWithMerge(env, s, run, fan, es);
    FiresWithMerge(env, s, run, fan, es');
    assert Heard(es) == Heard(es');
  }
}

/** What reconciling does for each run: which runs take part, and that their
    logged completions are handled. */
module ReconcileProgress {
  import opened Basics
  import opened Pipelines
  import opened Keys
  import opened RunState
  import opened Advance
  import opened Invariants
  import opened EventLog
  import opened Reconciling
  import opened Replays
  import opened ReconcileOrder
  import opened ReconcileTwice
  import opened Completions

  // ---- Which runs take part ------------------------------------------------------------------

  /** A running or paused run is replayed from its stored cursor, with the pipeline
      of its spec id and no tools; a finished or blocked one is left alone. */
  lemma OneRunByStatus(specs: map<string, Pipeline>, s: State, log: seq<Event>, run: string, size: nat)
    requires InOrder(log) && run in s.runs
    ensures
      match s.runs[run].status
      case SUCCEEDED => OneRun(specs, s, log, run, size) == Pass(s, [], false)
      case FAILED => OneRun(specs, s, log, run, size) == Pass(s, [], false)
      case BLOCKED => OneRun(specs, s, log, run, size) == Pass(s, [], false)
      case _ =>
        var spec := s.runs[run].specId;
        OneRun(specs, s, log, run, size) ==
          PassOver(if spec in specs then Some(Env(specs[spec], None)) else None,
            Pass(s, [], false), run, log, s.runs[run].cursor, size)
  {
    hide PassOver;
  }

  /** When no pass raises, each run ends as its own pass alone leaves it. */
  lemma {:induction false} EachRunPasses(specs: map<string, Pipeline>, s: State, log: seq<Event>, order: seq<string>,
    size: nat, run: string)
    requires InOrder(log) && Bijective(s) && Distinct(order) && run in order
    requires !ReconcileAll(specs, s, log, order, size).1
    ensures !OneRun(specs, s, log, run, size).raised
    ensures SameRun(OneRun(specs, s, log, run, size).state, ReconcileAll(specs, s, log, order, size).0, run)
    decreases |order|
  {
    hide OneRun, Bijective, SameRun;
    var a, rest := order[0], order[1..];
    assert order == [a] + rest;
    DistinctTail(order);
    var one := OneRun(specs, s, log, a, size);
    SameRunRefl(s, a);
    OneRunLocal(specs, s, s, log, a, size);
    if a == run {
      OthersUntouched(specs, one.state, log, rest, size, run);
    } else {
      PassesCommute(specs, s, log, a, run, size);
      OneRunLocal(specs, s, one.state, log, run, size);
      EachRunPasses(specs, one.state, log, rest, size, run);
      SameRunTransitive(OneRun(specs, s, log, run, size).state, OneRun(specs, one.state, log, run, size).state,
        ReconcileAll(specs, s, log, order, size).0, run);
    }
  }

  // ---- What a pass writes ----------------------------------------------------------------------

  /** The write marks `k`'s row as completed by `e`, which found it as `was`. */
  ghost predicate MarksRow(p: Pipeline, k: RowKey, e: Event, was: Row, w: Write) {
    w.Upsert? && w.key == k && MarkedAs(p, k, e, was, w.row)
  }

  ghost predicate Dispatches(k: RowKey, w: Write) {
    w.Upsert? && w.key == k && w.row.status == Dispatched
  }

  /** Every row a pass writes is done or dispatched. */
  ghost predicate RowsMoved(ws: seq<Write>) {
    forall w | w in ws && w.Upsert? :: w.row.status in {NodeSucceeded, Partial, Dispatched}
  }

  lemma StepMovesRows(env: Env, s: State, e: Event)
    ensures RowsMoved(PlanOf(env, s, e).writes)
  {
    hide TailOf, PlanOf;
    if TurnAt(env, s, e) == None {
      NothingPlanned(env, s, e);
    } else {
      var t := TurnAt(env, s, e).value;
      PlanParts(env, s, e, t);
      var dispatch := TailOf(t, MarkedRows(t, s.rows)).dispatch;
      TailOrderly(t, MarkedRows(t, s.rows));
      forall w | w in dispatch && w.Upsert?
        ensures w.row.status == Dispatched
      {
        var i :| 0 <= i < |dispatch| && dispatch[i] == w;
        assert OrderlyAt(env.pipeline, t.key.run, dispatch, i);
      }
    }
  }

  lemma {:induction false} PassMovesRows(env: Env, o: Pass, events: seq<Event>)
    requires RowsMoved(o.writes)
    ensures RowsMoved(HandleAll(env, o, events).writes)
    decreases |events|
  {
    hide PlanOf;
    if events != [] {
      var n := |events| - 1;
      PassMovesRows(env, o, events[..n]);
      StepMovesRows(env, HandleAll(env, o, events[..n]).state, events[n]);
    }
  }

  /** The last row written for a key stands. */
  lemma {:induction false} LastRowStands(s: State, ws: seq<Write>, k: RowKey, i: nat)
    requires i < |ws| && ws[i].Upsert? && ws[i].key == k
    ensures k in ApplyAll(s, ws).rows
    ensures exists j :: i <= j < |ws| && ws[j].Upsert? && ws[j].key == k && ws[j].row == ApplyAll(s, ws).rows[k]
    decreases |ws|
  {
    var n := |ws| - 1;
    if ws[n].Upsert? && ws[n].key == k {
    } else {
      LastRowStands(s, ws[..n], k, i);
      var j :| i <= j < n && ws[..n][j].Upsert? && ws[..n][j].key == k
        && ws[..n][j].row == ApplyAll(s, ws[..n]).rows[k];
      assert ws[j] == ws[..n][j];
    }
  }

  /** Each event of a pass that does not raise marks its row. */
  lemma {:induction false} HandledMarks(env: Env, o: Pass, events: seq<Event>, e: Event, k: RowKey)
    requires Bijective(o.state) && k in o.state.rows && o.state.rows[k].task == e.task && e in events
    requires !HandleAll(env, o, events).raised
    ensures exists i, was: Row ::
      0 <= i < |HandleAll(env, o, events).writes| && was.task == e.task
      && MarksRow(env.pipeline, k, e, was, HandleAll(env, o, events).writes[i])
    decreases |events|
  {
    hide PlanOf, Bijective, MarksRow;
    var n := |events| - 1;
    var before := HandleAll(env, o, events[..n]);
    assert events == events[..n] + [events[n]];
    HandleKeeps(env, o, events[..n]);
    if e in events[..n] {
      HandledMarks(env, o, events[..n], e, k);
      var i, was: Row :| 0 <= i < |before.writes| && was.task == e.task
        && MarksRow(env.pipeline, k, e, was, before.writes[i]);
      assert HandleAll(env, o, events).writes[i] == before.writes[i];
    } else {
      OwnTaskOf(o.state, k);
      OwnTaskOf(before.state, k);
      StepMarks(env, before.state, e, k);
      FirstMarks(env, before.state, e, k);
      var i := |before.writes|;
      assert HandleAll(env, o, events).writes[i] == PlanOf(env, before.state, e).writes[0];
    }
  }

  lemma FirstMarks(env: Env, s: State, e: Event, k: RowKey)
    requires Bijective(s) && k in s.rows && e.task == s.rows[k].task
    ensures PlanOf(env, s, e).writes != []
    ensures MarksRow(env.pipeline, k, e, s.rows[k], PlanOf(env, s, e).writes[0])
  {
    hide PlanOf, Bijective, Step, MarkedAs;
    StepMarks(env, s, e, k);
  }

  // ---- Every active run catches up ------------------------------------------------------------------

  /** Some write of the list marks `k`'s row for `e`, and `k` ends done, unless a
      later write dispatches it again. */
  ghost predicate Completed(p: Pipeline, s: State, ws: seq<Write>, k: RowKey, e: Event) {
    exists i, was ::
      && 0 <= i < |ws| && MarksRow(p, k, e, was, ws[i]) && k in s.rows
      && (s.rows[k].status in {NodeSucceeded, Partial}
          || exists j :: i < j < |ws| && Dispatches(k, ws[j]) && s.rows[k] == ws[j].row)
  }

  lemma PassCompletes(env: Env, s: State, run: string, log: seq<Event>, size: nat, e: Event, k: RowKey)
    requires InOrder(log) && size >= 1 && Bijective(s) && run in s.runs && !EndOf(env, s, run, log, size).raised
    requires e in log && e.id > s.runs[run].cursor && k in s.rows && k.run == run && s.rows[k].task == e.task
    requires EndOf(env, s, run, log, size).state == ApplyAll(s, EndOf(env, s, run, log, size).writes)
    ensures
      var end := EndOf(env, s, run, log, size);
      && run in end.state.runs && end.state.runs[run].cursor >= e.id
      && Completed(env.pipeline, end.state, end.writes, k, e)
  {
    hide Bijective, Past, PassOver, Attempted, ReadAt, Owned, HandleAll, MarksRow;
    var o, cursor := Pass(s, [], false), s.runs[run].cursor;
    var end, own := EndOf(env, s, run, log, size), Attempted(env, o, run, log, cursor, size);
    PastMembers(log, cursor);
    RowIsOwned(s, run, e, k);
    AttemptedExactly(env, o, run, log, cursor, size, e);
    CursorNeverBack(env, o, run, log, cursor, size);
    AttemptedInOrder(env, o, run, log, cursor, size);
    NotLater(own, e, own[|own| - 1].id);
    PassIsAttempted(env, o, run, log, cursor, size);
    HandledMarks(env, o, own, e, k);
    PassMovesRows(env, o, own);
    var i, was: Row :| 0 <= i < |end.writes| && MarksRow(env.pipeline, k, e, was, end.writes[i]);
    MarkStands(env.pipeline, s, end.writes, k, e, was, i);
  }

  lemma RowIsOwned(s: State, run: string, e: Event, k: RowKey)
    requires Bijective(s) && k in s.rows && k.run == run && s.rows[k].task == e.task
    ensures Owned(s, run, e)
  {
    hide Bijective;
    FindsOwn(s, k);
  }

  lemma MarkStands(p: Pipeline, s: State, ws: seq<Write>, k: RowKey, e: Event, was: Row, i: nat)
    requires i < |ws| && MarksRow(p, k, e, was, ws[i]) && RowsMoved(ws)
    ensures Completed(p, ApplyAll(s, ws), ws, k, e)
  {
    hide ApplyAll, Passing;
    LastRowStands(s, ws, k, i);
    var j :| i <= j < |ws| && ws[j].Upsert? && ws[j].key == k && ws[j].row == ApplyAll(s, ws).rows[k];
    assert ws[j] in ws;
  }

  /** Main result: if reconciling all active runs raises nothing, every running or
      paused run ends with its cursor at or past each logged event of its rows, and
      with those rows marked. */
  lemma ActiveRunsCatchUp(specs: map<string, Pipeline>, s: State, log: seq<Event>, order: seq<string>, size: nat,
                          run: string, e: Event, k: RowKey)
    requires InOrder(log) && size >= 1 && Bijective(s) && Distinct(order)
    requires forall r :: r in order <==> r in s.runs && s.runs[r].status in {RUNNING, PAUSED_HUMAN}
    requires !ReconcileAll(specs, s, log, order, size).1
    requires run in s.runs && s.runs[run].status in {RUNNING, PAUSED_HUMAN}
    requires e in log && e.id > s.runs[run].cursor && k in s.rows && k.run == run && s.rows[k].task == e.task
    ensures s.runs[run].specId in specs
    ensures
      var end := ReconcileAll(specs, s, log, order, size).0;
      && run in end.runs && end.runs[run].cursor >= e.id
      && Completed(specs[s.runs[run].specId], end, OneRun(specs, s, log, run, size).writes, k, e)
  {
    hide Bijective, Past, PassOver, OneRun, Owned, ReconcileAll, MarksRow, Dispatches;
    EachRunPasses(specs, s, log, order, size, run);
    OneRunByStatus(specs, s, log, run, size);
    SameRunRefl(s, run);
    OneRunLocal(specs, s, s, log, run, size);
    PastMembers(log, s.runs[run].cursor);
    RowIsOwned(s, run, e, k);
    NoPipelineRaises(Pass(s, [], false), run, log, s.runs[run].cursor, size);
    PassCompletes(Env(specs[s.runs[run].specId], None), s, run, log, size, e, k);
  }
}

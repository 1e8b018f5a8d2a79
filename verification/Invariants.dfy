/** The row/card bijection and its preservation by every prefix of every step. */
module Invariants {
  import opened Basics
  import opened Pipelines
  import opened Keys
  import opened RunState
  import opened Advance

  /** Every row sits under a safe key, carries the board's id for that very key,
      and has its card; its run exists. */
  ghost predicate Bijective(s: State) {
    forall k | k in s.rows ::
      SafeKey(k) && s.rows[k].task == TaskOf(k) && KeyText(k) in s.cards && k.run in s.runs
  }

  lemma TaskOfInjective(j: RowKey, k: RowKey)
    requires SafeKey(j) && SafeKey(k) && TaskOf(j) == TaskOf(k)
    ensures j == k
  {
    KeyTextInjective(j, k);
  }

  /** So a task belongs to at most one row. */
  lemma BijectiveTasksUnique(s: State)
    requires Bijective(s)
    ensures TasksUnique(s.rows)
  {
    forall j, k | j in s.rows && k in s.rows && s.rows[j].task == s.rows[k].task
      ensures j == k
    {
      TaskOfInjective(j, k);
    }
  }

  lemma OwnTaskOf(s: State, k: RowKey)
    requires Bijective(s) && k in s.rows
    ensures s.rows[k].task == TaskOf(k)
  {
  }

  lemma HasRun(s: State, k: RowKey)
    requires Bijective(s) && k in s.rows
    ensures k.run in s.runs && SafeKey(k)
  {
  }

  lemma FindsOwn(s: State, k: RowKey)
    requires Bijective(s) && k in s.rows
    ensures FindByTask(s.rows, s.rows[k].task) == Some(k)
  {
    BijectiveTasksUnique(s);
  }

  /** The bijection, and for the write just made: a created card is on the board. */
  ghost predicate BijectiveAfter(s: State, ws: seq<Write>) {
    Bijective(s) && (ws != [] && ws[|ws| - 1].Create? ==> ws[|ws| - 1].text in s.cards)
  }

  lemma {:induction false} OrderlyKeepsBijective(p: Pipeline, run: string, s: State, ws: seq<Write>, j: nat)
    requires Bijective(s) && run in s.runs && Orderly(p, run, ws) && j <= |ws|
    ensures BijectiveAfter(ApplyAll(s, ws[..j]), ws[..j])
    ensures ApplyAll(s, ws[..j]).runs == s.runs
    decreases j
  {
    if j > 0 {
      OrderlyKeepsBijective(p, run, s, ws, j - 1);
      assert ws[..j][..j - 1] == ws[..j - 1];
      assert OrderlyAt(p, run, ws, j - 1);
    }
  }

  /** The state a step leaves after its first `k` writes. */
  ghost function CrashAt(env: Env, s: State, e: Event, k: nat): State {
    var ws := PlanOf(env, s, e).writes;
    if k <= |ws| then ApplyAll(s, ws[..k]) else ApplyAll(s, ws)
  }

  /** After marking and `j` dispatching writes. */
  ghost function Partway(t: Turn, s: State, dispatch: seq<Write>, j: nat): State
    requires t.key in s.rows && j <= |dispatch|
  {
    ApplyAll(ApplyAll(s, [Upsert(t.key, Marked(t, s.rows[t.key]))]), dispatch[..j])
  }

  lemma MarkedState(t: Turn, s: State)
    requires t.key in s.rows
    ensures ApplyAll(s, [Upsert(t.key, Marked(t, s.rows[t.key]))]) == s.(rows := MarkedRows(t, s.rows))
  {
    var w := Upsert(t.key, Marked(t, s.rows[t.key]));
    assert [w][..0] == [];
    assert ApplyAll(s, [w]) == Apply(ApplyAll(s, []), w);
  }

  /** The four kinds of point a step can be cut at. */
  lemma CrashPoints(env: Env, s: State, e: Event, k: nat)
    requires TurnAt(env, s, e).Some?
    ensures
      var t := TurnAt(env, s, e).value;
      var tail := TailOf(t, MarkedRows(t, s.rows));
      var s' := CrashAt(env, s, e, k);
      if k == 0 then s' == s
      else if k <= |tail.dispatch| + 1 then s' == Partway(t, s, tail.dispatch, k - 1)
      else s' == Step(env, s, e)
           && s' == ApplyAll(Partway(t, s, tail.dispatch, |tail.dispatch|), Saves(t.key.run, tail.saved))
  {
    hide TailOf;
    var t := TurnAt(env, s, e).value;
    PlanParts(env, s, e, t);
    var tail := TailOf(t, MarkedRows(t, s.rows));
    var mark, saves := [Upsert(t.key, Marked(t, s.rows[t.key]))], Saves(t.key.run, tail.saved);
    var ws := PlanOf(env, s, e).writes;
    assert ws == mark + (tail.dispatch + saves);
    ApplyConcat(s, mark, tail.dispatch + saves);
    ApplyConcat(ApplyAll(s, mark), tail.dispatch, saves);
    assert tail.dispatch[..|tail.dispatch|] == tail.dispatch;
    assert ws[..|ws|] == ws;
    if k == 0 {
      assert ws[..0] == [];
    } else if k <= |tail.dispatch| + 1 {
      assert ws[..k] == mark + tail.dispatch[..k - 1];
      ApplyConcat(s, mark, tail.dispatch[..k - 1]);
    } else {
      assert k >= |ws|;
    }
  }

  lemma PartwayBijective(t: Turn, s: State, e: Event, env: Env, j: nat)
    requires Bijective(s) && TurnAt(env, s, e) == Some(t)
    requires j <= |TailOf(t, MarkedRows(t, s.rows)).dispatch|
    ensures
      var dispatch := TailOf(t, MarkedRows(t, s.rows)).dispatch;
      && Bijective(Partway(t, s, dispatch, j))
      && Partway(t, s, dispatch, j).runs == s.runs
      && Partway(t, s, dispatch, j) == Imprint(s.(rows := MarkedRows(t, s.rows)), EffectOf(dispatch[..j]))
  {
    hide TailOf;
    MarkedState(t, s);
    var marked := s.(rows := MarkedRows(t, s.rows));
    var dispatch := TailOf(t, MarkedRows(t, s.rows)).dispatch;
    TailOrderly(t, MarkedRows(t, s.rows));
    OrderlyKeepsBijective(env.pipeline, t.key.run, marked, dispatch, j);
    OrderlyPlain(env.pipeline, t.key.run, dispatch);
    assert Plain(dispatch[..j]);
    PlainEffect(marked, dispatch[..j]);
  }

  /** The bijection survives a step cut anywhere. */
  lemma StepKeepsBijective(env: Env, s: State, e: Event, k: nat)
    requires Bijective(s)
    ensures Bijective(CrashAt(env, s, e, k))
  {
    if TurnAt(env, s, e) == None {
      assert PlanOf(env, s, e).writes == [];
    } else {
      TurnKeepsBijective(env, s, e, TurnAt(env, s, e).value, k);
    }
  }

  lemma TurnKeepsBijective(env: Env, s: State, e: Event, t: Turn, k: nat)
    requires Bijective(s) && TurnAt(env, s, e) == Some(t)
    ensures Bijective(CrashAt(env, s, e, k))
  {
    hide TailOf, Bijective, Partway, CrashAt, Step;
    var tail := TailOf(t, MarkedRows(t, s.rows));
    CrashPoints(env, s, e, k);
    if k > |tail.dispatch| + 1 {
      PartwayBijective(t, s, e, env, |tail.dispatch|);
      SavesKeepBijective(Partway(t, s, tail.dispatch, |tail.dispatch|), t.key.run, tail.saved);
    } else if k > 0 {
      PartwayBijective(t, s, e, env, k - 1);
    }
  }

  lemma StepBijective(env: Env, s: State, e: Event)
    requires Bijective(s)
    ensures Bijective(Step(env, s, e))
  {
    hide Bijective, PlanOf;
    StepKeepsBijective(env, s, e, |PlanOf(env, s, e).writes| + 1);
  }

  lemma SavesKeepBijective(s: State, run: string, saved: Option<Run>)
    requires Bijective(s)
    ensures Bijective(ApplyAll(s, Saves(run, saved)))
  {
    assert Saves(run, saved) != [] ==> Saves(run, saved)[..0] == [];
  }

  /** A step's whole effect: mark, dispatch, save. */
  lemma EndsBeforeSave(env: Env, s: State, e: Event, t: Turn)
    requires Bijective(s) && TurnAt(env, s, e) == Some(t)
    ensures
      var tail := TailOf(t, MarkedRows(t, s.rows));
      Step(env, s, e) == ApplyAll(Imprint(s.(rows := MarkedRows(t, s.rows)), EffectOf(tail.dispatch)),
        Saves(t.key.run, tail.saved))
  {
    hide TailOf, Step, Bijective, Imprint, CrashAt;
    var tail := TailOf(t, MarkedRows(t, s.rows));
    var all := |tail.dispatch|;
    PartwayBijective(t, s, e, env, all);
    CrashPoints(env, s, e, all + 2);
    assert tail.dispatch[..all] == tail.dispatch;
  }

  /** A step changes its own run only, to what its tail saves. */
  lemma StepRuns(env: Env, s: State, e: Event, t: Turn)
    requires Bijective(s) && TurnAt(env, s, e) == Some(t)
    ensures
      var saved := TailOf(t, MarkedRows(t, s.rows)).saved;
      Step(env, s, e).runs == match saved case None => s.runs case Some(run) => s.runs[t.key.run := run]
  {
    hide TailOf, Step, Bijective;
    EndsBeforeSave(env, s, e, t);
    assert t.key.run in s.runs;
    assert forall run :: [Save(t.key.run, run)][..0] == [];
  }
}

/** Reconciling again on the same log writes nothing, for any set of runs. */
module ReconcileTwice {
  import opened Basics
  import opened Pipelines
  import opened RunState
  import opened Advance
  import opened Invariants
  import opened CrashReplay
  import opened EventLog
  import opened Reconciling
  import opened ReconcileOrder
  import opened Replays

  /** No event past the run's cursor becomes the run's own during its pass. */
  ghost predicate OwnersKnown(specs: map<string, Pipeline>, s: State, log: seq<Event>, run: string) {
    run in s.runs && s.runs[run].specId in specs && !IsTerminal(s.runs[run].status) ==>
      NoLateOwner(Env(specs[s.runs[run].specId], None), Pass(s, [], false), run, Past(log, s.runs[run].cursor))
  }

  ghost predicate Silent(specs: map<string, Pipeline>, s: State, log: seq<Event>, run: string, size: nat)
    requires InOrder(log)
  {
    OneRun(specs, s, log, run, size) == Pass(s, [], false)
  }

  /** Without a pipeline nothing is ever written. */
  lemma {:induction false} NoPipelineNoWrites(o: Pass, run: string, log: seq<Event>, cursor: int, size: nat)
    requires InOrder(log) && !o.raised && !PassOver(None, o, run, log, cursor, size).raised
    ensures PassOver(None, o, run, log, cursor, size) == o
    decreases |Past(log, cursor)|
  {
    hide Past, OwnedOf, HandleAll;
    var events := Batch(log, cursor, size);
    if events != [] && OwnedOf(o.state, run, events) == [] && |events| >= size {
      BatchAdvances(log, cursor, size, events[|events| - 1].id);
      NoPipelineNoWrites(o, run, log, events[|events| - 1].id, size);
    }
  }

  /** One run's pass, then the same pass again. */
  lemma OneRunTwice(specs: map<string, Pipeline>, s: State, log: seq<Event>, run: string, size: nat)
    requires InOrder(log) && size >= 1 && Bijective(s) && OwnersKnown(specs, s, log, run)
    requires !OneRun(specs, s, log, run, size).raised
    ensures Silent(specs, OneRun(specs, s, log, run, size).state, log, run, size)
  {
    hide PassOver, Bijective, NoLateOwner;
    if run in s.runs && !IsTerminal(s.runs[run].status) {
      var env := EnvFor(specs, s.runs[run].specId);
      if env == None {
        NoPipelineNoWrites(Pass(s, [], false), run, log, s.runs[run].cursor, size);
      } else {
        SecondPassSilent(env.value, s, run, log, size);
        PassKeepsSpec(env.value, s, run, log, size);
      }
    }
  }

  lemma PassKeepsSpec(env: Env, s: State, run: string, log: seq<Event>, size: nat)
    requires InOrder(log) && size >= 1 && Bijective(s) && run in s.runs
    requires NoLateOwner(env, Pass(s, [], false), run, Past(log, s.runs[run].cursor))
    ensures
      var end := PassOver(Some(env), Pass(s, [], false), run, log, s.runs[run].cursor, size).state;
      run in end.runs && end.runs[run].specId == s.runs[run].specId
  {
    hide PassOver, Bijective, NoLateOwner, HandleAll, OwnedOf, Past;
    var o := Pass(s, [], false);
    var past := Past(log, s.runs[run].cursor);
    BatchedIsFold(env, o, run, log, s.runs[run].cursor, size);
    HandleKeepsSpec(env, o, run, OwnedOf(s, run, past));
  }

  lemma {:induction false} HandleKeepsSpec(env: Env, o: Pass, run: string, events: seq<Event>)
    requires run in o.state.runs
    ensures
      var end := HandleAll(env, o, events).state;
      run in end.runs && end.runs[run].specId == o.state.runs[run].specId
    decreases |events|
  {
    hide PlanOf;
    if events != [] {
      var n := |events| - 1;
      HandleKeepsSpec(env, o, run, events[..n]);
      StepKeepsSpec(env, HandleAll(env, o, events[..n]).state, events[n], run);
    }
  }

  lemma StepKeepsSpec(env: Env, s: State, e: Event, run: string)
    requires run in s.runs
    ensures run in Step(env, s, e).runs && Step(env, s, e).runs[run].specId == s.runs[run].specId
  {
    hide TailOf;
    var turn := TurnAt(env, s, e);
    if turn.Some? {
      var t := turn.value;
      var tail := TailOf(t, MarkedRows(t, s.rows));
      PlanParts(env, s, e, t);
      TailSaves(t, MarkedRows(t, s.rows));
      TailOrderly(t, MarkedRows(t, s.rows));
      OrderlyPlain(env.pipeline, t.key.run, tail.dispatch);
      var front := [Upsert(t.key, Marked(t, s.rows[t.key]))] + tail.dispatch;
      SavedSpec(s, front, t.key.run, tail.saved, run);
      assert PlanOf(env, s, e).writes == front + Saves(t.key.run, tail.saved);
    }
  }

  lemma SavedSpec(s: State, front: seq<Write>, id: string, saved: Option<Run>, run: string)
    requires run in s.runs && Plain(front)
    requires saved.Some? && id in s.runs ==> saved.value.specId == s.runs[id].specId
    ensures
      var end := ApplyAll(s, front + Saves(id, saved));
      run in end.runs && end.runs[run].specId == s.runs[run].specId
  {
    PlainEffect(s, front);
    ImprintRuns(s, EffectOf(front));
    match saved
    case None => assert front + Saves(id, saved) == front;
    case Some(after) =>
      hide EffectOf;
      assert (front + [Save(id, after)])[..|front|] == front;
  }

  // ---- All runs ----------------------------------------------------------------

  /** Whether the proviso holds for a run depends on that run alone. */
  lemma OwnersLocal(specs: map<string, Pipeline>, s: State, z: State, log: seq<Event>, run: string)
    requires InOrder(log) && Bijective(s) && Bijective(z) && SameRun(s, z, run) && OwnersKnown(specs, s, log, run)
    ensures OwnersKnown(specs, z, log, run)
  {
    hide Bijective, SameRows, Owned, HandleAll, OwnedOf, Past, AllLocal;
    if run in z.runs && z.runs[run].specId in specs && !IsTerminal(z.runs[run].status) {
      var env := Env(specs[z.runs[run].specId], None);
      var past := Past(log, z.runs[run].cursor);
      var o, q := Pass(s, [], false), Pass(z, [], false);
      NothingWritten(s, run);
      NothingWritten(z, run);
      PassOwnedLocal(s, o, z, q, run, past);
      HandleLocal(env, s, o, z, q, run, OwnedOf(s, run, past));
      var a, b := HandleAll(env, o, OwnedOf(s, run, past)).state, HandleAll(env, q, OwnedOf(s, run, past)).state;
      forall e | e in past && Owned(b, run, e)
        ensures Owned(z, run, e)
      {
        OwnedLocal(a, b, run, e);
        OwnedLocal(s, z, run, e);
      }
    }
  }

  lemma NothingWritten(s: State, run: string)
    requires Bijective(s)
    ensures Accounted(s, run, Pass(s, [], false))
  {
  }

  /** A run's silence depends on that run alone. */
  lemma SilentLocal(specs: map<string, Pipeline>, s: State, z: State, log: seq<Event>, run: string, size: nat)
    requires InOrder(log) && Bijective(s) && Bijective(z) && SameRun(s, z, run) && Silent(specs, s, log, run, size)
    ensures Silent(specs, z, log, run, size)
  {
    hide OneRun, Bijective, SameRun, AllLocal;
    OneRunLocal(specs, s, z, log, run, size);
  }

  /** After all the passes every one of the runs is silent. */
  lemma {:induction false} AllSilent(specs: map<string, Pipeline>, s: State, log: seq<Event>, order: seq<string>,
    size: nat)
    requires InOrder(log) && size >= 1 && Bijective(s) && Distinct(order) && NoneRaises(specs, s, log, order, size)
    requires forall r | r in order :: OwnersKnown(specs, s, log, r)
    ensures !ReconcileAll(specs, s, log, order, size).1 && Bijective(ReconcileAll(specs, s, log, order, size).0)
    ensures forall r | r in order :: Silent(specs, ReconcileAll(specs, s, log, order, size).0, log, r, size)
    decreases |order|
  {
    hide OneRun, Bijective, SameRun, OwnersKnown, Silent;
    if order != [] {
      var a, rest := order[0], order[1..];
      assert a in order && order == [a] + rest;
      var one := OneRun(specs, s, log, a, size).state;
      DistinctTail(order);
      RaisesOf(specs, s, log, order, size);
      NoneRaisesAfter(specs, s, log, a, rest, size);
      OneRunTwice(specs, s, log, a, size);
      forall r | r in rest
        ensures OwnersKnown(specs, one, log, r)
      {
        assert r in order && r != a;
        PassesCommute(specs, s, log, a, r, size);
        OwnersLocal(specs, s, one, log, r);
      }
      AllSilent(specs, one, log, rest, size);
      OthersUntouched(specs, one, log, rest, size, a);
      SilentLocal(specs, one, ReconcileAll(specs, one, log, rest, size).0, log, a, size);
    }
  }

  lemma {:induction false} SilentOrder(specs: map<string, Pipeline>, s: State, log: seq<Event>, order: seq<string>,
    size: nat)
    requires InOrder(log) && forall r | r in order :: Silent(specs, s, log, r, size)
    ensures ReconcileAll(specs, s, log, order, size) == (s, false)
    decreases |order|
  {
    hide OneRun;
    if order != [] {
      assert order[0] in order;
      SilentOrder(specs, s, log, order[1..], size);
    }
  }

  /** Main result: reconciling a second time on the same log, over any of the
      same runs in any order, changes nothing. */
  lemma ReconcileIsIdempotent(specs: map<string, Pipeline>, s: State, log: seq<Event>, order: seq<string>,
    again: seq<string>, size: nat)
    requires InOrder(log) && size >= 1 && Bijective(s) && Distinct(order) && NoneRaises(specs, s, log, order, size)
    requires forall r | r in order :: OwnersKnown(specs, s, log, r)
    requires forall r | r in again :: r in order
    ensures
      var end := ReconcileAll(specs, s, log, order, size).0;
      ReconcileAll(specs, end, log, again, size) == (end, false)
  {
    hide Bijective, ReconcileAll, OwnersKnown, Silent;
    AllSilent(specs, s, log, order, size);
    SilentOrder(specs, ReconcileAll(specs, s, log, order, size).0, log, again, size);
  }

  // ---- Exactly when ------------------------------------------------------------

  /** The run is gone or terminal, or owns no event past its cursor. */
  ghost predicate Idle(s: State, log: seq<Event>, run: string) {
    run !in s.runs || IsTerminal(s.runs[run].status)
    || forall e | e in Past(log, s.runs[run].cursor) :: !Owned(s, run, e)
  }

  /** Without a pipeline the pass raises iff the run owns an event. */
  lemma {:induction false} NoPipelineRaises(o: Pass, run: string, log: seq<Event>, cursor: int, size: nat)
    requires InOrder(log) && size >= 1 && !o.raised
    ensures PassOver(None, o, run, log, cursor, size).raised <==>
      exists e :: e in Past(log, cursor) && Owned(o.state, run, e)
    decreases |Past(log, cursor)|
  {
    hide Past, OwnedOf, HandleAll, Owned;
    var events := Batch(log, cursor, size);
    assert forall e | e in events :: e in Past(log, cursor);
    if events != [] {
      if OwnedOf(o.state, run, events) != [] {
        assert OwnedOf(o.state, run, events)[0] in OwnedOf(o.state, run, events);
      } else {
        forall e | e in events
          ensures !Owned(o.state, run, e)
        {
          if Owned(o.state, run, e) {
            OwnedMember(o.state, run, events, e);
          }
        }
        if |events| >= size {
          var n := |events|;
          assert events == Past(log, cursor)[..n];
          PastContinues(log, cursor, n);
          assert Past(log, cursor) == events + Past(log, cursor)[n..];
          BatchAdvances(log, cursor, size, events[n - 1].id);
          NoPipelineRaises(o, run, log, events[n - 1].id, size);
        }
      }
    }
  }

  /** One run's pass is silent iff the run is idle. */
  lemma SilentExactly(specs: map<string, Pipeline>, s: State, log: seq<Event>, run: string, size: nat)
    requires InOrder(log) && size >= 1 && Bijective(s)
    ensures Silent(specs, s, log, run, size) <==> Idle(s, log, run)
  {
    hide PassOver, Bijective, Past, Owned;
    if run in s.runs && !IsTerminal(s.runs[run].status) {
      var o := Pass(s, [], false);
      match EnvFor(specs, s.runs[run].specId)
      case Some(env) => PassSilentExactly(env, s, run, log, size);
      case None =>
        NoPipelineRaises(o, run, log, s.runs[run].cursor, size);
        if !PassOver(None, o, run, log, s.runs[run].cursor, size).raised {
          NoPipelineNoWrites(o, run, log, s.runs[run].cursor, size);
        }
    }
  }

  /** A pass that raises nothing and leaves the cursor where it was is silent. */
  lemma SameCursorSilent(specs: map<string, Pipeline>, s: State, log: seq<Event>, run: string, size: nat)
    requires InOrder(log) && size >= 1 && Bijective(s) && run in s.runs
    requires !OneRun(specs, s, log, run, size).raised && run in OneRun(specs, s, log, run, size).state.runs
    requires OneRun(specs, s, log, run, size).state.runs[run].cursor == s.runs[run].cursor
    ensures Silent(specs, s, log, run, size)
  {
    hide PassOver, Bijective, Past, Owned, HandleAll, PlanOf, Handle, Attempted;
    if !IsTerminal(s.runs[run].status) {
      var o, cursor := Pass(s, [], false), s.runs[run].cursor;
      match EnvFor(specs, s.runs[run].specId)
      case Some(env) =>
        CursorNeverBack(env, o, run, log, cursor, size);
      case None => NoPipelineNoWrites(o, run, log, cursor, size);
    }
  }

  /** Reconciling changes nothing and raises nothing iff every run is idle. */
  lemma {:induction false} ReconcileSilentExactly(specs: map<string, Pipeline>, s: State, log: seq<Event>,
    order: seq<string>, size: nat)
    requires InOrder(log) && size >= 1 && Bijective(s) && Distinct(order)
    ensures ReconcileAll(specs, s, log, order, size) == (s, false) <==> forall r | r in order :: Idle(s, log, r)
    decreases |order|
  {
    hide OneRun, Bijective, SameRun, Idle, Silent;
    if order != [] {
      var a, rest := order[0], order[1..];
      assert order == [a] + rest;
      var one := OneRun(specs, s, log, a, size);
      DistinctTail(order);
      SilentExactly(specs, s, log, a, size);
      if ReconcileAll(specs, s, log, order, size) == (s, false) {
        FirstSilent(specs, s, log, order, size);
      }
      if Idle(s, log, a) {
        SilentStays(specs, s, log, a, size);
        ReconcileSilentExactly(specs, s, log, rest, size);
      }
    }
  }

  lemma SilentStays(specs: map<string, Pipeline>, s: State, log: seq<Event>, run: string, size: nat)
    requires InOrder(log) && Silent(specs, s, log, run, size)
    ensures OneRun(specs, s, log, run, size) == Pass(s, [], false)
  {
  }

  lemma FirstSilent(specs: map<string, Pipeline>, s: State, log: seq<Event>, order: seq<string>, size: nat)
    requires InOrder(log) && size >= 1 && Bijective(s) && Distinct(order) && order != []
    requires ReconcileAll(specs, s, log, order, size) == (s, false)
    ensures Silent(specs, s, log, order[0], size)
  {
    hide PassOver, Bijective, AllLocal, SameRows;
    var a, rest := order[0], order[1..];
    var one := OneRun(specs, s, log, a, size);
    DistinctTail(order);
    SameRunRefl(s, a);
    OneRunLocal(specs, s, s, log, a, size);
    OthersUntouched(specs, one.state, log, rest, size, a);
    if a in s.runs {
      SameCursorSilent(specs, s, log, a, size);
    }
  }

  lemma {:induction false} ReconcileBijective(specs: map<string, Pipeline>, s: State, log: seq<Event>,
    order: seq<string>, size: nat)
    requires InOrder(log) && Bijective(s)
    ensures Bijective(ReconcileAll(specs, s, log, order, size).0)
    decreases |order|
  {
    hide OneRun, Bijective, SameRun, AllLocal;
    if order != [] {
      SameRunRefl(s, order[0]);
      OneRunLocal(specs, s, s, log, order[0], size);
      ReconcileBijective(specs, OneRun(specs, s, log, order[0], size).state, log, order[1..], size);
    }
  }

  /** Main result, without a proviso: whatever the first reconciliation did, the
      next one on the same log changes nothing iff each of its runs is idle by
      then, that is, gone, terminal, or without own events past its cursor. */
  lemma ReconcileAgainExactly(specs: map<string, Pipeline>, s: State, log: seq<Event>, order: seq<string>,
    again: seq<string>, size: nat)
    requires InOrder(log) && size >= 1 && Bijective(s) && Distinct(again)
    ensures
      var end := ReconcileAll(specs, s, log, order, size).0;
      ReconcileAll(specs, end, log, again, size) == (end, false) <==> forall r | r in again :: Idle(end, log, r)
  {
    hide Bijective, ReconcileAll, Idle;
    ReconcileBijective(specs, s, log, order, size);
    ReconcileSilentExactly(specs, ReconcileAll(specs, s, log, order, size).0, log, again, size);
  }
}

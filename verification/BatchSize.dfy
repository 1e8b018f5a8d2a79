/** Exactly when the batch size is only a throughput knob. */
module BatchSize {
  import opened Basics
  import opened RunState
  import opened Advance
  import opened Invariants
  import opened EventLog
  import opened Reconciling

  /** If the run owns event `i` when the fold comes to it, it owned it from the
      start. */
  ghost predicate TimelyAt(env: Env, o: Pass, run: string, events: seq<Event>, i: nat)
    requires i < |events|
  {
    var before := FoldOwn(env, o, run, events[..i]);
    !before.raised && Owned(before.state, run, events[i]) ==> Owned(o.state, run, events[i])
  }

  ghost predicate Timely(env: Env, o: Pass, run: string, events: seq<Event>) {
    forall i | 0 <= i < |events| :: TimelyAt(env, o, run, events, i)
  }

  // ---- The fold ----------------------------------------------------------------

  lemma {:induction false} FoldConcat(env: Env, o: Pass, run: string, a: seq<Event>, b: seq<Event>)
    ensures FoldOwn(env, o, run, a + b) == FoldOwn(env, FoldOwn(env, o, run, a), run, b)
    decreases |b|
  {
    hide Handle, Owned;
    if b == [] {
      assert a + b == a;
    } else {
      assert (a + b)[..|a + b| - 1] == a + b[..|b| - 1];
      FoldConcat(env, o, run, a, b[..|b| - 1]);
    }
  }

  lemma {:induction false} FoldKeeps(env: Env, o: Pass, run: string, events: seq<Event>)
    requires Bijective(o.state)
    ensures
      var after := FoldOwn(env, o, run, events);
      && Bijective(after.state) && o.state.rows.Keys <= after.state.rows.Keys
      && after.state.runs.Keys == o.state.runs.Keys
      && (forall e | Owned(o.state, run, e) :: Owned(after.state, run, e))
      && (o.raised ==> after == o)
    decreases |events|
  {
    hide Bijective, PlanOf, Owned;
    if events != [] {
      var n := |events| - 1;
      FoldKeeps(env, o, run, events[..n]);
      StepKeeps(env, FoldOwn(env, o, run, events[..n]).state, events[n]);
      var after := FoldOwn(env, o, run, events);
      forall e | Owned(o.state, run, e)
        ensures Owned(after.state, run, e)
      {
        OwnedStays(o.state, after.state, run, e);
      }
    }
  }

  lemma {:induction false} FoldWrites(env: Env, o: Pass, run: string, events: seq<Event>)
    ensures o.writes <= FoldOwn(env, o, run, events).writes
    decreases |events|
  {
    hide PlanOf, Owned;
    if events != [] {
      FoldWrites(env, o, run, events[..|events| - 1]);
    }
  }

  lemma {:induction false} HandleWrites(env: Env, o: Pass, events: seq<Event>)
    ensures o.writes <= HandleAll(env, o, events).writes
    decreases |events|
  {
    hide PlanOf;
    if events != [] {
      HandleWrites(env, o, events[..|events| - 1]);
    }
  }

  // ---- Timely events -------------------------------------------------------------

  lemma TimelyPrefix(env: Env, o: Pass, run: string, events: seq<Event>, n: nat)
    requires n <= |events| && Timely(env, o, run, events)
    ensures Timely(env, o, run, events[..n])
  {
    hide FoldOwn, Owned;
    forall i | 0 <= i < n
      ensures TimelyAt(env, o, run, events[..n], i)
    {
      assert events[..n][..i] == events[..i];
      assert TimelyAt(env, o, run, events, i);
    }
  }

  lemma TimelyRest(env: Env, o: Pass, run: string, events: seq<Event>, n: nat)
    requires n <= |events| && Bijective(o.state) && Timely(env, o, run, events)
    ensures Timely(env, FoldOwn(env, o, run, events[..n]), run, events[n..])
  {
    hide FoldOwn, Owned, Bijective;
    var after := FoldOwn(env, o, run, events[..n]);
    FoldKeeps(env, o, run, events[..n]);
    forall i | 0 <= i < |events| - n
      ensures TimelyAt(env, after, run, events[n..], i)
    {
      assert events[..n + i] == events[..n] + events[n..][..i];
      FoldConcat(env, o, run, events[..n], events[n..][..i]);
      assert TimelyAt(env, o, run, events, n + i);
    }
  }

  /** Timely events may be filtered beforehand. */
  lemma {:induction false} TimelyFold(env: Env, o: Pass, run: string, events: seq<Event>)
    requires Bijective(o.state) && Timely(env, o, run, events)
    ensures FoldOwn(env, o, run, events) == HandleAll(env, o, OwnedOf(o.state, run, events))
    decreases |events|
  {
    hide Bijective, Owned, PlanOf;
    if events != [] {
      var n := |events| - 1;
      var own := OwnedOf(o.state, run, events[..n]);
      var last := if Owned(o.state, run, events[n]) then [events[n]] else [];
      TimelyPrefix(env, o, run, events, n);
      TimelyFold(env, o, run, events[..n]);
      HandleConcat(env, o, own, last);
      HandleKeeps(env, o, own);
      assert TimelyAt(env, o, run, events, n);
      assert [events[n]][..0] == [];
    }
  }

  /** With timely events, every batch size gives the fold. */
  lemma {:induction false} TimelyBatches(env: Env, o: Pass, run: string, log: seq<Event>, cursor: int, size: nat)
    requires InOrder(log) && size >= 1 && Bijective(o.state) && run in o.state.runs && !o.raised
    requires Timely(env, o, run, Past(log, cursor))
    ensures PassOver(Some(env), o, run, log, cursor, size) == FoldOwn(env, o, run, Past(log, cursor))
    decreases |Past(log, cursor)|
  {
    hide Bijective, Owned, Past, HandleAll, OwnedOf, Timely, FoldOwn;
    var all, events := Past(log, cursor), Batch(log, cursor, size);
    EmptyFold(env, o, run);
    if events != [] {
      var n := |events|;
      assert events == all[..n];
      TimelyPrefix(env, o, run, all, n);
      TimelyFold(env, o, run, events);
      var after := FoldOwn(env, o, run, events);
      assert all == all[..n] + all[n..];
      FoldConcat(env, o, run, all[..n], all[n..]);
      FoldKeeps(env, o, run, events);
      FoldKeeps(env, after, run, all[n..]);
      EmptyFold(env, after, run);
      if !after.raised && n >= size {
        NextCursor(env, o, run, log, cursor, n);
        PastContinues(log, cursor, n);
        BatchAdvances(log, cursor, size, events[n - 1].id);
        TimelyRest(env, o, run, all, n);
        TimelyBatches(env, after, run, log, events[n - 1].id, size);
      }
    }
  }

  lemma EmptyFold(env: Env, o: Pass, run: string)
    ensures FoldOwn(env, o, run, []) == o && HandleAll(env, o, []) == o && OwnedOf(o.state, run, []) == []
  {
  }

  // ---- An untimely event ---------------------------------------------------------

  lemma {:induction false} FirstUntimely(env: Env, o: Pass, run: string, events: seq<Event>) returns (i: nat)
    requires !Timely(env, o, run, events)
    ensures i < |events| && !TimelyAt(env, o, run, events, i) && Timely(env, o, run, events[..i])
    decreases |events|
  {
    hide FoldOwn, Owned;
    var n := |events| - 1;
    if Timely(env, o, run, events[..n]) {
      i := n;
      if TimelyAt(env, o, run, events, n) {
        forall j | 0 <= j < |events|
          ensures TimelyAt(env, o, run, events, j)
        {
          if j < n {
            assert events[..n][..j] == events[..j];
            assert TimelyAt(env, o, run, events[..n], j);
          }
        }
      }
    } else {
      i := FirstUntimely(env, o, run, events[..n]);
      assert events[..n][..i] == events[..i];
    }
  }

  /** A step's first write marks its own row. */
  lemma FirstWrite(env: Env, s: State, run: string, e: Event)
    requires Bijective(s) && run in s.runs && Owned(s, run, e)
    ensures
      var ws, k := PlanOf(env, s, e).writes, FindByTask(s.rows, e.task).value;
      ws != [] && ws[0].Upsert? && ws[0].key == k && e.task == TaskOf(k)
  {
    hide TailOf;
    PlanParts(env, s, e, TurnAt(env, s, e).value);
  }

  lemma SameTaskOwned(s: State, run: string, d: Event, e: Event)
    requires d.task == e.task && Owned(s, run, d)
    ensures Owned(s, run, e)
  {
  }

  /** Handling one event appends its plan. */
  lemma HandleOne(env: Env, o: Pass, e: Event)
    requires !o.raised
    ensures Handle(env, o, e).writes == o.writes + PlanOf(env, o.state, e).writes
  {
  }

  /** What the fold does with the first untimely event at `i`. */
  lemma FoldTakes(env: Env, o: Pass, run: string, events: seq<Event>, i: nat)
    requires Bijective(o.state) && run in o.state.runs && i < |events| && !TimelyAt(env, o, run, events, i)
    ensures
      var a, writes := FoldOwn(env, o, run, events[..i]), FoldOwn(env, o, run, events).writes;
      |writes| > |a.writes| && writes[|a.writes|].Upsert? && TaskOf(writes[|a.writes|].key) == events[i].task
  {
    hide Bijective, Owned, PlanOf, FoldOwn, Handle;
    var a := FoldOwn(env, o, run, events[..i]);
    FoldKeeps(env, o, run, events[..i]);
    FirstWrite(env, a.state, run, events[i]);
    HandleOne(env, a, events[i]);
    var b := Handle(env, a, events[i]);
    FoldSnoc(env, o, run, events, i);
    assert events == events[..i + 1] + events[i + 1..];
    FoldConcat(env, o, run, events[..i + 1], events[i + 1..]);
    FoldWrites(env, b, run, events[i + 1..]);
  }

  lemma FoldSnoc(env: Env, o: Pass, run: string, events: seq<Event>, i: nat)
    requires i < |events| && Owned(FoldOwn(env, o, run, events[..i]).state, run, events[i])
    ensures FoldOwn(env, o, run, events[..i + 1]) == Handle(env, FoldOwn(env, o, run, events[..i]), events[i])
  {
    hide Owned, Handle;
    assert events[..i + 1][..i] == events[..i];
  }

  /** What filtering beforehand does instead: nothing more, or another event. */
  lemma FilterSkips(env: Env, o: Pass, run: string, events: seq<Event>, i: nat)
    requires Bijective(o.state) && run in o.state.runs && i < |events|
    requires Timely(env, o, run, events[..i]) && !TimelyAt(env, o, run, events, i)
    ensures
      var a, writes := FoldOwn(env, o, run, events[..i]), HandleAll(env, o, OwnedOf(o.state, run, events)).writes;
      |writes| > |a.writes| ==> writes[|a.writes|].Upsert? && TaskOf(writes[|a.writes|].key) != events[i].task
  {
    hide Bijective, Owned, PlanOf, FoldOwn, Handle, Timely, OwnedOf;
    var a := FoldOwn(env, o, run, events[..i]);
    TimelyFold(env, o, run, events[..i]);
    FoldKeeps(env, o, run, events[..i]);
    var rest := OwnedOf(o.state, run, events[i..]);
    assert events == events[..i] + events[i..];
    OwnedConcat(o.state, run, events[..i], events[i..]);
    HandleConcat(env, o, OwnedOf(o.state, run, events[..i]), rest);
    if rest == [] {
      EmptyFold(env, a, run);
    } else {
      var next := rest[0];
      assert next in rest;
      FirstWrite(env, a.state, run, next);
      HandleOne(env, a, next);
      assert rest == [next] + rest[1..];
      HandleConcat(env, a, [next], rest[1..]);
      HandleSingle(env, a, next);
      HandleWrites(env, Handle(env, a, next), rest[1..]);
      if next.task == events[i].task {
        SameTaskOwned(o.state, run, next, events[i]);
      }
    }
  }

  lemma HandleSingle(env: Env, o: Pass, e: Event)
    ensures HandleAll(env, o, [e]) == Handle(env, o, e)
  {
    hide Handle;
    assert [e][..0] == [];
    EmptyFold(env, o, "");
  }

  /** One batch that holds everything filters everything beforehand. */
  lemma OneBigBatch(env: Env, o: Pass, run: string, log: seq<Event>, cursor: int)
    requires InOrder(log)
    ensures PassOver(Some(env), o, run, log, cursor, |Past(log, cursor)| + 1) ==
      HandleAll(env, o, OwnedOf(o.state, run, Past(log, cursor)))
  {
    hide Past, HandleAll, OwnedOf;
    EmptyFold(env, o, run);
  }

  /** Main result: every positive batch size gives the plain fold over the run's
      own events past the cursor iff no event becomes the run's own between the
      start of the pass and its own turn. */
  lemma BatchSizeIrrelevantExactly(env: Env, o: Pass, run: string, log: seq<Event>, cursor: int)
    requires InOrder(log) && Bijective(o.state) && run in o.state.runs && !o.raised
    ensures (forall size: nat | size >= 1 ::
      PassOver(Some(env), o, run, log, cursor, size) == FoldOwn(env, o, run, Past(log, cursor)))
        <==> Timely(env, o, run, Past(log, cursor))
  {
    hide PassOver, FoldOwn, Past, Bijective, TimelyAt;
    var past := Past(log, cursor);
    if Timely(env, o, run, past) {
      forall size: nat | size >= 1
        ensures PassOver(Some(env), o, run, log, cursor, size) == FoldOwn(env, o, run, past)
      {
        TimelyBatches(env, o, run, log, cursor, size);
      }
    } else {
      var i := FirstUntimely(env, o, run, past);
      FoldTakes(env, o, run, past, i);
      FilterSkips(env, o, run, past, i);
      OneBigBatch(env, o, run, log, cursor);
      assert PassOver(Some(env), o, run, log, cursor, |past| + 1) != FoldOwn(env, o, run, past);
    }
  }
}

/** The replay loop: batches of a global log, filtered to one run's events. */
module Reconciling {
  import opened Basics
  import opened Pipelines
  import opened Keys
  import opened RunState
  import opened Advance
  import opened Invariants
  import opened EventLog
  import opened Engines

  /** A pass so far: the state, what was written, and whether a step raised. */
  datatype Pass = Pass(state: State, writes: seq<Write>, raised: bool)

  ghost function Handle(env: Env, o: Pass, e: Event): Pass {
    if o.raised then o else
      var plan := PlanOf(env, o.state, e);
      Pass(ApplyAll(o.state, plan.writes), o.writes + plan.writes, plan.exit == Errored)
  }

  ghost function HandleAll(env: Env, o: Pass, events: seq<Event>): Pass
    decreases |events|
  {
    if events == [] then o else Handle(env, HandleAll(env, o, events[..|events| - 1]), events[|events| - 1])
  }

  ghost predicate Owned(s: State, run: string, e: Event) {
    var k := FindByTask(s.rows, e.task);
    k.Some? && k.value.run == run
  }

  ghost function OwnedOf(s: State, run: string, events: seq<Event>): (r: seq<Event>)
    ensures forall e | e in r :: e in events && Owned(s, run, e)
    decreases |events|
  {
    if events == [] then [] else
      var last := events[|events| - 1];
      OwnedOf(s, run, events[..|events| - 1]) + if Owned(s, run, last) then [last] else []
  }

  function Max(a: int, b: int): int {
    if a > b then a else b
  }

  lemma {:induction false} PastShrinks(log: seq<Event>, low: int, high: int)
    requires low <= high
    ensures |Past(log, high)| <= |Past(log, low)|
    decreases |log|
  {
    if log != [] {
      PastShrinks(log[1..], low, high);
    }
  }

  lemma BatchAdvances(log: seq<Event>, cursor: int, size: nat, next: int)
    requires InOrder(log) && Batch(log, cursor, size) != []
    requires next >= Batch(log, cursor, size)[|Batch(log, cursor, size)| - 1].id
    ensures |Past(log, next)| < |Past(log, cursor)|
  {
    var n := |Batch(log, cursor, size)|;
    PastContinues(log, cursor, n);
    PastShrinks(log, Past(log, cursor)[n - 1].id, next);
  }

  /** `_reconcile_run` from a local cursor on. */
  ghost function PassOver(env: Option<Env>, o: Pass, run: string, log: seq<Event>, cursor: int, size: nat): Pass
    requires InOrder(log)
    decreases |Past(log, cursor)|
  {
    var events := Batch(log, cursor, size);
    if events == [] then o else
      var own := OwnedOf(o.state, run, events);
      if own != [] && env == None then o.(raised := true) else
        var after := if own == [] then o else HandleAll(env.value, o, own);
        var last := events[|events| - 1].id;
        if after.raised || |events| < size then after
        else if own != [] && run !in after.state.runs then after
        else
          var next := if own == [] then last else Max(last, after.state.runs[run].cursor);
          BatchAdvances(log, cursor, size, next);
          PassOver(env, after, run, log, next, size)
  }

  // ---- The loop refines PassOver ---------------------------------------------

  method FilterOwned(engine: Engine, run: string, events: seq<Event>) returns (own: seq<Event>)
    requires TasksUnique(engine.store.rows)
    ensures own == OwnedOf(engine.Now(), run, events)
  {
    own := [];
    for i := 0 to |events|
      invariant own == OwnedOf(engine.Now(), run, events[..i])
    {
      assert events[..i + 1][..i] == events[..i];
      var key := engine.store.GetNodeByTask(events[i].task);
      if key.Some? && key.value.run == run {
        own := own + [events[i]];
      }
    }
    assert events[..|events|] == events;
  }

  /** Advance each owned event of a batch in turn. */
  method HandleBatch(engine: Engine, env: Env, own: seq<Event>, ghost o: Pass) returns (raised: bool, ghost after: Pass)
    requires engine.Valid() && Bijective(engine.Now()) && o.state == engine.Now() && !o.raised
    modifies engine, engine.store, engine.board
    ensures after == HandleAll(env, o, own) && raised == after.raised
    ensures engine.Valid() && after.state == engine.Now() && Bijective(engine.Now())
  {
    hide PlanOf, Bijective, Engine.Valid;
    raised, after := false, o;
    for i := 0 to |own|
      invariant engine.Valid() && Bijective(engine.Now()) && after.state == engine.Now()
      invariant after == HandleAll(env, o, own[..i]) && !raised && !after.raised
    {
      assert own[..i + 1][..i] == own[..i];
      BijectiveTasksUnique(engine.Now());
      StepBijective(env, engine.Now(), own[i]);
      var exit := AdvanceOne(engine, env, own[i]);
      after := Handle(env, after, own[i]);
      if exit == Errored {
        HandleStuck(env, o, own, i + 1);
        return true, after;
      }
    }
    assert own[..|own|] == own;
  }

  method AdvanceOne(engine: Engine, env: Env, e: Event) returns (exit: Exit)
    requires engine.Valid() && TasksUnique(engine.store.rows)
    modifies engine, engine.store, engine.board
    ensures engine.Valid() && exit == PlanOf(env, old(engine.Now()), e).exit
    ensures engine.Now() == ApplyAll(old(engine.Now()), PlanOf(env, old(engine.Now()), e).writes)
  {
    hide PlanOf;
    exit := engine.AdvanceOnCompletion(env, e);
    engine.JournalApplied(PlanOf(env, old(engine.Now()), e).writes);
  }

  lemma {:induction false} HandleStuck(env: Env, o: Pass, events: seq<Event>, i: nat)
    requires i <= |events| && HandleAll(env, o, events[..i]).raised
    ensures HandleAll(env, o, events) == HandleAll(env, o, events[..i])
    decreases |events|
  {
    if i == |events| {
      assert events[..i] == events;
    } else {
      assert events[..|events| - 1][..i] == events[..i];
      HandleStuck(env, o, events[..|events| - 1], i);
    }
  }

  /** `_reconcile_run`: the pipeline is loaded at the first owned event; a
      missing one raises. */
  method ReconcileRun(engine: Engine, env: Option<Env>, run: string, log: seq<Event>, start: int, size: nat)
    returns (raised: bool)
    requires engine.Valid() && Bijective(engine.Now()) && InOrder(log)
    modifies engine, engine.store, engine.board
    ensures engine.Valid() && Bijective(engine.Now())
    ensures
      var end := PassOver(env, Pass(old(engine.Now()), [], false), run, log, start, size);
      engine.Now() == end.state && raised == end.raised
  {
    hide Bijective, HandleAll, Engine.Valid, OwnedOf, Past;
    var cursor := start;
    raised := false;
    ghost var o := Pass(engine.Now(), [], false);
    while true
      invariant engine.Valid() && Bijective(engine.Now()) && o.state == engine.Now() && !raised && !o.raised
      invariant PassOver(env, o, run, log, cursor, size)
             == PassOver(env, Pass(old(engine.Now()), [], false), run, log, start, size)
      decreases |Past(log, cursor)|
    {
      var events := Batch(log, cursor, size);
      if events == [] {
        break;
      }
      BijectiveTasksUnique(engine.Now());
      var own := FilterOwned(engine, run, events);
      if own != [] {
        if env == None {
          return true;
        }
        var stopped;
        stopped, o := HandleBatch(engine, env.value, own, o);
        if stopped {
          return true;
        }
      }
      if |events| < size {
        break;
      }
      var next := events[|events| - 1].id;
      if own != [] {
        if run !in engine.store.runs {
          break;
        }
        next := Max(next, engine.store.runs[run].cursor);
      }
      BatchAdvances(log, cursor, size, next);
      cursor := next;
    }
  }

  // ---- Handling a list of events --------------------------------------------

  lemma {:induction false} HandleConcat(env: Env, o: Pass, a: seq<Event>, b: seq<Event>)
    ensures HandleAll(env, o, a + b) == HandleAll(env, HandleAll(env, o, a), b)
    decreases |b|
  {
    hide PlanOf;
    if b == [] {
      assert a + b == a;
    } else {
      assert (a + b)[..|a + b| - 1] == a + b[..|b| - 1];
      HandleConcat(env, o, a, b[..|b| - 1]);
    }
  }

  lemma {:induction false} OwnedConcat(s: State, run: string, a: seq<Event>, b: seq<Event>)
    ensures OwnedOf(s, run, a + b) == OwnedOf(s, run, a) + OwnedOf(s, run, b)
    decreases |b|
  {
    hide Owned;
    if b == [] {
      assert a + b == a;
    } else {
      assert (a + b)[..|a + b| - 1] == a + b[..|b| - 1];
      OwnedConcat(s, run, a, b[..|b| - 1]);
    }
  }

  lemma {:induction false} OwnedSame(s: State, other: State, run: string, events: seq<Event>)
    requires forall e | e in events :: Owned(s, run, e) <==> Owned(other, run, e)
    ensures OwnedOf(s, run, events) == OwnedOf(other, run, events)
    decreases |events|
  {
    if events != [] {
      var n := |events| - 1;
      assert events == events[..n] + [events[n]];
      OwnedSame(s, other, run, events[..n]);
    }
  }

  /** What a step keeps: rows stay, their tasks and the runs' existence too. */
  lemma StepKeeps(env: Env, s: State, e: Event)
    requires Bijective(s)
    ensures
      var s' := ApplyAll(s, PlanOf(env, s, e).writes);
      && Bijective(s') && s.rows.Keys <= s'.rows.Keys && s'.runs.Keys == s.runs.Keys
      && (forall k | k in s'.rows && k !in s.rows :: s'.rows[k].status == Dispatched)
  {
    hide Bijective, PlanOf, TailOf;
    StepBijective(env, s, e);
    if TurnAt(env, s, e) == None {
      NothingPlanned(env, s, e);
    } else {
      TurnKeeps(env, s, e, TurnAt(env, s, e).value);
    }
  }

  lemma TurnKeeps(env: Env, s: State, e: Event, t: Turn)
    requires Bijective(s) && TurnAt(env, s, e) == Some(t)
    ensures
      var s' := Step(env, s, e);
      && s.rows.Keys <= s'.rows.Keys && s'.runs.Keys == s.runs.Keys
      && (forall k | k in s'.rows && k !in s.rows :: s'.rows[k].status == Dispatched)
      && (forall k | k in s.rows && k != t.key :: s'.rows[k] == s.rows[k] || s'.rows[k].status == Dispatched)
  {
    hide Bijective, PlanOf, TailOf, Step, Orderly;
    var tail := TailOf(t, MarkedRows(t, s.rows));
    EndsBeforeSave(env, s, e, t);
    TailOrderly(t, MarkedRows(t, s.rows));
    OrderlyDispatches(env.pipeline, t.key.run, tail.dispatch);
    assert Saves(t.key.run, tail.saved) != [] ==> Saves(t.key.run, tail.saved)[..0] == [];
  }

  lemma NothingPlanned(env: Env, s: State, e: Event)
    requires TurnAt(env, s, e) == None
    ensures PlanOf(env, s, e) == Plan([], Ignored)
  {
  }

  lemma {:induction false} OrderlyDispatches(p: Pipeline, run: string, ws: seq<Write>)
    requires Orderly(p, run, ws)
    ensures forall k | k in EffectOf(ws).rows :: EffectOf(ws).rows[k].status == Dispatched
    decreases |ws|
  {
    if ws != [] {
      var n := |ws| - 1;
      assert OrderlyAt(p, run, ws, n);
      forall i | 0 <= i < n
        ensures OrderlyAt(p, run, ws[..n], i)
      {
        assert OrderlyAt(p, run, ws, i);
      }
      OrderlyDispatches(p, run, ws[..n]);
    }
  }

  /** Ownership is never lost. */
  lemma OwnedStays(s: State, later: State, run: string, e: Event)
    requires Bijective(s) && Bijective(later) && s.rows.Keys <= later.rows.Keys && Owned(s, run, e)
    ensures Owned(later, run, e)
  {
    var k := FindByTask(s.rows, e.task).value;
    FindsOwn(later, k);
  }

  lemma {:induction false} HandleKeeps(env: Env, o: Pass, events: seq<Event>)
    requires Bijective(o.state)
    ensures
      var after := HandleAll(env, o, events);
      && Bijective(after.state) && o.state.rows.Keys <= after.state.rows.Keys
      && after.state.runs.Keys == o.state.runs.Keys
      && (forall e, run | Owned(o.state, run, e) :: Owned(after.state, run, e))
    decreases |events|
  {
    hide Bijective, PlanOf, Owned;
    if events != [] {
      var n := |events| - 1;
      HandleKeeps(env, o, events[..n]);
      var before := HandleAll(env, o, events[..n]);
      StepKeeps(env, before.state, events[n]);
      var after := HandleAll(env, o, events);
      forall e, run | Owned(o.state, run, e)
        ensures Owned(after.state, run, e)
      {
        OwnedStays(o.state, after.state, run, e);
      }
    }
  }

  /** After own events are handled without a raise, the stored cursor is the
      last one's id. */
  lemma HandledCursor(env: Env, o: Pass, run: string, own: seq<Event>)
    requires Bijective(o.state) && run in o.state.runs && own != []
    requires forall e | e in own :: Owned(o.state, run, e)
    requires !HandleAll(env, o, own).raised
    ensures run in HandleAll(env, o, own).state.runs
    ensures HandleAll(env, o, own).state.runs[run].cursor == own[|own| - 1].id
  {
    hide PlanOf, Bijective;
    var n := |own| - 1;
    HandleKeeps(env, o, own[..n]);
    assert own[n] in own;
    SavedCursor(env, HandleAll(env, o, own[..n]).state, run, own[n]);
  }

  lemma SavedCursor(env: Env, s: State, run: string, e: Event)
    requires run in s.runs && Owned(s, run, e) && PlanOf(env, s, e).exit != Errored
    ensures
      var s' := ApplyAll(s, PlanOf(env, s, e).writes);
      run in s'.runs && s'.runs[run].cursor == e.id
  {
    hide PlanOf;
    var t := TurnAt(env, s, e).value;
    CursorLast(env, s, e);
    var ws := PlanOf(env, s, e).writes;
    PlainEffect(s, ws[..|ws| - 1]);
  }

  // ---- The batched pass is a fold --------------------------------------------

  /** No event past the cursor becomes the run's own during the pass. */
  ghost predicate NoLateOwner(env: Env, o: Pass, run: string, events: seq<Event>) {
    forall e | e in events && Owned(HandleAll(env, o, OwnedOf(o.state, run, events)).state, run, e) ::
      Owned(o.state, run, e)
  }

  /** For every log, mix of foreign events and positive batch size, the pass is
      the fold of the step over the run's own events past the cursor, in order. */
  lemma {:induction false} BatchedIsFold(env: Env, o: Pass, run: string, log: seq<Event>, cursor: int, size: nat)
    requires InOrder(log) && size >= 1 && Bijective(o.state) && run in o.state.runs && !o.raised
    requires NoLateOwner(env, o, run, Past(log, cursor))
    ensures PassOver(Some(env), o, run, log, cursor, size) ==
      HandleAll(env, o, OwnedOf(o.state, run, Past(log, cursor)))
    decreases |Past(log, cursor)|
  {
    hide Bijective, Owned, Past, HandleAll, OwnedOf, NoLateOwner;
    var all, events := Past(log, cursor), Batch(log, cursor, size);
    NothingOwned(env, o, run);
    if events != [] {
      var n := |events|;
      var own := OwnedOf(o.state, run, events);
      assert events == all[..n];
      NothingOwned(env, HandleAll(env, o, own), run);
      FoldSplits(env, o, run, all, n);
      if HandleAll(env, o, own).raised || n < size {
      } else {
        NextCursor(env, o, run, log, cursor, n);
        PastContinues(log, cursor, n);
        BatchAdvances(log, cursor, size, events[n - 1].id);
        HandleKeeps(env, o, own);
        BatchedIsFold(env, HandleAll(env, o, own), run, log, events[n - 1].id, size);
      }
    }
  }

  lemma NothingOwned(env: Env, o: Pass, run: string)
    ensures OwnedOf(o.state, run, []) == [] && HandleAll(env, o, []) == o
  {
  }

  /** The fold over everything is the fold over a batch and then over the rest. */
  lemma FoldSplits(env: Env, o: Pass, run: string, all: seq<Event>, n: nat)
    requires n <= |all| && Bijective(o.state) && NoLateOwner(env, o, run, all)
    ensures
      var after := HandleAll(env, o, OwnedOf(o.state, run, all[..n]));
      && HandleAll(env, o, OwnedOf(o.state, run, all)) ==
           (if after.raised || n == |all| then after else HandleAll(env, after, OwnedOf(after.state, run, all[n..])))
      && NoLateOwner(env, after, run, all[n..])
  {
    hide Bijective, Owned, NoLateOwner, Handle;
    var own, rest := OwnedOf(o.state, run, all[..n]), OwnedOf(o.state, run, all[n..]);
    assert all == all[..n] + all[n..];
    OwnedConcat(o.state, run, all[..n], all[n..]);
    HandleConcat(env, o, own, rest);
    RestOwnedSame(env, o, run, all, n);
    if HandleAll(env, o, own).raised {
      HandleRaised(env, HandleAll(env, o, own), rest);
    }
  }

  /** The stored cursor never overtakes the batch. */
  lemma NextCursor(env: Env, o: Pass, run: string, log: seq<Event>, cursor: int, n: nat)
    requires InOrder(log) && 0 < n <= |Past(log, cursor)| && Bijective(o.state) && run in o.state.runs
    requires
      var own := OwnedOf(o.state, run, Past(log, cursor)[..n]);
      own != [] ==> !HandleAll(env, o, own).raised
    ensures
      var own := OwnedOf(o.state, run, Past(log, cursor)[..n]);
      own != [] ==>
        && run in HandleAll(env, o, own).state.runs
        && HandleAll(env, o, own).state.runs[run].cursor <= Past(log, cursor)[n - 1].id
  {
    hide Bijective, Owned, HandleAll, OwnedOf, Past;
    var events := Past(log, cursor)[..n];
    var own := OwnedOf(o.state, run, events);
    if own != [] {
      PastInOrder(log, cursor);
      LastOwned(o.state, run, events);
      HandledCursor(env, o, run, own);
    }
  }

  lemma {:induction false} HandleRaised(env: Env, o: Pass, events: seq<Event>)
    requires o.raised
    ensures HandleAll(env, o, events) == o
    decreases |events|
  {
    if events != [] {
      HandleRaised(env, o, events[..|events| - 1]);
    }
  }

  lemma {:induction false} LastOwned(s: State, run: string, events: seq<Event>)
    requires InOrder(events)
    ensures OwnedOf(s, run, events) != [] ==>
      OwnedOf(s, run, events)[|OwnedOf(s, run, events)| - 1].id <= events[|events| - 1].id
    decreases |events|
  {
    hide Owned;
    if events != [] {
      LastOwned(s, run, events[..|events| - 1]);
    }
  }

  lemma RestOwnedSame(env: Env, o: Pass, run: string, all: seq<Event>, n: nat)
    requires n <= |all| && Bijective(o.state) && NoLateOwner(env, o, run, all)
    ensures
      var after := HandleAll(env, o, OwnedOf(o.state, run, all[..n]));
      && OwnedOf(after.state, run, all[n..]) == OwnedOf(o.state, run, all[n..])
      && NoLateOwner(env, after, run, all[n..])
  {
    hide Bijective, Owned, Handle;
    var own, rest := OwnedOf(o.state, run, all[..n]), OwnedOf(o.state, run, all[n..]);
    var after := HandleAll(env, o, own);
    assert all == all[..n] + all[n..];
    OwnedConcat(o.state, run, all[..n], all[n..]);
    HandleConcat(env, o, own, rest);
    HandleKeeps(env, o, own);
    HandleKeeps(env, after, rest);
    assert forall e | e in all[n..] :: e in all;
    OwnedSame(after.state, o.state, run, all[n..]);
  }

  // ---- The plain fold, and when nothing becomes owned late -------------------

  /** Take the events one at a time; advance those the run owns by then. */
  ghost function FoldOwn(env: Env, o: Pass, run: string, events: seq<Event>): Pass
    decreases |events|
  {
    if events == [] then o else
      var before := FoldOwn(env, o, run, events[..|events| - 1]);
      if Owned(before.state, run, events[|events| - 1]) then Handle(env, before, events[|events| - 1]) else before
  }

  lemma {:induction false} FoldIsHandle(env: Env, o: Pass, run: string, events: seq<Event>)
    requires Bijective(o.state) && NoLateOwner(env, o, run, events)
    ensures FoldOwn(env, o, run, events) == HandleAll(env, o, OwnedOf(o.state, run, events))
    decreases |events|
  {
    hide Bijective, Owned, PlanOf;
    if events != [] {
      var n := |events| - 1;
      var front, last := events[..n], events[n];
      var own := OwnedOf(o.state, run, front);
      var tail := if Owned(o.state, run, last) then [last] else [];
      HandleConcat(env, o, own, tail);
      HandleKeeps(env, o, own);
      HandleKeeps(env, HandleAll(env, o, own), tail);
      assert OwnedOf(o.state, run, events) == own + tail;
      assert events == front + [last];
      FoldIsHandle(env, o, run, front);
      assert Owned(HandleAll(env, o, own).state, run, last) <==> Owned(o.state, run, last);
      assert [last][..0] == [];
    }
  }

  /** The log only speaks of cards on the board. */
  ghost predicate Carded(s: State, events: seq<Event>) {
    forall e | e in events :: e.task.key in s.cards
  }

  /** No card of the run is without its row: no crash is pending between
      creating a card and recording it. */
  ghost predicate NoOrphans(s: State, run: string) {
    forall k | SafeKey(k) && k.run == run && KeyText(k) in s.cards :: k in s.rows
  }

  lemma NoOrphansNoLateOwner(env: Env, o: Pass, run: string, events: seq<Event>)
    requires Bijective(o.state) && Carded(o.state, events) && NoOrphans(o.state, run)
    ensures NoLateOwner(env, o, run, events)
  {
    hide HandleAll, OwnedOf, KeyText, SafeKey;
    var end := HandleAll(env, o, OwnedOf(o.state, run, events)).state;
    HandleKeeps(env, o, OwnedOf(o.state, run, events));
    forall e | e in events && Owned(end, run, e)
      ensures Owned(o.state, run, e)
    {
      var k := FindByTask(end.rows, e.task).value;
      assert k in end.rows && e.task == TaskOf(k);
      FindsOwn(o.state, k);
    }
  }

  /** Main result: with no orphan pending, every positive batch size gives the
      plain fold over the events past the cursor. */
  lemma BatchedRefinesFold(env: Env, o: Pass, run: string, log: seq<Event>, cursor: int, size: nat)
    requires InOrder(log) && size >= 1 && Bijective(o.state) && run in o.state.runs && !o.raised
    requires Carded(o.state, Past(log, cursor)) && NoOrphans(o.state, run)
    ensures PassOver(Some(env), o, run, log, cursor, size) == FoldOwn(env, o, run, Past(log, cursor))
  {
    hide PassOver, Bijective, NoLateOwner;
    NoOrphansNoLateOwner(env, o, run, Past(log, cursor));
    BatchedIsFold(env, o, run, log, cursor, size);
    FoldIsHandle(env, o, run, Past(log, cursor));
  }

  // ---- A second pass -----------------------------------------------------------

  /** Running the pass again on the same log writes nothing. */
  lemma SecondPassSilent(env: Env, s: State, run: string, log: seq<Event>, size: nat)
    requires InOrder(log) && size >= 1 && Bijective(s) && run in s.runs
    requires NoLateOwner(env, Pass(s, [], false), run, Past(log, s.runs[run].cursor))
    requires !PassOver(Some(env), Pass(s, [], false), run, log, s.runs[run].cursor, size).raised
    ensures
      var end := PassOver(Some(env), Pass(s, [], false), run, log, s.runs[run].cursor, size).state;
      run in end.runs
      && PassOver(Some(env), Pass(end, [], false), run, log, end.runs[run].cursor, size) == Pass(end, [], false)
  {
    hide PassOver, Bijective, Owned, Past, HandleAll, OwnedOf;
    var cursor := s.runs[run].cursor;
    var o := Pass(s, [], false);
    var past := Past(log, cursor);
    var own := OwnedOf(s, run, past);
    BatchedIsFold(env, o, run, log, cursor, size);
    HandleKeeps(env, o, own);
    var end := HandleAll(env, o, own).state;
    if own != [] {
      HandledCursor(env, o, run, own);
    } else {
      NothingOwned(env, o, run);
    }
    PastInOrder(log, cursor);
    OwnedInOrder(s, run, past);
    PastMembers(log, cursor);
    PastMembers(log, end.runs[run].cursor);
    forall e | e in Past(log, end.runs[run].cursor)
      ensures !Owned(end, run, e)
    {
      if Owned(end, run, e) {
        if own == [] {
          OwnedMember(s, run, past, e);
        } else {
          OwnedBound(s, run, past, e);
        }
      }
    }
    NoneOwned(end, run, Past(log, end.runs[run].cursor));
    NothingOwned(env, Pass(end, [], false), run);
    BatchedIsFold(env, Pass(end, [], false), run, log, end.runs[run].cursor, size);
  }

  lemma {:induction false} NoneOwned(s: State, run: string, events: seq<Event>)
    requires forall e | e in events :: !Owned(s, run, e)
    ensures OwnedOf(s, run, events) == []
    decreases |events|
  {
    if events != [] {
      var n := |events| - 1;
      assert events == events[..n] + [events[n]];
      NoneOwned(s, run, events[..n]);
    }
  }

  lemma {:induction false} OwnedMember(s: State, run: string, events: seq<Event>, e: Event)
    requires e in events && Owned(s, run, e)
    ensures e in OwnedOf(s, run, events)
    decreases |events|
  {
    hide Owned;
    var n := |events| - 1;
    assert events == events[..n] + [events[n]];
    if e in events[..n] {
      OwnedMember(s, run, events[..n], e);
    }
  }

  lemma {:induction false} OwnedInOrder(s: State, run: string, events: seq<Event>)
    requires InOrder(events)
    ensures InOrder(OwnedOf(s, run, events))
    decreases |events|
  {
    hide Owned;
    if events != [] {
      var n := |events| - 1;
      OwnedInOrder(s, run, events[..n]);
      var front := OwnedOf(s, run, events[..n]);
      forall i | 0 <= i < |front|
        ensures front[i].id < events[n].id
      {
        assert front[i] in events[..n];
      }
    }
  }

  /** Every own event is at or below the last own one. */
  lemma OwnedBound(s: State, run: string, events: seq<Event>, e: Event)
    requires InOrder(events) && e in events && Owned(s, run, e)
    ensures OwnedOf(s, run, events) != [] && e.id <= OwnedOf(s, run, events)[|OwnedOf(s, run, events)| - 1].id
  {
    hide Owned, OwnedOf;
    OwnedMember(s, run, events, e);
    OwnedInOrder(s, run, events);
    var i :| 0 <= i < |OwnedOf(s, run, events)| && OwnedOf(s, run, events)[i] == e;
  }
}

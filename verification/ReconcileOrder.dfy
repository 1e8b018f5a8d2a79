/** Reconciling all active runs: runs do not interfere, so order is immaterial. */
module ReconcileOrder {
  import opened Basics
  import opened Pipelines
  import opened Keys
  import opened RunState
  import opened Advance
  import opened Invariants
  import opened CrashReplay
  import opened EventLog
  import opened Engines
  import opened Reconciling

  // ---- A step sees its own run only ------------------------------------------

  ghost predicate SameRows(rows: Rows, other: Rows, run: string) {
    forall k: RowKey | k.run == run :: (k in rows <==> k in other) && (k in rows ==> rows[k] == other[k])
  }

  ghost predicate SameRun(s: State, other: State, run: string) {
    && (run in s.runs <==> run in other.runs)
    && (run in s.runs ==> s.runs[run] == other.runs[run])
    && SameRows(s.rows, other.rows, run)
  }

  lemma SameAttempts(rows: Rows, other: Rows, run: string, node: string)
    requires SameRows(rows, other, run)
    ensures AttemptsOf(rows, run, node) == AttemptsOf(other, run, node)
  {
    forall a
      ensures a in AttemptsOf(rows, run, node) <==> a in AttemptsOf(other, run, node)
    {
      var k := RowKey(run, node, a);
      assert k in rows <==> k in other;
    }
  }

  lemma TailLocal(t: Turn, rows: Rows, other: Rows)
    requires SameRows(rows, other, t.key.run)
    ensures TailOf(t, rows) == TailOf(t, other)
  {
    hide TailOf, EnterTail, Entered, CountedTail, FanInTail;
    TailEnters(t, rows, other);
    TailEnters(t, other, rows);
    if Entered(t).Some? {
      var next := Entered(t).value;
      if !Reads(next) {
        BlindTail(t, next, rows, other);
      } else if next.shape == FAN_IN {
        FanInLocal(t, next, rows, other);
      } else {
        CountedEnters(t, next, rows);
        CountedEnters(t, next, other);
        SameAttempts(rows, other, t.key.run, next.id);
      }
    }
  }

  lemma FanInLocal(t: Turn, next: Node, rows: Rows, other: Rows)
    requires SameRows(rows, other, t.key.run) && next.shape == FAN_IN
    ensures EnterTail(t, next, rows) == EnterTail(t, next, other)
  {
    hide FanInTail;
    var preds := Predecessors(t.env.pipeline.edges, next.id);
    forall n | n in preds
      ensures LatestKey(rows, t.key.run, n) == LatestKey(other, t.key.run, n)
      ensures SameOutcome(rows, other, LatestKey(rows, t.key.run, n))
    {
      SameAttempts(rows, other, t.key.run, n);
    }
    SameFanIn(t, next, rows, other);
  }

  lemma OwnedLocal(s: State, other: State, run: string, e: Event)
    requires Bijective(s) && Bijective(other) && SameRun(s, other, run)
    ensures Owned(s, run, e) <==> Owned(other, run, e)
    ensures Owned(s, run, e) ==> FindByTask(s.rows, e.task) == FindByTask(other.rows, e.task)
  {
    if Owned(s, run, e) {
      FindsOwn(other, FindByTask(s.rows, e.task).value);
    }
    if Owned(other, run, e) {
      FindsOwn(s, FindByTask(other.rows, e.task).value);
    }
  }

  /** Two states that agree on a run plan the same writes for its events. */
  lemma PlanLocal(env: Env, s: State, other: State, run: string, e: Event)
    requires Bijective(s) && Bijective(other) && SameRun(s, other, run) && Owned(s, run, e)
    ensures PlanOf(env, s, e) == PlanOf(env, other, e)
  {
    hide TailOf, Bijective;
    OwnedLocal(s, other, run, e);
    if TurnAt(env, s, e).Some? {
      var t := TurnAt(env, s, e).value;
      TailLocal(t, MarkedRows(t, s.rows), MarkedRows(t, other.rows));
    }
  }

  // ---- Writes of one run ---------------------------------------------------------

  ghost predicate LocalTo(run: string, w: Write) {
    match w
    case Insert(_, _) => false
    case Upsert(k, _) => k.run == run
    case Create(text, _) => exists k :: SafeKey(k) && k.run == run && text == KeyText(k)
    case Block(_) => true
    case Save(id, _) => id == run
  }

  ghost predicate AllLocal(run: string, ws: seq<Write>) {
    forall w | w in ws :: LocalTo(run, w)
  }

  lemma PlanIsLocal(env: Env, s: State, run: string, e: Event)
    requires Owned(s, run, e)
    ensures AllLocal(run, PlanOf(env, s, e).writes)
  {
    hide TailOf, KeyText;
    if TurnAt(env, s, e) == None {
      NothingPlanned(env, s, e);
    } else {
      var t := TurnAt(env, s, e).value;
      PlanParts(env, s, e, t);
      var dispatch := TailOf(t, MarkedRows(t, s.rows)).dispatch;
      TailOrderly(t, MarkedRows(t, s.rows));
      OrderlyIsLocal(env.pipeline, t.key.run, dispatch);
    }
  }

  lemma OrderlyIsLocal(p: Pipeline, run: string, ws: seq<Write>)
    requires Orderly(p, run, ws)
    ensures AllLocal(run, ws)
  {
    forall w | w in ws
      ensures LocalTo(run, w)
    {
      var i :| 0 <= i < |ws| && ws[i] == w;
      assert OrderlyAt(p, run, ws, i);
    }
  }

  lemma {:induction false} LocalKeepsOthers(s: State, run: string, ws: seq<Write>, other: string)
    requires AllLocal(run, ws) && other != run
    ensures SameRun(s, ApplyAll(s, ws), other)
    decreases |ws|
  {
    if ws != [] {
      var n := |ws| - 1;
      assert ws[n] in ws;
      LocalKeepsOthers(s, run, ws[..n], other);
      assert LocalTo(run, ws[n]);
    }
  }

  lemma WritesCommute(s: State, a: string, v: Write, b: string, w: Write)
    requires a != b && LocalTo(a, v) && LocalTo(b, w)
    ensures Apply(Apply(s, v), w) == Apply(Apply(s, w), v)
  {
    hide KeyText, SafeKey;
    match (v, w)
    case (Upsert(j, x), Upsert(k, y)) => assert s.rows[j := x][k := y] == s.rows[k := y][j := x];
    case (Create(t, x), Create(u, y)) =>
      var j :| SafeKey(j) && j.run == a && t == KeyText(j);
      var k :| SafeKey(k) && k.run == b && u == KeyText(k);
      DifferentRuns(j, k);
      assert s.cards[t := x][u := y] == s.cards[u := y][t := x];
    case (Block(x), Block(y)) => assert s.blocked + {x} + {y} == s.blocked + {y} + {x};
    case (Save(i, x), Save(j, y)) => assert s.runs[i := x][j := y] == s.runs[j := y][i := x];
    case _ =>
  }

  lemma DifferentRuns(j: RowKey, k: RowKey)
    requires SafeKey(j) && SafeKey(k) && j.run != k.run
    ensures KeyText(j) != KeyText(k)
  {
    if KeyText(j) == KeyText(k) {
      KeyTextInjective(j, k);
    }
  }

  lemma {:induction false} OneCommutes(s: State, a: string, v: Write, b: string, ws: seq<Write>)
    requires a != b && LocalTo(a, v) && AllLocal(b, ws)
    ensures Apply(ApplyAll(s, ws), v) == ApplyAll(Apply(s, v), ws)
    decreases |ws|
  {
    hide LocalTo;
    if ws != [] {
      var n := |ws| - 1;
      assert ws[n] in ws;
      OneCommutes(s, a, v, b, ws[..n]);
      WritesCommute(ApplyAll(s, ws[..n]), a, v, b, ws[n]);
    }
  }

  lemma {:induction false} ListsCommute(s: State, a: string, vs: seq<Write>, b: string, ws: seq<Write>)
    requires a != b && AllLocal(a, vs) && AllLocal(b, ws)
    ensures ApplyAll(ApplyAll(s, vs), ws) == ApplyAll(ApplyAll(s, ws), vs)
    decreases |vs|
  {
    hide LocalTo;
    if vs != [] {
      var n := |vs| - 1;
      assert vs[n] in vs;
      ListsCommute(s, a, vs[..n], b, ws);
      OneCommutes(ApplyAll(s, vs[..n]), a, vs[n], b, ws);
    }
  }

  // ---- One run's pass --------------------------------------------------------------

  predicate IsTerminal(status: RunStatus) {
    status in {SUCCEEDED, FAILED, BLOCKED}
  }

  /** The replay path passes no tool registry. */
  function EnvFor(specs: map<string, Pipeline>, id: string): Option<Env> {
    if id in specs then Some(Env(specs[id], None)) else None
  }

  ghost function OneRun(specs: map<string, Pipeline>, s: State, log: seq<Event>, run: string, size: nat): Pass
    requires InOrder(log)
  {
    if run !in s.runs || IsTerminal(s.runs[run].status) then Pass(s, [], false)
    else PassOver(EnvFor(specs, s.runs[run].specId), Pass(s, [], false), run, log, s.runs[run].cursor, size)
  }

  /** A pass is its writes; they are all the run's own. */
  ghost predicate Accounted(s: State, run: string, o: Pass) {
    o.state == ApplyAll(s, o.writes) && AllLocal(run, o.writes) && Bijective(o.state)
  }

  lemma {:induction false} HandleLocal(env: Env, s: State, o: Pass, z: State, q: Pass, run: string, events: seq<Event>)
    requires Accounted(s, run, o) && Accounted(z, run, q)
    requires SameRun(o.state, q.state, run) && o.writes == q.writes && o.raised == q.raised
    requires forall e | e in events :: Owned(o.state, run, e)
    ensures
      var a, b := HandleAll(env, o, events), HandleAll(env, q, events);
      && Accounted(s, run, a) && Accounted(z, run, b)
      && SameRun(a.state, b.state, run) && a.writes == b.writes && a.raised == b.raised
    decreases |events|
  {
    hide PlanOf, Bijective, SameRun, AllLocal;
    if events != [] {
      var n := |events| - 1;
      assert forall e | e in events[..n] :: e in events;
      assert events[n] in events;
      HandleLocal(env, s, o, z, q, run, events[..n]);
      HandleKeeps(env, o, events[..n]);
      var a, b := HandleAll(env, o, events[..n]), HandleAll(env, q, events[..n]);
      if !a.raised {
        StepLocal(env, s, a, z, b, run, events[n]);
      }
    }
  }

  lemma StepLocal(env: Env, s: State, a: Pass, z: State, b: Pass, run: string, e: Event)
    requires Accounted(s, run, a) && Accounted(z, run, b) && !a.raised && !b.raised
    requires SameRun(a.state, b.state, run) && a.writes == b.writes && Owned(a.state, run, e)
    ensures
      var a', b' := Handle(env, a, e), Handle(env, b, e);
      && Accounted(s, run, a') && Accounted(z, run, b')
      && SameRun(a'.state, b'.state, run) && a'.writes == b'.writes && a'.raised == b'.raised
  {
    hide PlanOf, Bijective;
    PlanLocal(env, a.state, b.state, run, e);
    PlanIsLocal(env, a.state, run, e);
    var ws := PlanOf(env, a.state, e).writes;
    ApplyConcat(s, a.writes, ws);
    ApplyConcat(z, b.writes, ws);
    StepBijective(env, a.state, e);
    StepBijective(env, b.state, e);
    SameWritesSameRun(a.state, b.state, run, ws);
  }

  lemma {:induction false} SameWritesSameRun(s: State, z: State, run: string, ws: seq<Write>)
    requires SameRun(s, z, run) && AllLocal(run, ws)
    ensures SameRun(ApplyAll(s, ws), ApplyAll(z, ws), run)
    decreases |ws|
  {
    if ws != [] {
      var n := |ws| - 1;
      assert ws[n] in ws;
      SameWritesSameRun(s, z, run, ws[..n]);
    }
  }

  /** The pass over one run does the same wherever that run is the same. */
  lemma {:induction false} PassLocal(env: Option<Env>, s: State, o: Pass, z: State, q: Pass, run: string,
                                     log: seq<Event>, cursor: int, size: nat)
    requires InOrder(log) && Accounted(s, run, o) && Accounted(z, run, q) && run in o.state.runs
    requires SameRun(o.state, q.state, run) && o.writes == q.writes && o.raised == q.raised
    ensures
      var a, b := PassOver(env, o, run, log, cursor, size), PassOver(env, q, run, log, cursor, size);
      && Accounted(s, run, a) && Accounted(z, run, b)
      && SameRun(a.state, b.state, run) && a.writes == b.writes && a.raised == b.raised
    decreases |Past(log, cursor)|
  {
    hide Bijective, HandleAll, OwnedOf, Past, AllLocal, Owned, SameRows;
    var events := Batch(log, cursor, size);
    if events != [] {
      var own := OwnedOf(o.state, run, events);
      PassOwnedLocal(s, o, z, q, run, events);
      if own == [] || env.Some? {
        var a := if own == [] then o else HandleAll(env.value, o, own);
        var b := if own == [] then q else HandleAll(env.value, q, own);
        if own != [] {
          HandleLocal(env.value, s, o, z, q, run, own);
          HandleKeeps(env.value, o, own);
        }
        var last := events[|events| - 1].id;
        if !a.raised && |events| >= size {
          var next := if own == [] then last else Max(last, a.state.runs[run].cursor);
          BatchAdvances(log, cursor, size, next);
          PassLocal(env, s, a, z, b, run, log, next, size);
        }
      }
    }
  }

  lemma PassOwnedLocal(s: State, o: Pass, z: State, q: Pass, run: string, events: seq<Event>)
    requires Accounted(s, run, o) && Accounted(z, run, q) && SameRun(o.state, q.state, run)
    ensures OwnedOf(o.state, run, events) == OwnedOf(q.state, run, events)
  {
    hide Bijective, SameRun, Owned;
    forall e | e in events
      ensures Owned(o.state, run, e) <==> Owned(q.state, run, e)
    {
      OwnedLocal(o.state, q.state, run, e);
    }
    OwnedSame(o.state, q.state, run, events);
  }

  /** The same for a whole run's pass. */
  lemma OneRunLocal(specs: map<string, Pipeline>, s: State, z: State, log: seq<Event>, run: string, size: nat)
    requires InOrder(log) && Bijective(s) && Bijective(z) && SameRun(s, z, run)
    ensures
      var a, b := OneRun(specs, s, log, run, size), OneRun(specs, z, log, run, size);
      && Accounted(s, run, a) && Accounted(z, run, b)
      && a.writes == b.writes && a.raised == b.raised && SameRun(a.state, b.state, run)
  {
    hide PassOver, Bijective;
    if run in s.runs {
      PassLocal(EnvFor(specs, s.runs[run].specId), s, Pass(s, [], false), z, Pass(z, [], false), run, log,
        s.runs[run].cursor, size);
    }
  }

  /** Two runs' passes commute. */
  lemma PassesCommute(specs: map<string, Pipeline>, s: State, log: seq<Event>, a: string, b: string, size: nat)
    requires InOrder(log) && Bijective(s) && a != b
    ensures
      var first, second := OneRun(specs, s, log, a, size), OneRun(specs, s, log, b, size);
      && OneRun(specs, first.state, log, b, size).state == OneRun(specs, second.state, log, a, size).state
      && OneRun(specs, first.state, log, b, size).raised == second.raised
      && SameRun(s, first.state, b) && Bijective(first.state)
  {
    hide OneRun, Bijective, SameRun, AllLocal;
    SameRunRefl(s, a);
    SameRunRefl(s, b);
    OneRunLocal(specs, s, s, log, a, size);
    OneRunLocal(specs, s, s, log, b, size);
    var first, second := OneRun(specs, s, log, a, size), OneRun(specs, s, log, b, size);
    LocalKeepsOthers(s, a, first.writes, b);
    LocalKeepsOthers(s, b, second.writes, a);
    OneRunLocal(specs, s, first.state, log, b, size);
    OneRunLocal(specs, s, second.state, log, a, size);
    ListsCommute(s, a, first.writes, b, second.writes);
  }

  lemma SameRunRefl(s: State, run: string)
    ensures SameRun(s, s, run)
  {
  }

  // ---- All runs ----------------------------------------------------------------------

  /** The runs in some order, stopping when one raises. */
  ghost function ReconcileAll(
    specs: map<string, Pipeline>, s: State, log: seq<Event>, order: seq<string>, size: nat): (State, bool)
    requires InOrder(log)
    decreases |order|
  {
    if order == [] then (s, false) else
      var one := OneRun(specs, s, log, order[0], size);
      if one.raised then (one.state, true) else ReconcileAll(specs, one.state, log, order[1..], size)
  }

  ghost predicate NoneRaises(specs: map<string, Pipeline>, s: State, log: seq<Event>, order: seq<string>, size: nat)
    requires InOrder(log)
  {
    forall r | r in order :: !OneRun(specs, s, log, r, size).raised
  }

  ghost predicate Distinct(order: seq<string>) {
    forall i, j | 0 <= i < j < |order| :: order[i] != order[j]
  }

  /** After another run's pass the rest still raise nothing. */
  lemma NoneRaisesAfter(specs: map<string, Pipeline>, s: State, log: seq<Event>, a: string, order: seq<string>,
    size: nat)
    requires InOrder(log) && Bijective(s) && a !in order && NoneRaises(specs, s, log, order, size)
    ensures NoneRaises(specs, OneRun(specs, s, log, a, size).state, log, order, size)
    ensures Bijective(OneRun(specs, s, log, a, size).state)
  {
    hide OneRun, Bijective, SameRun;
    SameRunRefl(s, a);
    OneRunLocal(specs, s, s, log, a, size);
    forall r | r in order
      ensures !OneRun(specs, OneRun(specs, s, log, a, size).state, log, r, size).raised
    {
      PassesCommute(specs, s, log, a, r, size);
    }
  }

  /** A run of the order may as well go first. */
  lemma {:induction false} MoveToFront(specs: map<string, Pipeline>, s: State, log: seq<Event>, front: seq<string>,
    r: string,
                                       rest: seq<string>, size: nat)
    requires InOrder(log) && Bijective(s) && Distinct(front + [r] + rest)
    requires NoneRaises(specs, s, log, front + [r] + rest, size)
    ensures ReconcileAll(specs, s, log, front + [r] + rest, size) ==
      ReconcileAll(specs, s, log, [r] + (front + rest), size)
    decreases |front|
  {
    hide OneRun, Bijective, NoneRaises;
    if front == [] {
      assert [] + [r] + rest == [r] + ([] + rest);
    } else {
      var a, front', all := front[0], front[1..], front + [r] + rest;
      assert all[1..] == front' + [r] + rest && all[0] == a;
      var one := OneRun(specs, s, log, a, size);
      RaisesOf(specs, s, log, all, size);
      DistinctTail(all);
      NoneRaisesAfter(specs, s, log, a, all[1..], size);
      MoveToFront(specs, one.state, log, front', r, rest, size);
      var swapped := [r] + (front + rest);
      assert swapped[0] == r && swapped[1..] == [a] + (front' + rest);
      assert r in all && a != r;
      PassesCommute(specs, s, log, a, r, size);
      PassesCommute(specs, s, log, r, a, size);
      var b := [r] + (front' + rest);
      assert b[0] == r && b[1..] == front' + rest;
      var c := [a] + (front' + rest);
      assert c[0] == a && c[1..] == front' + rest;
    }
  }

  lemma RaisesOf(specs: map<string, Pipeline>, s: State, log: seq<Event>, order: seq<string>, size: nat)
    requires InOrder(log) && order != [] && NoneRaises(specs, s, log, order, size)
    ensures forall r | r in order :: !OneRun(specs, s, log, r, size).raised
    ensures NoneRaises(specs, s, log, order[1..], size)
  {
  }

  lemma DistinctTail(order: seq<string>)
    requires Distinct(order) && order != []
    ensures order[0] !in order[1..] && Distinct(order[1..])
  {
  }

  /** Main result: the order in which the active runs are reconciled does not
      matter, as long as no pass raises. */
  lemma {:induction false} OrderFree(specs: map<string, Pipeline>, s: State, log: seq<Event>, order: seq<string>,
    other: seq<string>, size: nat)
    requires InOrder(log) && Bijective(s) && Distinct(order) && Distinct(other)
    requires forall r :: r in order <==> r in other
    requires NoneRaises(specs, s, log, order, size)
    ensures ReconcileAll(specs, s, log, order, size) == ReconcileAll(specs, s, log, other, size)
    decreases |order|
  {
    hide OneRun, Bijective;
    assert |other| > 0 ==> other[0] in other;
    if order != [] {
      var r := order[0];
      assert r in order;
      var i :| 0 <= i < |other| && other[i] == r;
      var front, rest := other[..i], other[i + 1..];
      assert other == front + [r] + rest;
      MoveToFront(specs, s, log, front, r, rest, size);
      DistinctTail(order);
      NoneRaisesAfter(specs, s, log, r, order[1..], size);
      assert order == [r] + order[1..];
      forall x
        ensures x in order[1..] <==> x in front + rest
      {
        assert x in order <==> x == r || x in order[1..];
        assert x in other <==> x in front || x == r || x in rest;
      }
      assert Distinct(front + rest) by {
        forall p, q | 0 <= p < q < |front + rest|
          ensures (front + rest)[p] != (front + rest)[q]
        {
          assert other[if p < i then p else p + 1] != other[if q < i then q else q + 1];
        }
      }
      OrderFree(specs, OneRun(specs, s, log, r, size).state, log, order[1..], front + rest, size);
      assert ([r] + (front + rest))[1..] == front + rest;
    }
  }

  /** A run that is terminal, or not among those reconciled, is untouched. */
  lemma {:induction false} OthersUntouched(specs: map<string, Pipeline>, s: State, log: seq<Event>, order: seq<string>,
    size: nat, run: string)
    requires InOrder(log) && Bijective(s)
    requires run in order ==> run in s.runs && IsTerminal(s.runs[run].status)
    ensures SameRun(s, ReconcileAll(specs, s, log, order, size).0, run)
    decreases |order|
  {
    hide Bijective, SameRows, PassOver;
    SameRunRefl(s, run);
    if order != [] {
      var one := OneRun(specs, s, log, order[0], size);
      SameRunRefl(s, order[0]);
      OneRunLocal(specs, s, s, log, order[0], size);
      assert SameRun(s, one.state, run) by {
        if order[0] == run {
          SameRunRefl(s, run);
        } else {
          LocalKeepsOthers(s, order[0], one.writes, run);
        }
      }
      if !one.raised {
        OthersUntouched(specs, one.state, log, order[1..], size, run);
        SameRunTransitive(s, one.state, ReconcileAll(specs, s, log, order, size).0, run);
      }
    }
  }

  lemma SameRunTransitive(a: State, b: State, c: State, run: string)
    requires SameRun(a, b, run) && SameRun(b, c, run)
    ensures SameRun(a, c, run)
  {
  }

  /** `reconcile`: every active run, re-read and skipped if terminal. */
  method Reconcile(engine: Engine, specs: map<string, Pipeline>, log: seq<Event>, size: nat)
    returns (raised: bool, ghost order: seq<string>)
    requires engine.Valid() && Bijective(engine.Now()) && InOrder(log)
    modifies engine, engine.store, engine.board
    ensures Distinct(order)
    ensures forall r :: r in order <==>
      r in old(engine.Now()).runs && old(engine.Now()).runs[r].status in {RUNNING, PAUSED_HUMAN}
    ensures (engine.Now(), raised) == ReconcileAll(specs, old(engine.Now()), log, order, size)
    ensures engine.Valid() && Bijective(engine.Now())
  {
    hide Bijective, Engine.Valid, PassOver;
    var ids := engine.store.ActiveRuns();
    order, raised := ids, false;
    for i := 0 to |ids|
      invariant engine.Valid() && Bijective(engine.Now()) && !raised
      invariant ReconcileAll(specs, engine.Now(), log, ids[i..], size) ==
        ReconcileAll(specs, old(engine.Now()), log, ids, size)
    {
      assert ids[i..][0] == ids[i] && ids[i..][1..] == ids[i + 1..];
      if ids[i] !in engine.store.runs || IsTerminal(engine.store.runs[ids[i]].status) {
        continue;
      }
      var run := engine.store.runs[ids[i]];
      raised := ReconcileRun(engine, EnvFor(specs, run.specId), ids[i], log, run.cursor, size);
      if raised {
        return;
      }
    }
  }
}

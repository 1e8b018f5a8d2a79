/** Crash at any write, then run the step again. */
module CrashReplay {
  import opened Basics
  import opened Pipelines
  import opened EdgeSelector
  import opened Keys
  import opened RunState
  import opened Advance
  import opened Invariants

  // ---- What a tail reads from the rows ------------------------------------

  /** The node whose dispatch rule decides the tail, when the step gets as far
      as selecting an edge to an existing node. */
  ghost function Entered(t: Turn): Option<Node> {
    var node := Lookup(t.env.pipeline.nodes, t.key.node);
    if node.Some? && node.value.shape == FAN_OUT then None
    else if !t.passed && node.Some? && node.value.goalGate.Some?
      && (t.key.attempt + 1 > node.value.goalGate.value.maxAttempts
          || Lookup(t.env.pipeline.nodes, node.value.goalGate.value.retryTarget).Some?) then None
    else
      match Select(OutEdges(t.env.pipeline.edges, t.key.node), t.run.context, HintsOf(t))
      case Raised => None
      case Ok(None) => None
      case Ok(Some(edge)) => Lookup(t.env.pipeline.nodes, edge.target)
  }

  lemma TailEnters(t: Turn, rows: Rows, other: Rows)
    ensures Entered(t).Some? ==> TailOf(t, rows) == EnterTail(t, Entered(t).value, rows)
    ensures Entered(t) == None ==> TailOf(t, rows) == TailOf(t, other)
    ensures Entered(t) == None ==> TailOf(t, rows).exit !in {Forwarded, HumanPaused, FanInWaiting, FanInFired}
  {
    hide EnterTail, Select, Branches, ForNode, Unit;
  }

  /** The exits whose tail depends on the rows. */
  ghost predicate Reads(next: Node) {
    next.shape !in {TOOL, EXIT}
  }

  lemma BlindTail(t: Turn, next: Node, rows: Rows, other: Rows)
    requires !Reads(next)
    ensures EnterTail(t, next, rows) == EnterTail(t, next, other)
    ensures EnterTail(t, next, rows).exit !in {Forwarded, HumanPaused, FanInWaiting, FanInFired}
  {
    hide ForNode, Unit, Select, ToolContext;
  }

  /** Ordinary and HUMAN targets: the attempt is one more than the number of rows. */
  ghost predicate Counted(next: Node) {
    Reads(next) && next.shape != FAN_IN
  }

  ghost function CountedTail(t: Turn, next: Node, attempt: nat): Tail {
    if next.shape == HUMAN then
      SendOne(t, next, attempt, t.run.context, {t.key.node}, next.goalGate,
        [Block(TaskOf(RowKey(t.key.run, next.id, attempt)))], CountedSave(t, next), HumanPaused)
    else
      SendOne(t, next, attempt, t.run.context, {t.key.node}, next.goalGate, [], CountedSave(t, next), Forwarded)
  }

  ghost function CountedSave(t: Turn, next: Node): Run {
    if next.shape == HUMAN then t.run.(status := PAUSED_HUMAN, cursor := t.event.id) else Resumed(t, t.run)
  }

  lemma CountedEnters(t: Turn, next: Node, rows: Rows)
    requires Counted(next)
    ensures EnterTail(t, next, rows) == CountedTail(t, next, NextAttempt(t, next, rows))
  {
    hide ForNode, Unit, NextAttempt;
  }

  // ---- Re-running after a crash -------------------------------------------

  lemma UnitEffect(key: RowKey, row: Row, card: Card, more: seq<Write>, j: nat)
    requires more == [] || (|more| == 1 && more[0].Block?)
    requires j <= 2 + |more|
    ensures
      var ws := [Create(KeyText(key), card), Upsert(key, row)] + more;
      var e := EffectOf(ws[..j]);
      && e.rows == (if j >= 2 then map[key := row] else map[])
      && e.cards == (if j >= 1 then map[KeyText(key) := card] else map[])
      && e.blocked == (if j >= 3 then {more[0].task} else {})
  {
    var c, u := Create(KeyText(key), card), Upsert(key, row);
    var ws := [c, u] + more;
    EffectSnoc([], c);
    EffectSnoc([c], u);
    assert [] + [c] == [c] && [c] + [u] == [c, u];
    assert ws[..0] == [] && ws[..1] == [c] && ws[..2] == [c, u];
    if j >= 3 {
      EffectSnoc([c, u], more[0]);
      assert ws[..3] == [c, u] + [more[0]];
    }
  }

  lemma EffectSnoc(ws: seq<Write>, w: Write)
    ensures EffectOf(ws + [w]) == Extend(EffectOf(ws), w)
  {
    assert (ws + [w])[..|ws|] == ws;
  }

  lemma RemarkedImprint(m: State, own: RowKey, row: Row, a: Effect, b: Effect)
    requires Within(a, b) && own in m.rows
    requires own in a.rows || row == m.rows[own]
    ensures
      var cut := Imprint(m, a);
      Imprint(cut.(rows := cut.rows[own := row]), b) == Imprint(m, b)
  {
    var cut := Imprint(m, a);
    assert cut.rows[own := row] + b.rows == m.rows + b.rows;
    ImprintWithin(m, a, b);
  }

  /** The interrupted step is found again, with the same turn. */
  lemma TurnFoundAgain(env: Env, s: State, e: Event, t: Turn, cut: State)
    requires Bijective(s) && TurnAt(env, s, e) == Some(t)
    requires Bijective(cut) && cut.runs == s.runs && t.key in cut.rows
    ensures TurnAt(env, cut, e) == Some(t)
  {
    FindsOwn(cut, t.key);
  }

  /** If the tail comes out the same, the re-run ends where the uncut step ends. */
  lemma SameTailSameEnd(env: Env, s: State, e: Event, t: Turn, j: nat)
    requires Bijective(s) && TurnAt(env, s, e) == Some(t)
    requires j <= |TailOf(t, MarkedRows(t, s.rows)).dispatch|
    requires
      var tail := TailOf(t, MarkedRows(t, s.rows));
      var cut := Partway(t, s, tail.dispatch, j);
      t.key in cut.rows ==> TailOf(t, MarkedRows(t, cut.rows)) == tail
    ensures
      var cut := Partway(t, s, TailOf(t, MarkedRows(t, s.rows)).dispatch, j);
      Step(env, cut, e) == Step(env, s, e)
  {
    hide TailOf, Partway, Step, Bijective, Imprint, CrashAt;
    var tail := TailOf(t, MarkedRows(t, s.rows));
    var all := |tail.dispatch|;
    var cut := Partway(t, s, tail.dispatch, j);
    var marked := s.(rows := MarkedRows(t, s.rows));
    PartwayBijective(t, s, e, env, j);
    PartwayBijective(t, s, e, env, all);
    CutKeepsOwnRow(t, marked, EffectOf(tail.dispatch[..j]));
    TurnFoundAgain(env, s, e, t, cut);
    PartwayBijective(t, cut, e, env, all);
    CrashPoints(env, s, e, all + 2);
    CrashPoints(env, cut, e, all + 2);
    PrefixEffect(tail.dispatch, j);
    assert tail.dispatch[..all] == tail.dispatch;
    RemarkedImprint(marked, t.key, Marked(t, cut.rows[t.key]), EffectOf(tail.dispatch[..j]), EffectOf(tail.dispatch));
  }

  lemma CutKeepsOwnRow(t: Turn, marked: State, a: Effect)
    requires t.key in marked.rows && Marked(t, marked.rows[t.key]) == marked.rows[t.key]
    ensures t.key in Imprint(marked, a).rows
    ensures t.key in a.rows || Marked(t, Imprint(marked, a).rows[t.key]) == marked.rows[t.key]
  {
  }

  // ---- When the tail comes out the same -----------------------------------

  ghost predicate SameOutcome(rows: Rows, other: Rows, k: RowKey) {
    && (k in rows <==> k in other)
    && (k in rows ==> rows[k].status == other[k].status && rows[k].updates == other[k].updates)
  }

  /** Two row maps that a fan-in over `nodes` cannot tell apart. */
  ghost predicate SameBranches(rows: Rows, other: Rows, run: string, nodes: set<string>) {
    forall n | n in nodes ::
      LatestKey(rows, run, n) == LatestKey(other, run, n) && SameOutcome(rows, other, LatestKey(rows, run, n))
  }

  lemma {:induction false} SameUpdates(rows: Rows, other: Rows, run: string, nodes: set<string>, ids: seq<string>)
    requires SameBranches(rows, other, run, nodes) && forall n | n in ids :: n in nodes
    ensures UpdatesOf(rows, run, ids) == UpdatesOf(other, run, ids)
    decreases |ids|
  {
    if ids != [] {
      var n := |ids| - 1;
      assert ids == ids[..n] + [ids[n]];
      SameUpdates(rows, other, run, nodes, ids[..n]);
    }
  }

  lemma SameFanIn(t: Turn, next: Node, rows: Rows, other: Rows)
    requires SameBranches(rows, other, t.key.run, Predecessors(t.env.pipeline.edges, next.id))
    ensures FanInTail(t, next, rows) == FanInTail(t, next, other)
  {
    hide ForNode, Unit, LatestKey;
    var preds := Predecessors(t.env.pipeline.edges, next.id);
    SameUpdates(rows, other, t.key.run, preds, Sorted(preds));
    assert AllDone(rows, t.key.run, preds) <==> AllDone(other, t.key.run, preds);
  }

  /** A fan-in node that is its own predecessor, with only its first row, is
      undone by its own dispatch: the re-run finds it unfinished. */
  ghost predicate SelfBlocking(t: Turn, next: Node, rows: Rows) {
    var first := RowKey(t.key.run, next.id, 1);
    && next.id in Predecessors(t.env.pipeline.edges, next.id)
    && t.key != first
    && LatestKey(rows, t.key.run, next.id) == first
  }

  lemma AttemptsAfter(rows: Rows, k: RowKey, row: Row, node: string)
    ensures AttemptsOf(rows[k := row], k.run, node) ==
      AttemptsOf(rows, k.run, node) + if node == k.node then {k.attempt} else {}
  {
    var more := rows[k := row];
    forall a
      ensures a in AttemptsOf(more, k.run, node) <==>
        a in AttemptsOf(rows, k.run, node) || (node == k.node && a == k.attempt)
    {
      if a in AttemptsOf(more, k.run, node) {
        assert RowKey(k.run, node, a) in more;
      }
      if a in AttemptsOf(rows, k.run, node) {
        assert RowKey(k.run, node, a) in rows && RowKey(k.run, node, a) in more;
      }
    }
  }

  lemma GreatestUnaffected(s: set<nat>, x: nat)
    requires s != {} && x <= Greatest(s)
    ensures Greatest(s + {x}) == Greatest(s)
  {
  }

  /** Re-marking one's own row after adding the fan-in's first row changes
      nothing a fan-in reads, unless the fan-in blocks itself. */
  lemma FanInSurvives(t: Turn, next: Node, rows: Rows, row: Row)
    requires t.key in rows && Marked(t, rows[t.key]) == rows[t.key]
    requires forall k | k in rows :: k.attempt >= 1
    requires AllDone(rows, t.key.run, Predecessors(t.env.pipeline.edges, next.id))
    requires !SelfBlocking(t, next, rows)
    ensures
      var cut := rows[RowKey(t.key.run, next.id, 1) := row];
      SameBranches(rows, MarkedRows(t, cut), t.key.run, Predecessors(t.env.pipeline.edges, next.id))
  {
    var run, first := t.key.run, RowKey(t.key.run, next.id, 1);
    var cut := rows[first := row];
    var again := MarkedRows(t, cut);
    forall n | n in Predecessors(t.env.pipeline.edges, next.id)
      ensures LatestKey(rows, run, n) == LatestKey(again, run, n) && SameOutcome(rows, again, LatestKey(rows, run, n))
    {
      assert IsDone(rows, LatestKey(rows, run, n));
      AttemptsAfter(rows, first, row, n);
      AttemptsAfter(cut, t.key, Marked(t, cut[t.key]), n);
      assert AttemptsOf(again, run, n) == AttemptsOf(rows, run, n) + if n == next.id then {1} else {} by {
        if n == t.key.node {
          assert t.key.attempt in AttemptsOf(rows, run, n);
        }
      }
      assert LatestKey(rows, run, n).attempt in AttemptsOf(rows, run, n);
      GreatestUnaffected(AttemptsOf(rows, run, n), 1);
    }
  }

  /** The next attempt after the row it counts towards has been added. */
  lemma CountGrows(t: Turn, next: Node, rows: Rows, row: Row)
    requires t.key in rows
    ensures
      var k := RowKey(t.key.run, next.id, NextAttempt(t, next, rows));
      NextAttempt(t, next, MarkedRows(t, rows[k := row])) == NextAttempt(t, next, rows) + if k in rows then 0 else 1
  {
    var k := RowKey(t.key.run, next.id, NextAttempt(t, next, rows));
    var cut := rows[k := row];
    AttemptsAfter(rows, k, row, next.id);
    AttemptsAfter(cut, t.key, Marked(t, cut[t.key]), next.id);
    if t.key.node == next.id {
      assert t.key.attempt in AttemptsOf(cut, t.key.run, next.id);
    }
    assert AttemptsOf(MarkedRows(t, cut), t.key.run, next.id) == AttemptsOf(rows, t.key.run, next.id) + {k.attempt};
    assert k in rows <==> k.attempt in AttemptsOf(rows, t.key.run, next.id);
  }

  /** Every crash point of the step is survived: the step does not count or
      gather, or its target row is there already, or it does not block itself. */
  ghost predicate Sturdy(t: Turn, rows: Rows) {
    match Entered(t)
    case None => true
    case Some(next) =>
      && (Counted(next) ==> RowKey(t.key.run, next.id, NextAttempt(t, next, rows)) in rows)
      && (next.shape == FAN_IN && AllDone(rows, t.key.run, Predecessors(t.env.pipeline.edges, next.id)) ==>
            !SelfBlocking(t, next, rows))
  }

  lemma SameTail(t: Turn, rows: Rows, j: nat)
    requires t.key in rows && Marked(t, rows[t.key]) == rows[t.key]
    requires forall k | k in rows :: k.attempt >= 1
    requires j <= |TailOf(t, rows).dispatch|
    requires j <= 1 || Sturdy(t, rows)
    ensures
      var cut := rows + EffectOf(TailOf(t, rows).dispatch[..j]).rows;
      TailOf(t, MarkedRows(t, cut)) == TailOf(t, rows)
  {
    hide TailOf, Sturdy, EnterTail, Entered;
    var cut := rows + EffectOf(TailOf(t, rows).dispatch[..j]).rows;
    TailEnters(t, rows, MarkedRows(t, cut));
    TailEnters(t, MarkedRows(t, cut), rows);
    if Entered(t).Some? {
      var next := Entered(t).value;
      if !Reads(next) {
        BlindTail(t, next, rows, MarkedRows(t, cut));
      } else if next.shape == FAN_IN {
        SameFanInTail(t, next, rows, j);
      } else {
        SameCountedTail(t, next, rows, j);
      }
    }
  }

  lemma Unread(t: Turn, rows: Rows, ups: Rows)
    requires t.key in rows && Marked(t, rows[t.key]) == rows[t.key] && ups == map[]
    ensures MarkedRows(t, rows + ups) == rows
  {
  }

  lemma SameFanInTail(t: Turn, next: Node, rows: Rows, j: nat)
    requires t.key in rows && Marked(t, rows[t.key]) == rows[t.key]
    requires forall k | k in rows :: k.attempt >= 1
    requires Entered(t) == Some(next) && next.shape == FAN_IN
    requires j <= |EnterTail(t, next, rows).dispatch|
    requires j <= 1 || Sturdy(t, rows)
    ensures
      var cut := rows + EffectOf(EnterTail(t, next, rows).dispatch[..j]).rows;
      EnterTail(t, next, MarkedRows(t, cut)) == EnterTail(t, next, rows)
  {
    hide Entered, FanInTail, SelfBlocking, AllDone;
    var ups := EffectOf(FanInTail(t, next, rows).dispatch[..j]).rows;
    if FanInTail(t, next, rows).dispatch == [] {
      Unread(t, rows, ups);
    } else {
      FanInTailShape(t, next, rows, j);
      if j <= 1 {
        Unread(t, rows, ups);
      } else {
        var first := RowKey(t.key.run, next.id, 1);
        assert rows + ups == rows[first := ups[first]];
        FanInSurvives(t, next, rows, ups[first]);
        SameFanIn(t, next, rows, MarkedRows(t, rows + ups));
      }
    }
  }

  lemma SameCountedTail(t: Turn, next: Node, rows: Rows, j: nat)
    requires t.key in rows && Marked(t, rows[t.key]) == rows[t.key]
    requires Entered(t) == Some(next) && Counted(next)
    requires j <= |EnterTail(t, next, rows).dispatch|
    requires j <= 1 || Sturdy(t, rows)
    ensures
      var cut := rows + EffectOf(EnterTail(t, next, rows).dispatch[..j]).rows;
      EnterTail(t, next, MarkedRows(t, cut)) == EnterTail(t, next, rows)
  {
    hide Entered, EnterTail, CountedTail, NextAttempt;
    var attempt := NextAttempt(t, next, rows);
    CountedEnters(t, next, rows);
    var ups := EffectOf(CountedTail(t, next, attempt).dispatch[..j]).rows;
    CountedEnters(t, next, MarkedRows(t, rows + ups));
    if CountedTail(t, next, attempt).dispatch == [] {
      Unread(t, rows, ups);
    } else {
      CountedTailShape(t, next, attempt, j);
      if j <= 1 {
        Unread(t, rows, ups);
      } else {
        var k := RowKey(t.key.run, next.id, attempt);
        assert rows + ups == rows[k := ups[k]];
        CountGrows(t, next, rows, ups[k]);
      }
    }
  }

  lemma FanInTailShape(t: Turn, next: Node, rows: Rows, j: nat)
    requires FanInTail(t, next, rows).dispatch != [] && j <= |FanInTail(t, next, rows).dispatch|
    ensures AllDone(rows, t.key.run, Predecessors(t.env.pipeline.edges, next.id))
    ensures FanInTail(t, next, rows).exit == FanInFired && |FanInTail(t, next, rows).dispatch| == 2
    ensures
      var first := RowKey(t.key.run, next.id, 1);
      EffectOf(FanInTail(t, next, rows).dispatch[..j]).rows ==
        if j >= 2 then map[first := DispatchedRow(first, Predecessors(t.env.pipeline.edges, next.id), next.goalGate)]
          else map[]
  {
    hide ForNode, KeyText, AllDone, FanInContext;
    var first := RowKey(t.key.run, next.id, 1);
    var preds := Predecessors(t.env.pipeline.edges, next.id);
    var card := CardFor(t.env.pipeline, next, FanInContext(t, next, rows), [t.event.task]);
    UnitEffect(first, DispatchedRow(first, preds, next.goalGate), card, [], j);
    assert FanInTail(t, next, rows).dispatch ==
      [Create(KeyText(first), card), Upsert(first, DispatchedRow(first, preds, next.goalGate))] + [];
  }

  lemma CountedTailShape(t: Turn, next: Node, attempt: nat, j: nat)
    requires CountedTail(t, next, attempt).dispatch != [] && j <= |CountedTail(t, next, attempt).dispatch|
    ensures CountedTail(t, next, attempt).exit == if next.shape == HUMAN then HumanPaused else Forwarded
    ensures CountedTail(t, next, attempt).saved == Some(CountedSave(t, next))
    ensures ForNode(RowKey(t.key.run, next.id, attempt)) != Raised
    ensures
      var tail, k := CountedTail(t, next, attempt), RowKey(t.key.run, next.id, attempt);
      var card := CardFor(t.env.pipeline, next, t.run.context, [t.event.task]);
      && |tail.dispatch| == (if next.shape == HUMAN then 3 else 2)
      && EffectOf(tail.dispatch[..j]) == Effect(
           if j >= 2 then map[k := DispatchedRow(k, {t.key.node}, next.goalGate)] else map[],
           if j >= 1 then map[KeyText(k) := card] else map[],
           if j >= 3 then {TaskOf(k)} else {})
  {
    hide ForNode, KeyText;
    var k := RowKey(t.key.run, next.id, attempt);
    var card := CardFor(t.env.pipeline, next, t.run.context, [t.event.task]);
    var more := if next.shape == HUMAN then [Block(TaskOf(k))] else [];
    UnitEffect(k, DispatchedRow(k, {t.key.node}, next.goalGate), card, more, j);
    assert CountedTail(t, next, attempt).dispatch ==
      [Create(KeyText(k), card), Upsert(k, DispatchedRow(k, {t.key.node}, next.goalGate))] + more;
  }

  // ---- Convergence --------------------------------------------------------

  /** Points before the row the step adds, or any point of a sturdy step. */
  ghost predicate Survivable(env: Env, s: State, e: Event, k: nat) {
    TurnAt(env, s, e).Some? ==>
      var t := TurnAt(env, s, e).value;
      k <= 2 || Sturdy(t, MarkedRows(t, s.rows))
  }

  /** A crash leaves the save unwritten. */
  ghost predicate CutShort(env: Env, s: State, e: Event, k: nat) {
    TurnAt(env, s, e).Some? ==>
      var t := TurnAt(env, s, e).value;
      k <= |TailOf(t, MarkedRows(t, s.rows)).dispatch| + 1
  }

  /** One crash, then the full step: the end state is that of the uncut step,
      and the step is as sturdy as before. */
  lemma CrashConverges(env: Env, s: State, e: Event, k: nat)
    requires Bijective(s) && CutShort(env, s, e, k) && Survivable(env, s, e, k)
    ensures Step(env, CrashAt(env, s, e, k), e) == Step(env, s, e)
    ensures forall j | CutShort(env, s, e, j) && Survivable(env, s, e, j) ::
      CutShort(env, CrashAt(env, s, e, k), e, j) && Survivable(env, CrashAt(env, s, e, k), e, j)
  {
    hide TailOf, Step, CrashAt, Partway, Bijective, Sturdy;
    if TurnAt(env, s, e) == None {
      NoTurnNoChange(env, s, e, k);
    } else {
      var t := TurnAt(env, s, e).value;
      CrashPoints(env, s, e, k);
      if k > 0 {
        var rows := MarkedRows(t, s.rows);
        var cut := Partway(t, s, TailOf(t, rows).dispatch, k - 1);
        PartwayBijective(t, s, e, env, k - 1);
        AttemptsPositive(t, s);
        SameTail(t, rows, k - 1);
        TailOrderly(t, rows);
        OrderlyPlain(env.pipeline, t.key.run, TailOf(t, rows).dispatch);
        CutRows(t, s, TailOf(t, rows).dispatch, k - 1);
        SameTailSameEnd(env, s, e, t, k - 1);
        TurnFoundAgain(env, s, e, t, cut);
        SturdyKept(t, rows, k - 1);
      }
    }
  }

  lemma SturdyKept(t: Turn, rows: Rows, j: nat)
    requires t.key in rows && Marked(t, rows[t.key]) == rows[t.key]
    requires forall k | k in rows :: k.attempt >= 1
    requires j <= |TailOf(t, rows).dispatch|
    requires j <= 1 || Sturdy(t, rows)
    ensures Sturdy(t, rows) ==> Sturdy(t, MarkedRows(t, rows + EffectOf(TailOf(t, rows).dispatch[..j]).rows))
  {
    hide TailOf, EnterTail, Entered, SelfBlocking;
    TailEnters(t, rows, rows);
    if Sturdy(t, rows) && Entered(t).Some? {
      var next := Entered(t).value;
      if next.shape == FAN_IN {
        FanInSturdyKept(t, next, rows, j);
      } else if Counted(next) {
        CountedSturdyKept(t, next, rows, j);
      }
    }
  }

  lemma FanInSturdyKept(t: Turn, next: Node, rows: Rows, j: nat)
    requires t.key in rows && Marked(t, rows[t.key]) == rows[t.key]
    requires forall k | k in rows :: k.attempt >= 1
    requires Entered(t) == Some(next) && next.shape == FAN_IN && Sturdy(t, rows)
    requires j <= |EnterTail(t, next, rows).dispatch|
    ensures Sturdy(t, MarkedRows(t, rows + EffectOf(EnterTail(t, next, rows).dispatch[..j]).rows))
  {
    hide Entered, FanInTail;
    var ups := EffectOf(FanInTail(t, next, rows).dispatch[..j]).rows;
    if FanInTail(t, next, rows).dispatch == [] {
      Unread(t, rows, ups);
    } else {
      FanInTailShape(t, next, rows, j);
      if j <= 1 {
        Unread(t, rows, ups);
      } else {
        var first := RowKey(t.key.run, next.id, 1);
        assert rows + ups == rows[first := ups[first]];
        FanInSurvives(t, next, rows, ups[first]);
      }
    }
  }

  lemma CountedSturdyKept(t: Turn, next: Node, rows: Rows, j: nat)
    requires t.key in rows && Marked(t, rows[t.key]) == rows[t.key]
    requires Entered(t) == Some(next) && Counted(next) && Sturdy(t, rows)
    requires j <= |EnterTail(t, next, rows).dispatch|
    ensures Sturdy(t, MarkedRows(t, rows + EffectOf(EnterTail(t, next, rows).dispatch[..j]).rows))
  {
    hide Entered, EnterTail, CountedTail, NextAttempt;
    var attempt := NextAttempt(t, next, rows);
    CountedEnters(t, next, rows);
    var ups := EffectOf(CountedTail(t, next, attempt).dispatch[..j]).rows;
    if CountedTail(t, next, attempt).dispatch == [] {
      Unread(t, rows, ups);
    } else {
      CountedTailShape(t, next, attempt, j);
      if j <= 1 {
        Unread(t, rows, ups);
      } else {
        var k := RowKey(t.key.run, next.id, attempt);
        assert rows + ups == rows[k := ups[k]];
        CountGrows(t, next, rows, ups[k]);
      }
    }
  }

  lemma NoTurnNoChange(env: Env, s: State, e: Event, k: nat)
    requires TurnAt(env, s, e) == None
    ensures CrashAt(env, s, e, k) == s
  {
    assert PlanOf(env, s, e).writes == [];
  }

  lemma AttemptsPositive(t: Turn, s: State)
    requires Bijective(s) && t.key in s.rows
    ensures forall k | k in MarkedRows(t, s.rows) :: k.attempt >= 1
    ensures Marked(t, MarkedRows(t, s.rows)[t.key]) == MarkedRows(t, s.rows)[t.key]
  {
  }

  lemma CutRows(t: Turn, s: State, dispatch: seq<Write>, j: nat)
    requires t.key in s.rows && j <= |dispatch| && Plain(dispatch)
    ensures Partway(t, s, dispatch, j).rows == MarkedRows(t, s.rows) + EffectOf(dispatch[..j]).rows
    ensures t.key in Partway(t, s, dispatch, j).rows
  {
    MarkedState(t, s);
    assert Plain(dispatch[..j]);
    PlainEffect(s.(rows := MarkedRows(t, s.rows)), dispatch[..j]);
  }

  /** The state after crashing at each of these points in turn. */
  ghost function Crashed(env: Env, s: State, e: Event, cuts: seq<nat>): State
    decreases |cuts|
  {
    if cuts == [] then s else Crashed(env, CrashAt(env, s, e, cuts[0]), e, cuts[1..])
  }

  /** Any number of crashes at survivable points, then one full run: the same
      end state as the run that never crashed. */
  lemma {:induction false} CrashesConverge(env: Env, s: State, e: Event, cuts: seq<nat>)
    requires Bijective(s)
    requires forall k | k in cuts :: CutShort(env, s, e, k) && Survivable(env, s, e, k)
    ensures Step(env, Crashed(env, s, e, cuts), e) == Step(env, s, e)
    decreases |cuts|
  {
    hide TailOf, Step, CrashAt, Bijective, CutShort, Survivable;
    if cuts != [] {
      assert cuts[0] in cuts;
      CrashConverges(env, s, e, cuts[0]);
      StepKeepsBijective(env, s, e, cuts[0]);
      forall k | k in cuts[1..]
        ensures CutShort(env, CrashAt(env, s, e, cuts[0]), e, k) && Survivable(env, CrashAt(env, s, e, cuts[0]), e, k)
      {
        assert k in cuts;
      }
      CrashesConverge(env, CrashAt(env, s, e, cuts[0]), e, cuts[1..]);
    }
  }

  /** In terms of the exits: a step that is not sturdy enters an ordinary or
      HUMAN node, or a fan-in that is its own predecessor; it raises only if a
      key is refused. */
  lemma SturdyExits(env: Env, s: State, e: Event)
    requires TurnAt(env, s, e).Some? && !Sturdy(TurnAt(env, s, e).value, MarkedRows(TurnAt(env, s, e).value, s.rows))
    ensures Entered(TurnAt(env, s, e).value).Some?
    ensures
      var t, exit := TurnAt(env, s, e).value, PlanOf(env, s, e).exit;
      var next := Entered(t).value;
      if !SafeId(t.key.run) || !SafeId(next.id) then exit == Errored
      else if next.shape == FAN_IN then exit == FanInFired && next.id in Predecessors(env.pipeline.edges, next.id)
      else exit == if next.shape == HUMAN then HumanPaused else Forwarded
  {
    hide TailOf, EnterTail, Entered, Select;
    var t := TurnAt(env, s, e).value;
    var rows := MarkedRows(t, s.rows);
    PlanParts(env, s, e, t);
    TailEnters(t, rows, rows);
    NonSturdyExit(t, Entered(t).value, rows);
  }

  lemma NonSturdyExit(t: Turn, next: Node, rows: Rows)
    requires Entered(t) == Some(next) && !Sturdy(t, rows)
    ensures
      var exit := EnterTail(t, next, rows).exit;
      if !SafeId(t.key.run) || !SafeId(next.id) then exit == Errored
      else if next.shape == FAN_IN then exit == FanInFired && next.id in Predecessors(t.env.pipeline.edges, next.id)
      else exit == if next.shape == HUMAN then HumanPaused else Forwarded
  {
    hide Entered, Unit, SafeId, KeyText, NextAttempt, Predecessors, LatestKey;
  }

  // ---- Exactly when a crash is survived -----------------------------------

  /** What a crash after the added row needs so that the second, different
      tail still ends in the same state. `cut` counts the writes done. */
  ghost predicate Coincides(t: Turn, s: State, cut: nat)
    requires t.key in s.rows
  {
    match Entered(t)
    case None => true
    case Some(next) =>
      var rows := MarkedRows(t, s.rows);
      if next.shape == FAN_IN then
        // the unfinished fan-in saves what the fired one would have saved
        t.before.(cursor := t.event.id) == Resumed(t, t.run.(context := FanInContext(t, next, rows)))
      else
        // the attempt after next is there already, just as it would be dispatched
        var first := RowKey(t.key.run, next.id, NextAttempt(t, next, rows));
        var second := first.(attempt := first.attempt + 1);
        && second in rows
        && rows[second] == DispatchedRow(second, {t.key.node}, next.goalGate)
        && (next.shape == HUMAN ==> TaskOf(second) in s.blocked && (cut >= 4 || TaskOf(first) in s.blocked))
  }

  lemma SavesCompare(a: State, b: State, run: string, x: Run, y: Run)
    requires a.runs == b.runs && run in a.runs
    ensures ApplyAll(a, [Save(run, x)]) == ApplyAll(b, [Save(run, y)]) <==>
      a.rows == b.rows && a.cards == b.cards && a.blocked == b.blocked && x == y
  {
    assert [Save(run, x)][..0] == [] && [Save(run, y)][..0] == [];
    if x != y {
      assert a.runs[run := x][run] != b.runs[run := y][run];
    }
  }

  /** The states before the two saves, for a target that had no row yet. */
  lemma FreshCompare(
    s: State, first: RowKey, second: RowKey, one: Row, two: Row, a: Card, b: Card, human: bool, late: bool)
    requires first !in s.rows && SafeKey(first) && second == first.(attempt := first.attempt + 1)
    requires second in s.rows ==> KeyText(second) in s.cards
    ensures
      var whole := Imprint(s, Effect(map[first := one], map[KeyText(first) := a],
        if human then {TaskOf(first)} else {}));
      var cut := Imprint(s, Effect(map[first := one], map[KeyText(first) := a],
        if human && late then {TaskOf(first)} else {}));
      var rerun := Imprint(cut, Effect(map[second := two], map[KeyText(second) := b],
        if human then {TaskOf(second)} else {}));
      whole == rerun <==>
        && second in s.rows && s.rows[second] == two
        && (human ==> TaskOf(second) in s.blocked && (late || TaskOf(first) in s.blocked))
  {
    hide KeyText;
    if TaskOf(first) == TaskOf(second) {
      TaskOfInjective(first, second);
    }
    RowsCompare(s.rows, first, second, one, two);
    BlockedCompare(s.blocked, TaskOf(first), TaskOf(second), late);
    assert s.blocked + {} == s.blocked;
    if second in s.rows {
      CardsCompare(s.cards, KeyText(first), KeyText(second), a, b);
    }
  }

  lemma RowsCompare(rows: Rows, first: RowKey, second: RowKey, one: Row, two: Row)
    requires first !in rows && first != second
    ensures rows + map[first := one] == rows + map[first := one] + map[second := two] <==>
      second in rows && rows[second] == two
  {
    var whole, rerun := rows + map[first := one], rows + map[first := one] + map[second := two];
    assert second in rerun && rerun[second] == two;
  }

  lemma CardsCompare(cards: map<string, Card>, first: string, second: string, a: Card, b: Card)
    requires second in cards
    ensures map[first := a] + cards == map[second := b] + (map[first := a] + cards)
  {
  }

  lemma BlockedCompare(blocked: set<TaskId>, one: TaskId, two: TaskId, late: bool)
    requires one != two
    ensures blocked + {one} == blocked + (if late then {one} else {}) + {two} <==>
      two in blocked && (late || one in blocked)
  {
    var whole, rerun := blocked + {one}, blocked + (if late then {one} else {}) + {two};
    assert two in rerun && one in whole;
  }

  /** The effect of dispatching `next` at `attempt`, after `j` writes. */
  ghost function CountedEffect(t: Turn, next: Node, attempt: nat, j: nat): Effect {
    var k := RowKey(t.key.run, next.id, attempt);
    Effect(
      if j >= 2 then map[k := DispatchedRow(k, {t.key.node}, next.goalGate)] else map[],
      if j >= 1 then map[KeyText(k) := CardFor(t.env.pipeline, next, t.run.context, [t.event.task])] else map[],
      if j >= 3 then {TaskOf(k)} else {})
  }

  function CountedLength(next: Node): nat {
    if next.shape == HUMAN then 3 else 2
  }

  lemma CountedEnd(env: Env, s: State, e: Event, t: Turn, next: Node, attempt: nat)
    requires Bijective(s) && TurnAt(env, s, e) == Some(t)
    requires TailOf(t, MarkedRows(t, s.rows)) == CountedTail(t, next, attempt)
    requires CountedTail(t, next, attempt).dispatch != []
    ensures Step(env, s, e) ==
      ApplyAll(Imprint(s.(rows := MarkedRows(t, s.rows)), CountedEffect(t, next, attempt, CountedLength(next))),
        [Save(t.key.run, CountedSave(t, next))])
  {
    hide Step, Bijective, CountedTail, KeyText, Imprint, TailOf;
    var tail := CountedTail(t, next, attempt);
    CountedTailShape(t, next, attempt, |tail.dispatch|);
    assert tail.dispatch[..|tail.dispatch|] == tail.dispatch;
    EndsBeforeSave(env, s, e, t);
  }

  lemma FreshCut(env: Env, s: State, e: Event, t: Turn, next: Node, attempt: nat, k: nat)
    requires Bijective(s) && TurnAt(env, s, e) == Some(t)
    requires TailOf(t, MarkedRows(t, s.rows)) == CountedTail(t, next, attempt)
    requires CountedTail(t, next, attempt).dispatch != []
    requires 1 <= k <= CountedLength(next) + 1
    ensures
      var cut := CrashAt(env, s, e, k);
      && cut == Imprint(s.(rows := MarkedRows(t, s.rows)), CountedEffect(t, next, attempt, k - 1))
      && Bijective(cut) && cut.runs == s.runs
  {
    hide Bijective, CountedTail, KeyText, Imprint, TailOf, Partway, CrashAt;
    CountedTailShape(t, next, attempt, 0);
    CountedTailShape(t, next, attempt, k - 1);
    CrashPoints(env, s, e, k);
    PartwayBijective(t, s, e, env, k - 1);
  }

  /** A fresh attempt, cut after its row: the re-run dispatches the next one. */
  lemma FreshAttemptExact(env: Env, s: State, e: Event, t: Turn, next: Node, k: nat)
    requires Bijective(s) && TurnAt(env, s, e) == Some(t) && Entered(t) == Some(next) && Counted(next)
    requires TailOf(t, MarkedRows(t, s.rows)).exit != Errored && !Sturdy(t, MarkedRows(t, s.rows))
    requires k >= 3 && CutShort(env, s, e, k)
    ensures Step(env, CrashAt(env, s, e, k), e) == Step(env, s, e) <==> Coincides(t, s, k)
  {
    hide Step, Bijective, CrashAt, Entered, EnterTail, TailOf, CountedTail, NextAttempt, KeyText, Imprint;
    hide CountedEffect;
    var rows := MarkedRows(t, s.rows);
    var attempt := NextAttempt(t, next, rows);
    TailEnters(t, rows, rows);
    CountedEnters(t, next, rows);
    CountedDispatches(t, next, attempt);
    FreshCut(env, s, e, t, next, attempt, k);
    var cut := CrashAt(env, s, e, k);
    FreshRerun(t, next, s.(rows := rows), cut, attempt, k - 1);
    TurnFoundAgain(env, s, e, t, cut);
    CountedEnd(env, s, e, t, next, attempt);
    CountedEnd(env, cut, e, t, next, attempt + 1);
    FreshEndsCompare(s, t, next, attempt, k);
  }

  /** Whether the key is refused does not depend on the attempt. */
  lemma CountedDispatches(t: Turn, next: Node, attempt: nat)
    requires CountedTail(t, next, attempt).exit != Errored
    ensures ForNode(RowKey(t.key.run, next.id, attempt)) != Raised
    ensures forall a | a >= 1 ::
      CountedTail(t, next, a).dispatch != [] && |CountedTail(t, next, a).dispatch| == CountedLength(next)
  {
    hide KeyText, SafeId;
  }

  lemma FreshEndsCompare(s: State, t: Turn, next: Node, attempt: nat, k: nat)
    requires Bijective(s) && t.key in s.rows && t.key.run in s.runs
    requires Entered(t) == Some(next) && Counted(next) && attempt == NextAttempt(t, next, MarkedRows(t, s.rows))
    requires RowKey(t.key.run, next.id, attempt) !in MarkedRows(t, s.rows)
    requires ForNode(RowKey(t.key.run, next.id, attempt)) != Raised
    requires 3 <= k <= CountedLength(next) + 1
    ensures
      var marked := s.(rows := MarkedRows(t, s.rows));
      var whole := Imprint(marked, CountedEffect(t, next, attempt, CountedLength(next)));
      var cut := Imprint(marked, CountedEffect(t, next, attempt, k - 1));
      var rerun := Imprint(cut, CountedEffect(t, next, attempt + 1, CountedLength(next)));
      var save := [Save(t.key.run, CountedSave(t, next))];
      ApplyAll(whole, save) == ApplyAll(rerun, save) <==> Coincides(t, s, k)
  {
    hide Bijective, Entered, NextAttempt, KeyText, Imprint, ApplyAll;
    var marked := s.(rows := MarkedRows(t, s.rows));
    var first := RowKey(t.key.run, next.id, attempt);
    var second := first.(attempt := attempt + 1);
    var card := CardFor(t.env.pipeline, next, t.run.context, [t.event.task]);
    SecondHasCard(s, MarkedRows(t, s.rows), t, second);
    FreshCompare(marked, first, second, DispatchedRow(first, {t.key.node}, next.goalGate),
      DispatchedRow(second, {t.key.node}, next.goalGate), card, card, next.shape == HUMAN, k >= 4);
    var whole := Imprint(marked, CountedEffect(t, next, attempt, CountedLength(next)));
    var cut := Imprint(marked, CountedEffect(t, next, attempt, k - 1));
    var rerun := Imprint(cut, CountedEffect(t, next, attempt + 1, CountedLength(next)));
    ImprintRuns(marked, CountedEffect(t, next, attempt, CountedLength(next)));
    ImprintRuns(marked, CountedEffect(t, next, attempt, k - 1));
    ImprintRuns(cut, CountedEffect(t, next, attempt + 1, CountedLength(next)));
    SavesCompare(whole, rerun, t.key.run, CountedSave(t, next), CountedSave(t, next));
  }

  lemma ImprintRuns(s: State, e: Effect)
    ensures Imprint(s, e).runs == s.runs
  {
  }

  lemma SecondHasCard(s: State, rows: Rows, t: Turn, second: RowKey)
    requires Bijective(s) && t.key in s.rows && rows == MarkedRows(t, s.rows)
    ensures second in rows ==> KeyText(second) in s.cards
  {
  }

  /** What the re-run sees after a fresh attempt's row: nothing to re-mark, one
      more row to count, and so the tail of the next attempt. */
  lemma FreshRerun(t: Turn, next: Node, marked: State, cut: State, attempt: nat, j: nat)
    requires t.key in marked.rows && Marked(t, marked.rows[t.key]) == marked.rows[t.key]
    requires Entered(t) == Some(next) && Counted(next) && attempt == NextAttempt(t, next, marked.rows)
    requires RowKey(t.key.run, next.id, attempt) !in marked.rows
    requires j >= 2 && cut == Imprint(marked, CountedEffect(t, next, attempt, j))
    ensures t.key in cut.rows && cut.(rows := MarkedRows(t, cut.rows)) == cut
    ensures TailOf(t, MarkedRows(t, cut.rows)) == CountedTail(t, next, attempt + 1)
  {
    hide TailOf, EnterTail, Entered, CountedTail, NextAttempt, KeyText;
    var first := RowKey(t.key.run, next.id, attempt);
    var row := DispatchedRow(first, {t.key.node}, next.goalGate);
    assert cut.rows == marked.rows[first := row];
    assert MarkedRows(t, cut.rows) == cut.rows;
    CountGrows(t, next, marked.rows, row);
    TailEnters(t, cut.rows, cut.rows);
    CountedEnters(t, next, cut.rows);
  }

  /** A fan-in that blocks itself, cut after its row: what the re-run finds. */
  lemma SelfBlockedCut(env: Env, s: State, e: Event, t: Turn, next: Node)
    requires Bijective(s) && TurnAt(env, s, e) == Some(t) && Entered(t) == Some(next) && next.shape == FAN_IN
    requires TailOf(t, MarkedRows(t, s.rows)).exit != Errored && !Sturdy(t, MarkedRows(t, s.rows))
    requires CutShort(env, s, e, 3)
    ensures
      var rows, cut := MarkedRows(t, s.rows), CrashAt(env, s, e, 3);
      && Bijective(cut) && cut.runs == s.runs && TurnAt(env, cut, e) == Some(t)
      && t.key in cut.rows && cut.(rows := MarkedRows(t, cut.rows)) == cut
      && cut == Imprint(s.(rows := rows), EffectOf(TailOf(t, rows).dispatch))
      && TailOf(t, rows).saved == Some(Resumed(t, t.run.(context := FanInContext(t, next, rows))))
      && TailOf(t, MarkedRows(t, cut.rows)) == Tail([], Some(t.before.(cursor := t.event.id)), FanInWaiting)
  {
    hide Step, Bijective, CrashAt, Entered, EnterTail, FanInTail, TailOf, KeyText, Imprint, Partway, FanInContext;
    var rows := MarkedRows(t, s.rows);
    TailEnters(t, rows, rows);
    FanInFires(t, next, rows);
    FanInTailShape(t, next, rows, 2);
    var tail := FanInTail(t, next, rows);
    assert tail.dispatch[..2] == tail.dispatch;
    CrashPoints(env, s, e, 3);
    PartwayBijective(t, s, e, env, 2);
    var cut := CrashAt(env, s, e, 3);
    SelfBlocked(t, next, s.(rows := rows), cut, EffectOf(tail.dispatch));
    TurnFoundAgain(env, s, e, t, cut);
  }

  /** The re-run only waits: its context is the one before the merge. */
  lemma SelfBlockingExact(env: Env, s: State, e: Event, t: Turn, next: Node)
    requires Bijective(s) && TurnAt(env, s, e) == Some(t) && Entered(t) == Some(next) && next.shape == FAN_IN
    requires TailOf(t, MarkedRows(t, s.rows)).exit != Errored && !Sturdy(t, MarkedRows(t, s.rows))
    requires CutShort(env, s, e, 3)
    ensures Step(env, CrashAt(env, s, e, 3), e) == Step(env, s, e) <==> Coincides(t, s, 3)
    ensures Step(env, CrashAt(env, s, e, 3), e).runs == s.runs[t.key.run := t.before.(cursor := e.id)]
    ensures Step(env, s, e).runs ==
      s.runs[t.key.run := Resumed(t, t.run.(context := FanInContext(t, next, MarkedRows(t, s.rows))))]
  {
    hide Step, Bijective, CrashAt, Entered, TailOf, KeyText, Imprint, FanInContext, Sturdy, EffectOf;
    var rows, cut := MarkedRows(t, s.rows), CrashAt(env, s, e, 3);
    SelfBlockedCut(env, s, e, t, next);
    EndsBeforeSave(env, s, e, t);
    EndsBeforeSave(env, cut, e, t);
    StepRuns(env, s, e, t);
    StepRuns(env, cut, e, t);
    ImprintNothing(cut);
    SavesCompare(cut, cut, t.key.run, Resumed(t, t.run.(context := FanInContext(t, next, rows))),
      t.before.(cursor := t.event.id));
  }

  lemma FanInFires(t: Turn, next: Node, rows: Rows)
    requires next.shape == FAN_IN && EnterTail(t, next, rows).exit != Errored
    requires AllDone(rows, t.key.run, Predecessors(t.env.pipeline.edges, next.id))
    ensures EnterTail(t, next, rows) == FanInTail(t, next, rows)
    ensures FanInTail(t, next, rows).dispatch != [] && |FanInTail(t, next, rows).dispatch| == 2
    ensures FanInTail(t, next, rows).saved == Some(Resumed(t, t.run.(context := FanInContext(t, next, rows))))
  {
    hide KeyText, SafeId, FanInContext, AllDone;
  }

  lemma SelfBlocked(t: Turn, next: Node, marked: State, cut: State, done: Effect)
    requires t.key in marked.rows && Marked(t, marked.rows[t.key]) == marked.rows[t.key]
    requires Entered(t) == Some(next) && next.shape == FAN_IN && SelfBlocking(t, next, marked.rows)
    requires AllDone(marked.rows, t.key.run, Predecessors(t.env.pipeline.edges, next.id))
    requires
      var first := RowKey(t.key.run, next.id, 1);
      done.rows == map[first := DispatchedRow(first, Predecessors(t.env.pipeline.edges, next.id), next.goalGate)]
    requires cut == Imprint(marked, done)
    ensures t.key in cut.rows && cut.(rows := MarkedRows(t, cut.rows)) == cut
    ensures TailOf(t, MarkedRows(t, cut.rows)) == Tail([], Some(t.before.(cursor := t.event.id)), FanInWaiting)
  {
    hide TailOf, Entered, KeyText;
    var run, first := t.key.run, RowKey(t.key.run, next.id, 1);
    var preds := Predecessors(t.env.pipeline.edges, next.id);
    assert cut.rows == marked.rows[first := done.rows[first]];
    assert MarkedRows(t, cut.rows) == cut.rows;
    AttemptsAfter(marked.rows, first, done.rows[first], next.id);
    assert IsDone(marked.rows, LatestKey(marked.rows, run, next.id));
    assert 1 in AttemptsOf(marked.rows, run, next.id);
    assert AttemptsOf(cut.rows, run, next.id) == AttemptsOf(marked.rows, run, next.id);
    assert !IsDone(cut.rows, LatestKey(cut.rows, run, next.id));
    TailEnters(t, cut.rows, cut.rows);
  }

  lemma ImprintNothing(s: State)
    ensures Imprint(s, EffectOf([])) == s
  {
    assert s.rows + map[] == s.rows && map[] + s.cards == s.cards && s.blocked + {} == s.blocked;
  }

  /** A crash at point `k` of a step that does not raise is survived iff it
      comes before the added row, or the step is sturdy, or the two different
      tails happen to coincide. */
  lemma CrashSurvivedExactly(env: Env, s: State, e: Event, k: nat)
    requires Bijective(s) && TurnAt(env, s, e).Some? && CutShort(env, s, e, k)
    requires PlanOf(env, s, e).exit != Errored
    ensures
      var t := TurnAt(env, s, e).value;
      var survived := Step(env, CrashAt(env, s, e, k), e) == Step(env, s, e);
      survived <==> k <= 2 || Sturdy(t, MarkedRows(t, s.rows)) || Coincides(t, s, k)
  {
    hide Step, Bijective, CrashAt, TailOf, Sturdy, Coincides;
    var t := TurnAt(env, s, e).value;
    PlanParts(env, s, e, t);
    if k <= 2 || Sturdy(t, MarkedRows(t, s.rows)) {
      CrashConverges(env, s, e, k);
    } else {
      LateCrashExact(env, s, e, t, k);
    }
  }

  lemma LateCrashExact(env: Env, s: State, e: Event, t: Turn, k: nat)
    requires Bijective(s) && TurnAt(env, s, e) == Some(t) && CutShort(env, s, e, k)
    requires TailOf(t, MarkedRows(t, s.rows)).exit != Errored
    requires k >= 3 && !Sturdy(t, MarkedRows(t, s.rows))
    ensures Step(env, CrashAt(env, s, e, k), e) == Step(env, s, e) <==> Coincides(t, s, k)
  {
    hide Step, Bijective, CrashAt, TailOf, Entered, EnterTail, FanInTail, SelfBlocking, AllDone, NextAttempt, Coincides;
    var rows := MarkedRows(t, s.rows);
    TailEnters(t, rows, rows);
    var next := Entered(t).value;
    if next.shape == FAN_IN {
      FanInFires(t, next, rows);
      assert k == 3;
      SelfBlockingExact(env, s, e, t, next);
    } else {
      FreshAttemptExact(env, s, e, t, next, k);
    }
  }
}

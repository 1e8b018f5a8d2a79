/** A pass cut anywhere is finished by the next one. */
module Resumption {
  import opened Basics
  import opened RunState
  import opened Advance
  import opened Invariants
  import opened CrashReplay
  import opened EventLog
  import opened Reconciling
  import opened BatchSize
  import opened Replays

  /** Cut in the step of the pass's own event `event`, after `write` of its writes. */
  datatype Cut = Cut(event: nat, write: nat)

  ghost function OwnPastEvents(s: State, run: string, log: seq<Event>): seq<Event>
    requires run in s.runs
  {
    OwnedOf(s, run, Past(log, s.runs[run].cursor))
  }

  /** The state when the pass comes to its own event `i`. */
  ghost function Before(env: Env, s: State, run: string, log: seq<Event>, i: nat): Pass
    requires run in s.runs && i <= |OwnPastEvents(s, run, log)|
  {
    HandleAll(env, Pass(s, [], false), OwnPastEvents(s, run, log)[..i])
  }

  ghost function CutPass(env: Env, s: State, run: string, log: seq<Event>, c: Cut): State
    requires run in s.runs && c.event < |OwnPastEvents(s, run, log)|
  {
    CrashAt(env, Before(env, s, run, log, c.event).state, OwnPastEvents(s, run, log)[c.event], c.write)
  }

  /** The cut leaves the event's save unwritten, at a point its step survives. */
  ghost predicate SurvivesCut(env: Env, s: State, run: string, log: seq<Event>, c: Cut)
    requires run in s.runs
  {
    && c.event < |OwnPastEvents(s, run, log)|
    && CutShort(env, Before(env, s, run, log, c.event).state, OwnPastEvents(s, run, log)[c.event], c.write)
    && Survivable(env, Before(env, s, run, log, c.event).state, OwnPastEvents(s, run, log)[c.event], c.write)
  }

  /** A pass that raises nothing and during which no logged event becomes owned. */
  ghost predicate Steady(env: Env, s: State, run: string, log: seq<Event>) {
    && InOrder(log) && Bijective(s) && run in s.runs
    && NoLateOwner(env, Pass(s, [], false), run, Past(log, s.runs[run].cursor))
    && !HandleAll(env, Pass(s, [], false), OwnPastEvents(s, run, log)).raised
  }

  // ---- One cut -----------------------------------------------------------------

  lemma CutRowsBetween(env: Env, s: State, e: Event, j: nat)
    requires Bijective(s) && CutShort(env, s, e, j)
    ensures
      var cut := CrashAt(env, s, e, j);
      Bijective(cut) && cut.runs == s.runs && s.rows.Keys <= cut.rows.Keys <= Step(env, s, e).rows.Keys
  {
    hide TailOf, Bijective, Step, CrashAt, Partway, Imprint;
    if TurnAt(env, s, e) == None {
      NoTurnNoChange(env, s, e, j);
      NothingPlanned(env, s, e);
      NoStep(env, s, e);
    } else {
      var t := TurnAt(env, s, e).value;
      var rows := MarkedRows(t, s.rows);
      var dispatch := TailOf(t, rows).dispatch;
      CrashPoints(env, s, e, j);
      TurnKeeps(env, s, e, t);
      if j > 0 {
        PartwayBijective(t, s, e, env, j - 1);
        EndsBeforeSave(env, s, e, t);
        PrefixEffect(dispatch, j - 1);
        RowsBetween(s.(rows := rows), EffectOf(dispatch[..j - 1]), EffectOf(dispatch), t.key.run,
          TailOf(t, rows).saved);
      }
    }
  }

  lemma RowsBetween(m: State, a: Effect, b: Effect, run: string, saved: Option<Run>)
    requires Within(a, b)
    ensures m.rows.Keys <= Imprint(m, a).rows.Keys <= ApplyAll(Imprint(m, b), Saves(run, saved)).rows.Keys
  {
    assert saved.Some? ==> Saves(run, saved)[..0] == [];
  }

  /** The interrupted step, run again, ends the same and does not raise either. */
  lemma RerunStep(env: Env, s: State, run: string, e: Event, j: nat)
    requires Bijective(s) && run in s.runs && Owned(s, run, e) && s.runs[run].cursor < e.id
    requires PlanOf(env, s, e).exit != Errored && CutShort(env, s, e, j) && Survivable(env, s, e, j)
    ensures
      var cut := CrashAt(env, s, e, j);
      Step(env, cut, e) == Step(env, s, e) && PlanOf(env, cut, e).exit != Errored
  {
    hide PlanOf, Bijective, Owned, CrashAt, CutShort, Survivable;
    var cut := CrashAt(env, s, e, j);
    CrashConverges(env, s, e, j);
    CutRowsBetween(env, s, e, j);
    SavedCursor(env, s, run, e);
    if PlanOf(env, cut, e).exit == Errored {
      RaisedKeepsRuns(env, cut, e);
    }
  }

  lemma {:induction false} HandleSame(env: Env, p: Pass, q: Pass, events: seq<Event>)
    requires p.state == q.state && p.raised == q.raised
    ensures HandleAll(env, p, events).state == HandleAll(env, q, events).state
    ensures HandleAll(env, p, events).raised == HandleAll(env, q, events).raised
    decreases |events|
  {
    hide PlanOf;
    if events != [] {
      HandleSame(env, p, q, events[..|events| - 1]);
    }
  }

  /** The own events behind the `i`th are the rest of the own events. */
  lemma OwnRest(s: State, run: string, log: seq<Event>, cursor: int, i: nat)
    requires InOrder(log) && i <= |OwnedOf(s, run, Past(log, cursor))|
    ensures
      var own := OwnedOf(s, run, Past(log, cursor));
      var rest := Past(log, if i == 0 then cursor else own[i - 1].id);
      OwnedOf(s, run, rest) == own[i..] && forall e | e in rest :: e in Past(log, cursor)
  {
    hide Past, Owned, OwnedOf;
    var past := Past(log, cursor);
    var own := OwnedOf(s, run, past);
    if i > 0 {
      assert own[i - 1] in own;
      var m :| 0 <= m < |past| && past[m] == own[i - 1];
      PastContinues(log, cursor, m + 1);
      OwnedSplit(s, run, past, m);
      PastInOrder(log, cursor);
      OwnedInOrder(s, run, past);
      SamePlace(own, i - 1, |OwnedOf(s, run, past[..m])|);
      assert own[i..] == OwnedOf(s, run, past[m + 1..]);
    }
  }

  lemma OwnedSplit(s: State, run: string, past: seq<Event>, m: nat)
    requires m < |past| && Owned(s, run, past[m])
    ensures OwnedOf(s, run, past) == OwnedOf(s, run, past[..m]) + [past[m]] + OwnedOf(s, run, past[m + 1..])
  {
    hide Owned;
    assert past == past[..m + 1] + past[m + 1..];
    OwnedConcat(s, run, past[..m + 1], past[m + 1..]);
    assert past[..m + 1][..m] == past[..m];
  }

  lemma SamePlace(own: seq<Event>, i: nat, j: nat)
    requires InOrder(own) && i < |own| && j < |own| && own[i] == own[j]
    ensures i == j
  {
  }

  /** Up to any own event nothing has raised, and the cursor is the last one's id. */
  lemma BeforeFacts(env: Env, s: State, run: string, log: seq<Event>, i: nat)
    requires Steady(env, s, run, log) && i <= |OwnPastEvents(s, run, log)|
    ensures
      var own, b := OwnPastEvents(s, run, log), Before(env, s, run, log, i);
      && !b.raised && Bijective(b.state) && run in b.state.runs
      && b.state.runs[run].cursor == (if i == 0 then s.runs[run].cursor else own[i - 1].id)
      && (forall e | Owned(s, run, e) :: Owned(b.state, run, e))
      && HandleAll(env, Pass(s, [], false), own) == HandleAll(env, b, own[i..])
      && (i < |own| ==> Owned(s, run, own[i]) && b.state.runs[run].cursor < own[i].id)
  {
    hide Past, Owned, OwnedOf, Bijective, HandleAll, NoLateOwner;
    var o := Pass(s, [], false);
    var own := OwnPastEvents(s, run, log);
    assert own == own[..i] + own[i..];
    HandleConcat(env, o, own[..i], own[i..]);
    HandleKeeps(env, o, own[..i]);
    if Before(env, s, run, log, i).raised {
      HandleRaised(env, Before(env, s, run, log, i), own[i..]);
    }
    PastInOrder(log, s.runs[run].cursor);
    PastMembers(log, s.runs[run].cursor);
    OwnedInOrder(s, run, Past(log, s.runs[run].cursor));
    assert forall e | e in own[..i] :: e in own;
    assert i < |own| ==> own[i] in own;
    if i > 0 {
      HandledCursor(env, o, run, own[..i]);
    } else {
      NothingHandled(env, o);
    }
  }

  /** What the next pass finds after the cut: the same own events still to come. */
  lemma CutOwns(env: Env, s: State, run: string, log: seq<Event>, c: Cut)
    requires Steady(env, s, run, log) && SurvivesCut(env, s, run, log, c)
    ensures
      var own, cut := OwnPastEvents(s, run, log), CutPass(env, s, run, log, c);
      && Bijective(cut) && run in cut.runs
      && cut.runs[run].cursor == (if c.event == 0 then s.runs[run].cursor else own[c.event - 1].id)
      && OwnPastEvents(cut, run, log) == own[c.event..]
      && (forall e | e in Past(log, cut.runs[run].cursor) ::
        e in Past(log, s.runs[run].cursor) && (Owned(cut, run, e) <==> Owned(s, run, e)))
  {
    hide Past, Owned, OwnedOf, Bijective, HandleAll, CrashAt, CutShort, Survivable, Step, PlanOf;
    var own, i := OwnPastEvents(s, run, log), c.event;
    var b := Before(env, s, run, log, i);
    BeforeFacts(env, s, run, log, i);
    CutRowsBetween(env, b.state, own[i], c.write);
    var cut := CutPass(env, s, run, log, c);
    OwnRest(s, run, log, s.runs[run].cursor, i);
    var rest := Past(log, cut.runs[run].cursor);
    var next := Handle(env, b, own[i]);
    HandleNext(env, b, own, i);
    HandleKeeps(env, b, [own[i]]);
    HandleSingle(env, b, own[i]);
    HandleKeeps(env, next, own[i + 1..]);
    forall e | e in rest
      ensures Owned(cut, run, e) <==> Owned(s, run, e)
    {
      if Owned(s, run, e) {
        OwnedStays(b.state, cut, run, e);
      }
      if Owned(cut, run, e) {
        OwnedStays(cut, next.state, run, e);
      }
    }
    OwnedSame(cut, s, run, rest);
  }

  lemma HandleNext(env: Env, b: Pass, own: seq<Event>, i: nat)
    requires i < |own| && !b.raised
    ensures HandleAll(env, b, own[i..]) == HandleAll(env, Handle(env, b, own[i]), own[i + 1..])
    ensures Handle(env, b, own[i]).state == Step(env, b.state, own[i])
    ensures Handle(env, b, own[i]).raised == (PlanOf(env, b.state, own[i]).exit == Errored)
  {
    hide PlanOf, HandleAll;
    assert own[i..] == [own[i]] + own[i + 1..];
    HandleConcat(env, b, [own[i]], own[i + 1..]);
    HandleSingle(env, b, own[i]);
  }

  /** One cut: the pass started again from the cut state is steady too, and its
      own events lead to the same end. */
  lemma CutConverges(env: Env, s: State, run: string, log: seq<Event>, c: Cut)
    requires Steady(env, s, run, log) && SurvivesCut(env, s, run, log, c)
    ensures
      var cut := CutPass(env, s, run, log, c);
      && run in cut.runs && Steady(env, cut, run, log)
      && HandleAll(env, Pass(cut, [], false), OwnPastEvents(cut, run, log)).state ==
           HandleAll(env, Pass(s, [], false), OwnPastEvents(s, run, log)).state
  {
    hide Past, Owned, OwnedOf, Bijective, HandleAll, CrashAt, CutShort, Survivable, Step, PlanOf, Handle;
    var own, i := OwnPastEvents(s, run, log), c.event;
    var b, cut := Before(env, s, run, log, i), CutPass(env, s, run, log, c);
    CutOwns(env, s, run, log, c);
    BeforeFacts(env, s, run, log, i);
    HandleNext(env, b, own, i);
    NextNotRaised(env, b, own, i);
    RerunStep(env, b.state, run, own[i], c.write);
    var again := Pass(cut, [], false);
    HandleNext(env, again, own, i);
    HandleSame(env, Handle(env, again, own[i]), Handle(env, b, own[i]), own[i + 1..]);
  }

  lemma NextNotRaised(env: Env, b: Pass, own: seq<Event>, i: nat)
    requires i < |own| && !b.raised && !HandleAll(env, b, own[i..]).raised
    ensures PlanOf(env, b.state, own[i]).exit != Errored
  {
    hide PlanOf, HandleAll, Handle;
    HandleNext(env, b, own, i);
    if Handle(env, b, own[i]).raised {
      HandleRaised(env, Handle(env, b, own[i]), own[i + 1..]);
    }
  }

  // ---- Any number of cuts ----------------------------------------------------------

  /** Each pass is cut, and the next starts from what it left. */
  ghost predicate AllSurvive(env: Env, s: State, run: string, log: seq<Event>, cuts: seq<Cut>)
    decreases |cuts|
  {
    cuts == [] ||
      (run in s.runs && SurvivesCut(env, s, run, log, cuts[0])
        && AllSurvive(env, CutPass(env, s, run, log, cuts[0]), run, log, cuts[1..]))
  }

  ghost function Interrupted(env: Env, s: State, run: string, log: seq<Event>, cuts: seq<Cut>): State
    requires AllSurvive(env, s, run, log, cuts)
    decreases |cuts|
  {
    if cuts == [] then s else Interrupted(env, CutPass(env, s, run, log, cuts[0]), run, log, cuts[1..])
  }

  lemma {:induction false} CutsConverge(env: Env, s: State, run: string, log: seq<Event>, cuts: seq<Cut>)
    requires Steady(env, s, run, log) && AllSurvive(env, s, run, log, cuts)
    ensures
      var z := Interrupted(env, s, run, log, cuts);
      && run in z.runs && Steady(env, z, run, log)
      && HandleAll(env, Pass(z, [], false), OwnPastEvents(z, run, log)).state ==
           HandleAll(env, Pass(s, [], false), OwnPastEvents(s, run, log)).state
    decreases |cuts|
  {
    hide NoLateOwner, CutShort, Survivable, CutPass, HandleAll, OwnPastEvents, Bijective, Past, Before;
    if cuts != [] {
      CutConverges(env, s, run, log, cuts[0]);
      CutsConverge(env, CutPass(env, s, run, log, cuts[0]), run, log, cuts[1..]);
    }
  }

  /** Main result: a pass, interrupted any number of times at survivable points,
      and then run to its end with any batch sizes, leaves the state of the pass
      that was never interrupted. */
  lemma InterruptedPassResumes(env: Env, s: State, run: string, log: seq<Event>, cuts: seq<Cut>, size: nat, other: nat)
    requires size >= 1 && other >= 1 && Steady(env, s, run, log) && AllSurvive(env, s, run, log, cuts)
    ensures
      var z := Interrupted(env, s, run, log, cuts);
      && run in z.runs && !EndOf(env, z, run, log, other).raised
      && EndOf(env, z, run, log, other).state == EndOf(env, s, run, log, size).state
  {
    hide AllSurvive, HandleAll, OwnedOf, Past, PassOver, Interrupted, NoLateOwner;
    CutsConverge(env, s, run, log, cuts);
    var z := Interrupted(env, s, run, log, cuts);
    BatchedIsFold(env, Pass(s, [], false), run, log, s.runs[run].cursor, size);
    BatchedIsFold(env, Pass(z, [], false), run, log, z.runs[run].cursor, other);
  }

  // ---- Every prefix is a cut -----------------------------------------------------------

  /** The first `m` writes are the steps before event `i` and `j` writes of it,
      fewer than all of them. */
  ghost predicate Splits(env: Env, o: Pass, own: seq<Event>, m: nat, i: nat, j: nat) {
    && i < |own| && m <= |HandleAll(env, o, own).writes|
    && var before := HandleAll(env, o, own[..i]);
    && j < |PlanOf(env, before.state, own[i]).writes|
    && HandleAll(env, o, own).writes[..m] == before.writes + PlanOf(env, before.state, own[i]).writes[..j]
  }

  lemma {:induction false} PrefixSplits(env: Env, o: Pass, own: seq<Event>, m: nat) returns (i: nat, j: nat)
    requires !HandleAll(env, o, own).raised && |o.writes| <= m < |HandleAll(env, o, own).writes|
    ensures Splits(env, o, own, m, i, j)
    decreases |own|
  {
    hide PlanOf, ApplyAll;
    var n := |own| - 1;
    var before := HandleAll(env, o, own[..n]);
    if m < |before.writes| {
      i, j := PrefixSplits(env, o, own[..n], m);
      HandleWrites(env, o, own[..n]);
      assert own[..n][..i] == own[..i];
      assert HandleAll(env, o, own).writes[..m] == before.writes[..m];
    } else {
      i, j := n, m - |before.writes|;
      var plan := PlanOf(env, before.state, own[n]).writes;
      assert HandleAll(env, o, own).writes[..m] == before.writes + plan[..j];
    }
  }

  /** A pass's state is its writes applied. */
  lemma {:induction false} HandleApplies(env: Env, s: State, own: seq<Event>)
    ensures
      var after := HandleAll(env, Pass(s, [], false), own);
      after.state == ApplyAll(s, after.writes)
    decreases |own|
  {
    hide PlanOf;
    if own != [] {
      var before := HandleAll(env, Pass(s, [], false), own[..|own| - 1]);
      HandleApplies(env, s, own[..|own| - 1]);
      ApplyConcat(s, before.writes, PlanOf(env, before.state, own[|own| - 1]).writes);
    }
  }

  /** Fewer writes than all of a step that does not raise leave its save out. */
  lemma PartIsShort(env: Env, s: State, e: Event, j: nat)
    requires PlanOf(env, s, e).exit != Errored && j < |PlanOf(env, s, e).writes|
    ensures CutShort(env, s, e, j)
    ensures CrashAt(env, s, e, j) == ApplyAll(s, PlanOf(env, s, e).writes[..j])
  {
    hide TailOf;
    if TurnAt(env, s, e).Some? {
      var t := TurnAt(env, s, e).value;
      PlanParts(env, s, e, t);
      TailSaves(t, MarkedRows(t, s.rows));
    }
  }

  /** Every proper prefix of a steady pass's writes leaves the state of a cut,
      inside the step of one of its own events and before that step's save. */
  lemma PrefixIsCut(env: Env, s: State, run: string, log: seq<Event>, size: nat, m: nat) returns (c: Cut)
    requires Steady(env, s, run, log) && size >= 1 && m < |EndOf(env, s, run, log, size).writes|
    ensures c.event < |OwnPastEvents(s, run, log)|
    ensures ApplyAll(s, EndOf(env, s, run, log, size).writes[..m]) == CutPass(env, s, run, log, c)
    ensures CutShort(env, Before(env, s, run, log, c.event).state, OwnPastEvents(s, run, log)[c.event], c.write)
  {
    hide HandleAll, OwnedOf, Past, PassOver, NoLateOwner, Bijective, CrashAt, CutShort, PlanOf, ApplyAll;
    var o, own := Pass(s, [], false), OwnPastEvents(s, run, log);
    BatchedIsFold(env, o, run, log, s.runs[run].cursor, size);
    var i, j := PrefixSplits(env, o, own, m);
    c := Cut(i, j);
    var before := Before(env, s, run, log, i);
    BeforeFacts(env, s, run, log, i);
    HandleNext(env, before, own, i);
    NextNotRaised(env, before, own, i);
    PartIsShort(env, before.state, own[i], j);
    HandleApplies(env, s, own[..i]);
    ApplyConcat(s, before.writes, PlanOf(env, before.state, own[i]).writes[..j]);
  }

  /** So a pass whose steps survive every cut may be stopped after any of its
      writes: the next one finishes it. */
  lemma StoppedPassResumes(env: Env, s: State, run: string, log: seq<Event>, size: nat, other: nat, m: nat)
    requires Steady(env, s, run, log) && size >= 1 && other >= 1 && m < |EndOf(env, s, run, log, size).writes|
    requires forall c: Cut | c.event < |OwnPastEvents(s, run, log)| ::
      Survivable(env, Before(env, s, run, log, c.event).state, OwnPastEvents(s, run, log)[c.event], c.write)
    ensures
      var z := ApplyAll(s, EndOf(env, s, run, log, size).writes[..m]);
      && run in z.runs && !EndOf(env, z, run, log, other).raised
      && EndOf(env, z, run, log, other).state == EndOf(env, s, run, log, size).state
  {
    hide HandleAll, OwnedOf, Past, PassOver, CutShort, Survivable, ApplyAll, Steady, Before, EndOf, CutPass;
    var c := PrefixIsCut(env, s, run, log, size, m);
    SteadyRun(env, s, run, log);
    var z := CutPass(env, s, run, log, c);
    assert AllSurvive(env, z, run, log, []);
    assert [c][1..] == [];
    assert SurvivesCut(env, s, run, log, c);
    assert AllSurvive(env, s, run, log, [c]);
    assert Interrupted(env, s, run, log, [c]) == z;
    InterruptedPassResumes(env, s, run, log, [c], size, other);
  }

  lemma SteadyRun(env: Env, s: State, run: string, log: seq<Event>)
    requires Steady(env, s, run, log)
    ensures run in s.runs && InOrder(log)
  {
  }
}

/** What a whole pass handles: which events, how far the cursor moves, and
    exactly which events of the run are lost behind it. */
module Replays {
  import opened Basics
  import opened Keys
  import opened RunState
  import opened Advance
  import opened Invariants
  import opened EventLog
  import opened Reconciling
  import opened BatchSize

  // ---- The events a pass hands to the step -------------------------------------

  /** Where the next batch is read from. */
  ghost function NextRead(o: Pass, after: Pass, run: string, own: seq<Event>, last: int): int
    requires own != [] ==> run in after.state.runs
  {
    if own == [] then last else Max(last, after.state.runs[run].cursor)
  }

  /** The own events handed to the step, batch by batch, in order. */
  ghost function Attempted(env: Env, o: Pass, run: string, log: seq<Event>, cursor: int, size: nat): seq<Event>
    requires InOrder(log)
    decreases |Past(log, cursor)|
  {
    var events := Batch(log, cursor, size);
    if events == [] then [] else
      var own := OwnedOf(o.state, run, events);
      var after := HandleAll(env, o, own);
      if after.raised || |events| < size || (own != [] && run !in after.state.runs) then own
      else
        var next := NextRead(o, after, run, own, events[|events| - 1].id);
        BatchAdvances(log, cursor, size, next);
        own + Attempted(env, after, run, log, next, size)
  }

  /** The state when the batch that holds `e` is read. */
  ghost function ReadAt(env: Env, o: Pass, run: string, log: seq<Event>, cursor: int, size: nat, e: Event): State
    requires InOrder(log)
    decreases |Past(log, cursor)|
  {
    var events := Batch(log, cursor, size);
    if events == [] || e in events then o.state else
      var own := OwnedOf(o.state, run, events);
      var after := HandleAll(env, o, own);
      if after.raised || |events| < size || (own != [] && run !in after.state.runs) then o.state
      else
        var next := NextRead(o, after, run, own, events[|events| - 1].id);
        BatchAdvances(log, cursor, size, next);
        ReadAt(env, after, run, log, next, size, e)
  }

  /** The rest of the pass, after a batch that does not end it. */
  ghost predicate Continues(env: Env, o: Pass, run: string, log: seq<Event>, cursor: int, size: nat) {
    var events := Batch(log, cursor, size);
    events != [] && !HandleAll(env, o, OwnedOf(o.state, run, events)).raised && |events| >= size
  }

  lemma NothingHandled(env: Env, o: Pass)
    ensures HandleAll(env, o, []) == o
  {
  }

  /** One batch, and the rest of the log behind it. */
  lemma OneBatchOn(env: Env, o: Pass, run: string, log: seq<Event>, cursor: int, size: nat)
    requires InOrder(log) && Bijective(o.state) && run in o.state.runs && !o.raised
    requires Continues(env, o, run, log, cursor, size)
    ensures
      var events := Batch(log, cursor, size);
      var own := OwnedOf(o.state, run, events);
      var after := HandleAll(env, o, own);
      var last := events[|events| - 1].id;
      && Bijective(after.state) && after.state.runs.Keys == o.state.runs.Keys && !after.raised
      && (forall e | Owned(o.state, run, e) :: Owned(after.state, run, e))
      && NextRead(o, after, run, own, last) == last
      && Past(log, cursor) == events + Past(log, last)
      && |Past(log, last)| < |Past(log, cursor)|
      && PassOver(Some(env), o, run, log, cursor, size) == PassOver(Some(env), after, run, log, last, size)
      && Attempted(env, o, run, log, cursor, size) == own + Attempted(env, after, run, log, last, size)
      && (forall e | e !in events ::
            ReadAt(env, o, run, log, cursor, size, e) == ReadAt(env, after, run, log, last, size, e))
  {
    hide Bijective, Owned, Past, HandleAll, OwnedOf;
    var events := Batch(log, cursor, size);
    var n := |events|;
    assert events == Past(log, cursor)[..n];
    NextCursor(env, o, run, log, cursor, n);
    PastContinues(log, cursor, n);
    BatchAdvances(log, cursor, size, events[n - 1].id);
    HandleKeeps(env, o, OwnedOf(o.state, run, events));
    NothingHandled(env, o);
  }

  /** The last batch. */
  lemma LastBatch(env: Env, o: Pass, run: string, log: seq<Event>, cursor: int, size: nat)
    requires InOrder(log) && !o.raised && run in o.state.runs && Bijective(o.state)
    requires !Continues(env, o, run, log, cursor, size)
    ensures
      var own := OwnedOf(o.state, run, Batch(log, cursor, size));
      && PassOver(Some(env), o, run, log, cursor, size) == HandleAll(env, o, own)
      && Attempted(env, o, run, log, cursor, size) == own
      && (forall e :: ReadAt(env, o, run, log, cursor, size, e) == o.state)
      && (size >= 1 && !HandleAll(env, o, own).raised ==> Batch(log, cursor, size) == Past(log, cursor))
  {
    hide Bijective, Owned, Past, HandleAll, OwnedOf;
    NothingHandled(env, o);
    EmptyFold(env, o, run);
  }

  /** The pass is the step over the attempted events, in order. */
  lemma {:induction false} PassIsAttempted(env: Env, o: Pass, run: string, log: seq<Event>, cursor: int, size: nat)
    requires InOrder(log) && Bijective(o.state) && run in o.state.runs && !o.raised
    ensures PassOver(Some(env), o, run, log, cursor, size) ==
      HandleAll(env, o, Attempted(env, o, run, log, cursor, size))
    decreases |Past(log, cursor)|
  {
    hide Bijective, Owned, Past, HandleAll, OwnedOf, PassOver, Attempted, Continues, ReadAt, Batch;
    if Continues(env, o, run, log, cursor, size) {
      OneBatchOn(env, o, run, log, cursor, size);
      var events := Batch(log, cursor, size);
      var own := OwnedOf(o.state, run, events);
      var after := HandleAll(env, o, own);
      var last := LastId(env, o, run, log, cursor, size);
      PassIsAttempted(env, after, run, log, last, size);
      HandleConcat(env, o, own, Attempted(env, after, run, log, last, size));
    } else {
      LastBatch(env, o, run, log, cursor, size);
    }
  }

  ghost function LastId(env: Env, o: Pass, run: string, log: seq<Event>, cursor: int, size: nat): int
    requires Continues(env, o, run, log, cursor, size)
  {
    Batch(log, cursor, size)[|Batch(log, cursor, size)| - 1].id
  }

  /** They are events past the cursor, in order. */
  lemma {:induction false} AttemptedInOrder(env: Env, o: Pass, run: string, log: seq<Event>, cursor: int, size: nat)
    requires InOrder(log) && Bijective(o.state) && run in o.state.runs && !o.raised
    ensures InOrder(Attempted(env, o, run, log, cursor, size))
    ensures forall e | e in Attempted(env, o, run, log, cursor, size) :: e in Past(log, cursor) && e.id > cursor
    decreases |Past(log, cursor)|
  {
    hide Bijective, Owned, Past, HandleAll, OwnedOf, PassOver, Attempted, Continues, ReadAt;
    PastInOrder(log, cursor);
    PastMembers(log, cursor);
    var events := Batch(log, cursor, size);
    assert InOrder(events) && forall e | e in events :: e in Past(log, cursor);
    OwnedInOrder(o.state, run, events);
    var own := OwnedOf(o.state, run, events);
    if Continues(env, o, run, log, cursor, size) {
      OneBatchOn(env, o, run, log, cursor, size);
      var last := LastId(env, o, run, log, cursor, size);
      AttemptedInOrder(env, HandleAll(env, o, own), run, log, last, size);
      InOrderConcat(events, own, Attempted(env, HandleAll(env, o, own), run, log, last, size), last);
    } else {
      LastBatch(env, o, run, log, cursor, size);
    }
  }

  lemma InOrderConcat(events: seq<Event>, own: seq<Event>, rest: seq<Event>, last: int)
    requires InOrder(events) && events != [] && last == events[|events| - 1].id
    requires InOrder(own) && InOrder(rest) && (forall e | e in own :: e in events)
    requires forall e | e in rest :: e.id > last
    ensures InOrder(own + rest)
  {
    forall i | 0 <= i < |own|
      ensures own[i].id <= last
    {
      assert own[i] in own;
    }
    forall i | 0 <= i < |rest|
      ensures rest[i].id > last
    {
      assert rest[i] in rest;
    }
  }

  /** An event is handed to the step iff the run owns it when its batch is read. */
  lemma {:induction false} AttemptedExactly(env: Env, o: Pass, run: string, log: seq<Event>, cursor: int, size: nat,
    e: Event)
    requires InOrder(log) && size >= 1 && Bijective(o.state) && run in o.state.runs && !o.raised
    requires !PassOver(Some(env), o, run, log, cursor, size).raised && e in Past(log, cursor)
    ensures e in Attempted(env, o, run, log, cursor, size) <==> Owned(ReadAt(env, o, run, log, cursor, size, e), run, e)
    ensures Bijective(ReadAt(env, o, run, log, cursor, size, e))
    ensures Owned(o.state, run, e) ==> Owned(ReadAt(env, o, run, log, cursor, size, e), run, e)
    decreases |Past(log, cursor)|
  {
    hide Bijective, Owned, Past, HandleAll, OwnedOf, PassOver, Attempted, Continues;
    var events := Batch(log, cursor, size);
    var own := OwnedOf(o.state, run, events);
    if e in events && Owned(o.state, run, e) {
      OwnedMember(o.state, run, events, e);
    }
    if Continues(env, o, run, log, cursor, size) {
      OneBatchOn(env, o, run, log, cursor, size);
      var last := LastId(env, o, run, log, cursor, size);
      var after := HandleAll(env, o, own);
      if e in events {
        AttemptedInOrder(env, after, run, log, last, size);
        PastInOrder(log, cursor);
        NotLater(events, e, last);
      } else {
        AttemptedExactly(env, after, run, log, last, size, e);
        assert e !in own;
      }
    } else {
      LastBatch(env, o, run, log, cursor, size);
    }
  }

  lemma NotLater(events: seq<Event>, e: Event, last: int)
    requires InOrder(events) && e in events && last == events[|events| - 1].id
    ensures e.id <= last
  {
  }

  // ---- The cursor never goes back ------------------------------------------------

  /** A step that raises leaves every run as it was. */
  lemma RaisedKeepsRuns(env: Env, s: State, e: Event)
    requires PlanOf(env, s, e).exit == Errored
    ensures ApplyAll(s, PlanOf(env, s, e).writes).runs == s.runs
  {
    hide PlanOf;
    if TurnAt(env, s, e).Some? {
      CursorLast(env, s, e);
      PlainEffect(s, PlanOf(env, s, e).writes);
    } else {
      NothingPlanned(env, s, e);
    }
  }

  /** Over own events past `low`: the stored cursor stays, or becomes the id of
      one of them; it moves if the first does not raise, and to the last one's id
      if none does. */
  lemma {:induction false} HandleMovesCursor(env: Env, o: Pass, run: string, own: seq<Event>, low: int)
    requires Bijective(o.state) && run in o.state.runs && !o.raised && InOrder(own)
    requires o.state.runs[run].cursor <= low && forall e | e in own :: Owned(o.state, run, e) && e.id > low
    ensures
      var after := HandleAll(env, o, own);
      && run in after.state.runs
      && o.state.runs[run].cursor <= after.state.runs[run].cursor
      && (own != [] && !Handle(env, o, own[0]).raised ==> after.state.runs[run].cursor > low)
      && (own != [] && !after.raised ==> after.state.runs[run].cursor == own[|own| - 1].id > low)
    decreases |own|
  {
    hide Bijective, PlanOf, Owned;
    if own != [] {
      var n := |own| - 1;
      assert own[n] in own && forall e | e in own[..n] :: e in own;
      HandleMovesCursor(env, o, run, own[..n], low);
      var before := HandleAll(env, o, own[..n]);
      HandleKeeps(env, o, own[..n]);
      if !before.raised {
        if PlanOf(env, before.state, own[n]).exit == Errored {
          RaisedKeepsRuns(env, before.state, own[n]);
        } else {
          SavedCursor(env, before.state, run, own[n]);
        }
      }
      if n == 0 {
        NothingHandled(env, o);
        assert own[..0] == [];
      }
    }
  }

  /** Main result on the cursor: for every log and every batch size, raising or
      not, the stored cursor never goes back. It moves past the starting point as
      soon as an own event is handled without a raise, and a pass that does not
      raise leaves it at the last own event's id. */
  lemma {:induction false} CursorNeverBack(env: Env, o: Pass, run: string, log: seq<Event>, cursor: int, size: nat)
    requires InOrder(log) && Bijective(o.state) && run in o.state.runs && !o.raised
    requires o.state.runs[run].cursor <= cursor
    ensures
      var end := PassOver(Some(env), o, run, log, cursor, size);
      var own := Attempted(env, o, run, log, cursor, size);
      && run in end.state.runs
      && o.state.runs[run].cursor <= end.state.runs[run].cursor
      && (own == [] ==> end == o)
      && (own != [] && !Handle(env, o, own[0]).raised ==> end.state.runs[run].cursor > cursor)
      && (own != [] && !end.raised ==> end.state.runs[run].cursor == own[|own| - 1].id > cursor)
    decreases |Past(log, cursor)|
  {
    hide Bijective, Owned, Past, HandleAll, OwnedOf, PassOver, Attempted, Continues, Handle, ReadAt;
    var events := Batch(log, cursor, size);
    var own := OwnedOf(o.state, run, events);
    OwnPast(o.state, run, log, cursor, size);
    HandleMovesCursor(env, o, run, own, cursor);
    NothingHandled(env, o);
    if Continues(env, o, run, log, cursor, size) {
      OneBatchOn(env, o, run, log, cursor, size);
      var last, after := LastId(env, o, run, log, cursor, size), HandleAll(env, o, own);
      LastPast(log, cursor, size);
      CursorStillBelow(after, run, own, last, cursor, o);
      CursorNeverBack(env, after, run, log, last, size);
    } else {
      LastBatch(env, o, run, log, cursor, size);
    }
  }

  lemma CursorStillBelow(after: Pass, run: string, own: seq<Event>, last: int, cursor: int, o: Pass)
    requires run in o.state.runs && o.state.runs[run].cursor <= cursor < last
    requires own != [] ==> run in after.state.runs
    requires own == [] ==> after == o
    requires NextRead(o, after, run, own, last) == last
    ensures run in after.state.runs && after.state.runs[run].cursor <= last
  {
  }

  lemma LastPast(log: seq<Event>, cursor: int, size: nat)
    requires Batch(log, cursor, size) != []
    ensures Batch(log, cursor, size)[|Batch(log, cursor, size)| - 1].id > cursor
  {
    hide Past;
    var events := Batch(log, cursor, size);
    PastMembers(log, cursor);
    assert events[|events| - 1] in Past(log, cursor);
  }

  lemma OwnPast(s: State, run: string, log: seq<Event>, cursor: int, size: nat)
    requires InOrder(log)
    ensures
      var own := OwnedOf(s, run, Batch(log, cursor, size));
      InOrder(own) && forall e | e in own :: Owned(s, run, e) && e.id > cursor
  {
    hide Past, Owned, OwnedOf;
    PastInOrder(log, cursor);
    PastMembers(log, cursor);
    var events := Batch(log, cursor, size);
    assert forall e | e in events :: e in Past(log, cursor);
    OwnedInOrder(s, run, events);
  }

  // ---- Which events are lost -------------------------------------------------------

  /** An event of the run, by its key, whether or not its row exists yet. */
  ghost predicate OfRun(run: string, e: Event) {
    exists k :: SafeKey(k) && k.run == run && e.task == TaskOf(k)
  }

  /** On an event of the run, owning it is having its row. */
  lemma OwnedIsRecorded(s: State, run: string, e: Event, k: RowKey)
    requires Bijective(s) && SafeKey(k) && k.run == run && e.task == TaskOf(k)
    ensures Owned(s, run, e) <==> k in s.rows
  {
    hide KeyText, SafeId;
    if k in s.rows {
      FindsOwn(s, k);
    } else if Owned(s, run, e) {
      TaskOfInjective(FindByTask(s.rows, e.task).value, k);
    }
  }

  /** Events at or below the final cursor are never read again. */
  lemma BehindForGood(log: seq<Event>, cursor: int, e: Event)
    requires e.id <= cursor
    ensures e !in Past(log, cursor)
  {
    PastMembers(log, cursor);
  }

  ghost function EndOf(env: Env, s: State, run: string, log: seq<Event>, size: nat): Pass
    requires InOrder(log) && run in s.runs
  {
    PassOver(Some(env), Pass(s, [], false), run, log, s.runs[run].cursor, size)
  }

  ghost function HandledBy(env: Env, s: State, run: string, log: seq<Event>, size: nat): seq<Event>
    requires InOrder(log) && run in s.runs
  {
    Attempted(env, Pass(s, [], false), run, log, s.runs[run].cursor, size)
  }

  ghost function WhenRead(env: Env, s: State, run: string, log: seq<Event>, size: nat, e: Event): State
    requires InOrder(log) && run in s.runs
  {
    ReadAt(env, Pass(s, [], false), run, log, s.runs[run].cursor, size, e)
  }

  /** The run's event is past the start, at or below the final cursor, and was
      never handed to the step. */
  ghost predicate Lost(env: Env, s: State, run: string, log: seq<Event>, size: nat, e: Event)
    requires InOrder(log) && run in s.runs
  {
    var end := EndOf(env, s, run, log, size).state;
    && e in Past(log, s.runs[run].cursor) && OfRun(run, e)
    && run in end.runs && e.id <= end.runs[run].cursor
    && e !in HandledBy(env, s, run, log, size)
  }

  /** Main result on loss, for every log and every positive batch size, when no
      step raises: an event of the run at or below the final cursor is handled
      iff its row exists when its batch is read. */
  lemma LossExactly(env: Env, s: State, run: string, log: seq<Event>, size: nat, e: Event, k: RowKey)
    requires InOrder(log) && size >= 1 && Bijective(s) && run in s.runs && !EndOf(env, s, run, log, size).raised
    requires e in Past(log, s.runs[run].cursor) && SafeKey(k) && k.run == run && e.task == TaskOf(k)
    ensures run in EndOf(env, s, run, log, size).state.runs
    ensures e in HandledBy(env, s, run, log, size) <==> k in WhenRead(env, s, run, log, size, e).rows
    ensures e.id <= EndOf(env, s, run, log, size).state.runs[run].cursor ==>
      (Lost(env, s, run, log, size, e) <==> k !in WhenRead(env, s, run, log, size, e).rows)
  {
    hide Bijective, Past, PassOver, Attempted, ReadAt, KeyText, SafeId, Owned;
    var o := Pass(s, [], false);
    AttemptedExactly(env, o, run, log, s.runs[run].cursor, size, e);
    OwnedIsRecorded(WhenRead(env, s, run, log, size, e), run, e, k);
    CursorNeverBack(env, o, run, log, s.runs[run].cursor, size);
  }

  /** So the promise that every event up to the final cursor is processed holds
      iff each such event's row exists when its batch is read. */
  lemma NothingLostExactly(env: Env, s: State, run: string, log: seq<Event>, size: nat)
    requires InOrder(log) && size >= 1 && Bijective(s) && run in s.runs && !EndOf(env, s, run, log, size).raised
    ensures run in EndOf(env, s, run, log, size).state.runs
    ensures (forall e :: !Lost(env, s, run, log, size, e)) <==>
      forall e, k | e in Past(log, s.runs[run].cursor) && e.id <= EndOf(env, s, run, log, size).state.runs[run].cursor
          && SafeKey(k) && k.run == run && e.task == TaskOf(k) ::
        k in WhenRead(env, s, run, log, size, e).rows
  {
    hide Bijective, Past, EndOf, HandledBy, WhenRead, KeyText, SafeId;
    CursorIn(env, s, run, log, size);
    forall e, k | e in Past(log, s.runs[run].cursor) && e.id <= EndOf(env, s, run, log, size).state.runs[run].cursor
        && SafeKey(k) && k.run == run && e.task == TaskOf(k)
      ensures Lost(env, s, run, log, size, e) <==> k !in WhenRead(env, s, run, log, size, e).rows
    {
      LossExactly(env, s, run, log, size, e, k);
    }
  }

  lemma CursorIn(env: Env, s: State, run: string, log: seq<Event>, size: nat)
    requires InOrder(log) && Bijective(s) && run in s.runs
    ensures
      var end, own := EndOf(env, s, run, log, size), HandledBy(env, s, run, log, size);
      && run in end.state.runs
      && s.runs[run].cursor <= end.state.runs[run].cursor
      && (own == [] ==> end.state == s)
      && (own != [] && !end.raised ==> end.state.runs[run].cursor == own[|own| - 1].id)
  {
    hide Bijective, PassOver, Attempted, Handle;
    CursorNeverBack(env, Pass(s, [], false), run, log, s.runs[run].cursor, size);
  }

  /** A whole log read in one batch: the condition is on the state before the
      pass. An event is lost iff its row is missing there and a later event's is
      not. */
  lemma OneBatchLossExactly(env: Env, s: State, run: string, log: seq<Event>, size: nat, e: Event)
    requires InOrder(log) && size >= 1 && Bijective(s) && run in s.runs && !EndOf(env, s, run, log, size).raised
    requires |Past(log, s.runs[run].cursor)| <= size
    ensures Lost(env, s, run, log, size, e) <==>
      && e in Past(log, s.runs[run].cursor) && OfRun(run, e) && !Owned(s, run, e)
      && exists later :: later in Past(log, s.runs[run].cursor) && Owned(s, run, later) && e.id < later.id
  {
    hide Bijective, PassOver, Attempted, Owned, OfRun, OwnedOf, Past;
    var past := Past(log, s.runs[run].cursor);
    var own := OwnedOf(s, run, past);
    HandledInOneBatch(env, s, run, log, size);
    CursorIn(env, s, run, log, size);
    PastInOrder(log, s.runs[run].cursor);
    PastMembers(log, s.runs[run].cursor);
    OwnedInOrder(s, run, past);
    if e in past && Owned(s, run, e) {
      OwnedMember(s, run, past, e);
    }
    forall later | later in past && Owned(s, run, later)
      ensures own != [] && later.id <= own[|own| - 1].id
    {
      OwnedBound(s, run, past, later);
    }
    if own != [] {
      assert own[|own| - 1] in own;
      if e in past && e.id == own[|own| - 1].id {
        SameIdSame(past, e, own[|own| - 1]);
      }
    }
  }

  lemma SameIdSame(past: seq<Event>, d: Event, e: Event)
    requires InOrder(past) && d in past && e in past && d.id == e.id
    ensures d == e
  {
  }

  lemma HandledInOneBatch(env: Env, s: State, run: string, log: seq<Event>, size: nat)
    requires InOrder(log) && size >= 1 && Bijective(s) && run in s.runs
    requires |Past(log, s.runs[run].cursor)| <= size
    ensures HandledBy(env, s, run, log, size) == OwnedOf(s, run, Past(log, s.runs[run].cursor))
  {
    hide Bijective, Past, PassOver, OwnedOf, HandleAll, Attempted, ReadAt, Continues;
    var o, cursor := Pass(s, [], false), s.runs[run].cursor;
    if Continues(env, o, run, log, cursor, size) {
      OneBatchOn(env, o, run, log, cursor, size);
      WholeBatch(log, cursor, size);
      var after, last := HandleAll(env, o, OwnedOf(s, run, Past(log, cursor))), LastId(env, o, run, log, cursor, size);
      assert |Past(log, cursor)| == |Batch(log, cursor, size)| + |Past(log, last)|;
      NoMore(env, after, run, log, last, size);
    } else {
      LastBatch(env, o, run, log, cursor, size);
      WholeBatch(log, cursor, size);
    }
  }

  lemma WholeBatch(log: seq<Event>, cursor: int, size: nat)
    requires |Past(log, cursor)| <= size
    ensures Batch(log, cursor, size) == Past(log, cursor)
  {
    hide Past;
  }

  lemma NoMore(env: Env, o: Pass, run: string, log: seq<Event>, cursor: int, size: nat)
    requires InOrder(log) && |Past(log, cursor)| == 0
    ensures Attempted(env, o, run, log, cursor, size) == []
  {
    hide Past;
  }

  /** Rows that are new, or still dispatched, stay so unless their own event comes. */
  lemma {:induction false} UntouchedDispatched(env: Env, o: Pass, events: seq<Event>, k: RowKey)
    requires Bijective(o.state) && (k in o.state.rows ==> o.state.rows[k].status == Dispatched)
    requires forall e | e in events :: e.task != TaskOf(k)
    ensures
      var after := HandleAll(env, o, events).state;
      Bijective(after) && (k in after.rows ==> after.rows[k].status == Dispatched)
    decreases |events|
  {
    hide PlanOf, Bijective, KeyText;
    if events != [] {
      var n := |events| - 1;
      assert events[n] in events && forall e | e in events[..n] :: e in events;
      UntouchedDispatched(env, o, events[..n], k);
      var before := HandleAll(env, o, events[..n]);
      StepBijective(env, before.state, events[n]);
      if !before.raised {
        StepLeavesDispatched(env, before.state, events[n], k);
      }
    }
  }

  lemma StepLeavesDispatched(env: Env, s: State, e: Event, k: RowKey)
    requires Bijective(s) && (k in s.rows ==> s.rows[k].status == Dispatched) && e.task != TaskOf(k)
    ensures k in Step(env, s, e).rows ==> Step(env, s, e).rows[k].status == Dispatched
  {
    hide PlanOf, Bijective, KeyText, Step;
    if TurnAt(env, s, e) == None {
      NothingPlanned(env, s, e);
      NoStep(env, s, e);
    } else {
      var t := TurnAt(env, s, e).value;
      OwnTurn(env, s, e, t);
      TurnKeeps(env, s, e, t);
    }
  }

  lemma NoStep(env: Env, s: State, e: Event)
    requires PlanOf(env, s, e).writes == []
    ensures Step(env, s, e) == s
  {
  }

  lemma OwnTurn(env: Env, s: State, e: Event, t: Turn)
    requires Bijective(s) && TurnAt(env, s, e) == Some(t)
    ensures e.task == TaskOf(t.key) && t.key in s.rows
  {
  }

  /** An event without a row when its batch is read is lost for good as soon as
      a later event is handled, in whatever batch: the cursor has passed it, no
      log brings it back, and its row, should it appear, stays dispatched unless
      another event of the same task is handled. */
  lemma OrphanEventLost(env: Env, s: State, run: string, log: seq<Event>, size: nat, e: Event, k: RowKey, later: Event)
    requires InOrder(log) && size >= 1 && Bijective(s) && run in s.runs && !EndOf(env, s, run, log, size).raised
    requires e in Past(log, s.runs[run].cursor) && SafeKey(k) && k.run == run && e.task == TaskOf(k)
    requires k !in WhenRead(env, s, run, log, size, e).rows
    requires later in HandledBy(env, s, run, log, size) && e.id < later.id
    ensures Lost(env, s, run, log, size, e)
    ensures
      var end := EndOf(env, s, run, log, size).state;
      && run in end.runs && e.id < end.runs[run].cursor
      && (forall longer: seq<Event> :: e !in Past(longer, end.runs[run].cursor))
      && ((forall d | d in HandledBy(env, s, run, log, size) :: d.task != e.task) && k in end.rows ==>
            end.rows[k].status == Dispatched)
  {
    hide Bijective, Past, PassOver, Attempted, ReadAt, KeyText, SafeId, Owned, HandleAll;
    var own := HandledBy(env, s, run, log, size);
    var o, cursor := Pass(s, [], false), s.runs[run].cursor;
    CursorIn(env, s, run, log, size);
    AttemptedInOrder(env, o, run, log, cursor, size);
    NotLater(own, later, own[|own| - 1].id);
    LossExactly(env, s, run, log, size, e, k);
    var end := EndOf(env, s, run, log, size).state;
    forall longer: seq<Event>
      ensures e !in Past(longer, end.runs[run].cursor)
    {
      BehindForGood(longer, end.runs[run].cursor, e);
    }
    if forall d | d in own :: d.task != e.task {
      AttemptedExactly(env, o, run, log, cursor, size, e);
      PassIsAttempted(env, o, run, log, cursor, size);
      OwnedIsRecorded(s, run, e, k);
      OwnedIsRecorded(WhenRead(env, s, run, log, size, e), run, e, k);
      UntouchedDispatched(env, o, own, k);
    }
  }

  /** No batch size saves an event that heads the log without its row, once the
      run owns any later one. */
  lemma EverySizeLoses(env: Env, s: State, run: string, log: seq<Event>, size: nat, k: RowKey, later: Event)
    requires InOrder(log) && size >= 1 && Bijective(s) && run in s.runs && !EndOf(env, s, run, log, size).raised
    requires Past(log, s.runs[run].cursor) != []
    requires
      var e := Past(log, s.runs[run].cursor)[0];
      SafeKey(k) && k.run == run && e.task == TaskOf(k) && k !in s.rows
    requires later in Past(log, s.runs[run].cursor) && Owned(s, run, later)
    ensures Lost(env, s, run, log, size, Past(log, s.runs[run].cursor)[0])
  {
    hide Bijective, Past, PassOver, Attempted, KeyText, SafeId, Owned, Lost;
    var o, cursor := Pass(s, [], false), s.runs[run].cursor;
    var e := Past(log, cursor)[0];
    FirstRead(env, o, run, log, cursor, size);
    AttemptedExactly(env, o, run, log, cursor, size, later);
    PastInOrder(log, cursor);
    OwnedIsRecorded(s, run, e, k);
    FirstIsFirst(Past(log, cursor), later);
    OrphanEventLost(env, s, run, log, size, e, k, later);
  }

  lemma FirstRead(env: Env, o: Pass, run: string, log: seq<Event>, cursor: int, size: nat)
    requires InOrder(log) && size >= 1 && Past(log, cursor) != []
    ensures ReadAt(env, o, run, log, cursor, size, Past(log, cursor)[0]) == o.state
  {
    hide Past;
    assert Batch(log, cursor, size)[0] == Past(log, cursor)[0];
  }

  lemma FirstIsFirst(past: seq<Event>, later: Event)
    requires InOrder(past) && later in past && later != past[0]
    ensures past[0].id < later.id
  {
  }

  // ---- When a pass is silent ---------------------------------------------------------

  /** Nothing is attempted iff the run owns nothing past the cursor. */
  lemma {:induction false} AttemptsNothing(env: Env, o: Pass, run: string, log: seq<Event>, cursor: int, size: nat)
    requires InOrder(log) && size >= 1 && Bijective(o.state) && run in o.state.runs && !o.raised
    ensures Attempted(env, o, run, log, cursor, size) == [] <==>
      forall e | e in Past(log, cursor) :: !Owned(o.state, run, e)
    decreases |Past(log, cursor)|
  {
    hide Bijective, Owned, Past, HandleAll, OwnedOf, PassOver, Attempted, Continues, ReadAt;
    var events := Batch(log, cursor, size);
    NothingHandled(env, o);
    assert forall e | e in events :: e in Past(log, cursor);
    forall e | e in events && Owned(o.state, run, e)
      ensures OwnedOf(o.state, run, events) != []
    {
      OwnedMember(o.state, run, events, e);
    }
    if forall e | e in events :: !Owned(o.state, run, e) {
      NoneOwned(o.state, run, events);
    }
    if Continues(env, o, run, log, cursor, size) {
      OneBatchOn(env, o, run, log, cursor, size);
      AttemptsNothing(env, HandleAll(env, o, OwnedOf(o.state, run, events)), run, log,
        LastId(env, o, run, log, cursor, size), size);
    } else {
      LastBatch(env, o, run, log, cursor, size);
    }
  }

  /** A pass writes nothing iff the run owns no event past its cursor. */
  lemma PassSilentExactly(env: Env, s: State, run: string, log: seq<Event>, size: nat)
    requires InOrder(log) && size >= 1 && Bijective(s) && run in s.runs
    ensures EndOf(env, s, run, log, size) == Pass(s, [], false) <==>
      forall e | e in Past(log, s.runs[run].cursor) :: !Owned(s, run, e)
  {
    hide Bijective, Owned, Past, HandleAll, PassOver, Attempted, PlanOf, Handle;
    var o, cursor := Pass(s, [], false), s.runs[run].cursor;
    AttemptsNothing(env, o, run, log, cursor, size);
    CursorNeverBack(env, o, run, log, cursor, size);
    var own := Attempted(env, o, run, log, cursor, size);
    if own != [] {
      FirstOwned(env, o, run, log, cursor, size);
      PassIsAttempted(env, o, run, log, cursor, size);
      FirstWrite(env, s, run, own[0]);
      HandleOne(env, o, own[0]);
      assert own == [own[0]] + own[1..];
      HandleConcat(env, o, [own[0]], own[1..]);
      HandleSingle(env, o, own[0]);
      HandleWrites(env, Handle(env, o, own[0]), own[1..]);
    }
  }

  /** The first attempted event is owned from the start. */
  lemma {:induction false} FirstOwned(env: Env, o: Pass, run: string, log: seq<Event>, cursor: int, size: nat)
    requires InOrder(log) && Bijective(o.state) && run in o.state.runs && !o.raised
    requires Attempted(env, o, run, log, cursor, size) != []
    ensures Owned(o.state, run, Attempted(env, o, run, log, cursor, size)[0])
    decreases |Past(log, cursor)|
  {
    hide Bijective, Owned, Past, HandleAll, OwnedOf, PassOver, Attempted, Continues, ReadAt;
    var events := Batch(log, cursor, size);
    var own := OwnedOf(o.state, run, events);
    NothingHandled(env, o);
    assert own != [] ==> own[0] in own;
    if Continues(env, o, run, log, cursor, size) {
      OneBatchOn(env, o, run, log, cursor, size);
      if own == [] {
        FirstOwned(env, o, run, log, LastId(env, o, run, log, cursor, size), size);
      }
    } else {
      LastBatch(env, o, run, log, cursor, size);
    }
  }

  /** The second pass, exactly: it is silent iff no event past the end cursor is
      the run's own by then. */
  lemma SecondPassExactly(env: Env, s: State, run: string, log: seq<Event>, size: nat)
    requires InOrder(log) && size >= 1 && Bijective(s) && run in s.runs
    ensures
      var end := EndOf(env, s, run, log, size).state;
      && run in end.runs && Bijective(end)
      && (EndOf(env, end, run, log, size) == Pass(end, [], false) <==>
            forall e | e in Past(log, end.runs[run].cursor) :: !Owned(end, run, e))
  {
    hide Bijective, Owned, Past, HandleAll, PassOver, Attempted;
    var o, cursor := Pass(s, [], false), s.runs[run].cursor;
    CursorNeverBack(env, o, run, log, cursor, size);
    PassIsAttempted(env, o, run, log, cursor, size);
    HandleKeeps(env, o, Attempted(env, o, run, log, cursor, size));
    PassSilentExactly(env, EndOf(env, s, run, log, size).state, run, log, size);
  }

  // ---- What a caller can do ------------------------------------------------------------

  /** Batches of one event decide ownership at the event's own turn: that pass is
      the fold, with no proviso. */
  lemma {:induction false} SizeOneIsFold(env: Env, o: Pass, run: string, log: seq<Event>, cursor: int)
    requires InOrder(log) && Bijective(o.state) && run in o.state.runs && !o.raised
    ensures PassOver(Some(env), o, run, log, cursor, 1) == FoldOwn(env, o, run, Past(log, cursor))
    decreases |Past(log, cursor)|
  {
    hide Bijective, Owned, Past, HandleAll, OwnedOf, PassOver, Attempted, ReadAt, FoldOwn;
    var events := Batch(log, cursor, 1);
    EmptyFold(env, o, run);
    if events == [] {
      LastBatch(env, o, run, log, cursor, 1);
    } else {
      var e := events[0];
      assert events == [e];
      OneEventFold(env, o, run, e);
      var after := FoldOwn(env, o, run, [e]);
      if after.raised {
        LastBatch(env, o, run, log, cursor, 1);
        assert Past(log, cursor) == [e] + Past(log, cursor)[1..];
        FoldConcat(env, o, run, [e], Past(log, cursor)[1..]);
        FoldKeeps(env, o, run, [e]);
        FoldKeeps(env, after, run, Past(log, cursor)[1..]);
      } else {
        OneBatchOn(env, o, run, log, cursor, 1);
        FoldConcat(env, o, run, [e], Past(log, e.id));
        SizeOneIsFold(env, after, run, log, e.id);
      }
    }
  }

  lemma OneEventFold(env: Env, o: Pass, run: string, e: Event)
    ensures FoldOwn(env, o, run, [e]) == HandleAll(env, o, OwnedOf(o.state, run, [e]))
  {
    hide Handle, Owned;
    assert [e][..0] == [];
    EmptyFold(env, o, run);
    HandleSingle(env, o, e);
  }

  /** With every card's row in place before the pass, nothing is lost, whatever
      the batch size. */
  lemma RecordedNothingLost(env: Env, s: State, run: string, log: seq<Event>, size: nat, e: Event)
    requires InOrder(log) && size >= 1 && Bijective(s) && run in s.runs
    requires !EndOf(env, s, run, log, size).raised
    requires Carded(s, Past(log, s.runs[run].cursor)) && NoOrphans(s, run)
    ensures !Lost(env, s, run, log, size, e)
  {
    hide Bijective, Past, PassOver, Attempted, ReadAt, KeyText, SafeId, Owned;
    if e in Past(log, s.runs[run].cursor) && OfRun(run, e) {
      var k :| SafeKey(k) && k.run == run && e.task == TaskOf(k);
      OwnedIsRecorded(s, run, e, k);
      AttemptedExactly(env, Pass(s, [], false), run, log, s.runs[run].cursor, size, e);
    }
  }
}

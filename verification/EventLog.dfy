/** The terminal-event log: the reader's contract and the adapter's batch read. */
module EventLog {
  import opened Values
  import opened RunState
  import opened Advance

  const EVENT_LOG_BATCH_SIZE := 100

  /** A row of the kanban event table; `metadata` is whatever was recorded. */
  datatype RawEvent = RawEvent(id: int, task: string, kind: string, metadata: Value)

  predicate Terminal(kind: string) {
    kind == "completed" || kind == "blocked" || kind == "gave_up" || kind == "crashed" || kind == "timed_out"
  }

  function Mapped(r: RawEvent): Event {
    Event(TaskId(r.task), r.id, match r.metadata case Dict(fields) => fields case _ => map[])
  }

  /** The events past a cursor, in table order. */
  function Past(log: seq<Event>, cursor: int): seq<Event> {
    if log == [] then []
    else if log[0].id > cursor then [log[0]] + Past(log[1..], cursor)
    else Past(log[1..], cursor)
  }

  predicate InOrder(log: seq<Event>) {
    forall i, j | 0 <= i < j < |log| :: log[i].id < log[j].id
  }

  /** A read of at most `n` items. */
  function Prefix<T>(xs: seq<T>, n: nat): (r: seq<T>)
    ensures r <= xs && |r| <= n && (|r| < n ==> r == xs)
  {
    if |xs| <= n then xs else xs[..n]
  }

  /** One batch: the first `size` events past the cursor. */
  function Batch(log: seq<Event>, cursor: int, size: nat): seq<Event> {
    Prefix(Past(log, cursor), size)
  }

  lemma {:induction false} PastMembers(log: seq<Event>, cursor: int)
    ensures forall e :: e in Past(log, cursor) <==> e in log && e.id > cursor
    decreases |log|
  {
    if log != [] {
      PastMembers(log[1..], cursor);
      assert log == [log[0]] + log[1..];
    }
  }

  lemma {:induction false} PastInOrder(log: seq<Event>, cursor: int)
    requires InOrder(log)
    ensures InOrder(Past(log, cursor))
    decreases |log|
  {
    if log != [] {
      PastInOrder(log[1..], cursor);
      PastMembers(log[1..], cursor);
    }
  }

  lemma {:induction false} AllPast(log: seq<Event>, cursor: int)
    requires InOrder(log) && (log != [] ==> log[0].id > cursor)
    ensures Past(log, cursor) == log
    decreases |log|
  {
    if log != [] {
      AllPast(log[1..], cursor);
    }
  }

  lemma {:induction false} PastIndex(log: seq<Event>, n: nat)
    requires InOrder(log) && 0 < n <= |log|
    ensures Past(log, log[n - 1].id) == log[n..]
    decreases n
  {
    var cursor := log[n - 1].id;
    if n == 1 {
      AllPast(log[1..], cursor);
    } else {
      PastIndex(log[1..], n - 1);
      assert log[1..][n - 1..] == log[n..];
    }
  }

  /** Reading past a batch continues where the batch stopped. */
  lemma {:induction false} PastContinues(log: seq<Event>, cursor: int, n: nat)
    requires InOrder(log) && 0 < n <= |Past(log, cursor)|
    ensures Past(log, Past(log, cursor)[n - 1].id) == Past(log, cursor)[n..]
    decreases |log|
  {
    if log[0].id > cursor {
      AllPast(log, cursor);
      PastIndex(log, n);
    } else {
      PastContinues(log[1..], cursor, n);
      PastMembers(log[1..], cursor);
      assert Past(log, cursor)[n - 1] in Past(log, cursor);
    }
  }

  // ---- The adapter ---------------------------------------------------------

  /** What the adapter keeps of the rows it is given. */
  function Kept(rows: seq<RawEvent>, cursor: int): seq<Event> {
    if rows == [] then [] else
      var last := rows[|rows| - 1];
      Kept(rows[..|rows| - 1], cursor) + if Terminal(last.kind) && last.id > cursor then [Mapped(last)] else []
  }

  /** Stable insertion by id. */
  function InsertById(sorted: seq<Event>, e: Event): seq<Event> {
    if sorted == [] || sorted[|sorted| - 1].id <= e.id then sorted + [e]
    else InsertById(sorted[..|sorted| - 1], e) + [sorted[|sorted| - 1]]
  }

  function SortById(es: seq<Event>): seq<Event> {
    if es == [] then [] else InsertById(SortById(es[..|es| - 1]), es[|es| - 1])
  }

  predicate Ordered(es: seq<Event>) {
    forall i, j | 0 <= i < j < |es| :: es[i].id <= es[j].id
  }

  lemma {:induction false} InsertBelow(sorted: seq<Event>, e: Event, bound: int)
    requires e.id <= bound && forall i | 0 <= i < |sorted| :: sorted[i].id <= bound
    ensures forall i | 0 <= i < |InsertById(sorted, e)| :: InsertById(sorted, e)[i].id <= bound
    decreases |sorted|
  {
    if sorted != [] && sorted[|sorted| - 1].id > e.id {
      InsertBelow(sorted[..|sorted| - 1], e, bound);
    }
  }

  lemma {:induction false} InsertPermutes(sorted: seq<Event>, e: Event)
    ensures multiset(InsertById(sorted, e)) == multiset(sorted) + multiset{e}
    decreases |sorted|
  {
    if sorted != [] && sorted[|sorted| - 1].id > e.id {
      InsertPermutes(sorted[..|sorted| - 1], e);
      assert sorted == sorted[..|sorted| - 1] + [sorted[|sorted| - 1]];
    }
  }

  lemma {:induction false} InsertOrdered(sorted: seq<Event>, e: Event)
    requires Ordered(sorted)
    ensures Ordered(InsertById(sorted, e))
    decreases |sorted|
  {
    if sorted != [] && sorted[|sorted| - 1].id > e.id {
      InsertOrdered(sorted[..|sorted| - 1], e);
      InsertBelow(sorted[..|sorted| - 1], e, sorted[|sorted| - 1].id);
    }
  }

  /** The adapter's result is ordered and is a permutation of what it kept. */
  lemma {:induction false} SortOrdered(es: seq<Event>)
    ensures Ordered(SortById(es)) && multiset(SortById(es)) == multiset(es)
    decreases |es|
  {
    if es != [] {
      var n := |es| - 1;
      SortOrdered(es[..n]);
      InsertOrdered(SortById(es[..n]), es[n]);
      InsertPermutes(SortById(es[..n]), es[n]);
      assert es == es[..n] + [es[n]];
    }
  }

  lemma {:induction false} SortNothingToDo(es: seq<Event>)
    requires InOrder(es)
    ensures SortById(es) == es
    decreases |es|
  {
    if es != [] {
      var n := |es| - 1;
      SortNothingToDo(es[..n]);
      assert es == es[..n] + [es[n]];
      assert InsertById(es[..n], es[n]) == es[..n] + [es[n]];
    }
  }

  /** `e` is what a row past the cursor, of one of the five terminal kinds, says. */
  ghost predicate FromTerminalRow(rows: seq<RawEvent>, cursor: int, e: Event) {
    exists r :: r in rows && r.id > cursor && r.kind in {"completed", "blocked", "gave_up", "crashed", "timed_out"}
      && e == Event(TaskId(r.task), r.id, if r.metadata.Dict? then r.metadata.fields else map[])
  }

  /** The adapter keeps the rows of the five terminal kinds past the cursor. */
  lemma {:induction false} KeptMembers(rows: seq<RawEvent>, cursor: int)
    ensures forall e :: e in Kept(rows, cursor) <==> FromTerminalRow(rows, cursor, e)
    decreases |rows|
  {
    if rows != [] {
      var n := |rows| - 1;
      KeptMembers(rows[..n], cursor);
      assert rows == rows[..n] + [rows[n]];
    }
  }

  method ReadSince(rows: seq<RawEvent>, cursor: int) returns (results: seq<Event>)
    ensures results == SortById(Kept(rows, cursor))
    ensures Ordered(results) && multiset(results) == multiset(Kept(rows, cursor))
    ensures forall e :: e in results <==> FromTerminalRow(rows, cursor, e)
  {
    hide FromTerminalRow;
    var kept := [];
    for i := 0 to |rows|
      invariant kept == Kept(rows[..i], cursor)
    {
      assert rows[..i + 1][..i] == rows[..i];
      if !Terminal(rows[i].kind) {
        continue;
      }
      if rows[i].id <= cursor {
        continue;
      }
      kept := kept + [Mapped(rows[i])];
    }
    assert rows[..|rows|] == rows;
    SortOrdered(kept);
    KeptMembers(rows, cursor);
    results := [];
    for i := 0 to |kept|
      invariant results == SortById(kept[..i])
    {
      assert kept[..i + 1][..i] == kept[..i];
      results := InsertById(results, kept[i]);
    }
    assert kept[..|kept|] == kept;
    SameMembers(results, kept);
  }

  lemma SameMembers(a: seq<Event>, b: seq<Event>)
    requires multiset(a) == multiset(b)
    ensures forall e :: e in a <==> e in b
  {
    forall e
      ensures e in a <==> e in b
    {
      assert e in multiset(a) <==> e in multiset(b);
    }
  }

  /** The reader's query: terminal rows past the cursor, by id, at most `limit`. */
  function TerminalRows(table: seq<RawEvent>): seq<RawEvent> {
    if table == [] then []
    else if Terminal(table[0].kind) then [table[0]] + TerminalRows(table[1..])
    else TerminalRows(table[1..])
  }

  function RowsPast(table: seq<RawEvent>, cursor: int): seq<RawEvent> {
    if table == [] then []
    else if Terminal(table[0].kind) && table[0].id > cursor then [table[0]] + RowsPast(table[1..], cursor)
    else RowsPast(table[1..], cursor)
  }

  function Events(rows: seq<RawEvent>): (r: seq<Event>)
    ensures |r| == |rows| && forall i | 0 <= i < |r| :: r[i] == Mapped(rows[i])
  {
    seq(|rows|, i requires 0 <= i < |rows| => Mapped(rows[i]))
  }

  ghost predicate RawInOrder(table: seq<RawEvent>) {
    forall i, j | 0 <= i < j < |table| :: table[i].id < table[j].id
  }

  /** Over a reader that keeps its contract, the adapter's read is a batch of
      the table's terminal events. */
  lemma AdapterReadsBatch(table: seq<RawEvent>, cursor: int, limit: nat)
    requires RawInOrder(table)
    ensures SortById(Kept(Prefix(RowsPast(table, cursor), limit), cursor)) ==
      Batch(Events(TerminalRows(table)), cursor, limit)
    ensures InOrder(Events(TerminalRows(table)))
  {
    hide Terminal, Mapped, SortById, Kept, RowsPast, TerminalRows, Past;
    var rows := RowsPast(table, cursor);
    RowsPastFacts(table, cursor);
    KeptAll(Prefix(rows, limit), cursor);
    TerminalFacts(table);
    EventsInOrder(Prefix(rows, limit));
    EventsInOrder(TerminalRows(table));
    SortNothingToDo(Events(Prefix(rows, limit)));
    PastOfTerminal(table, cursor);
    assert Events(Prefix(rows, limit)) == Prefix(Events(rows), limit);
  }

  lemma EventsInOrder(rows: seq<RawEvent>)
    requires RawInOrder(rows)
    ensures InOrder(Events(rows))
  {
  }

  lemma {:induction false} TerminalFacts(table: seq<RawEvent>)
    requires RawInOrder(table)
    ensures RawInOrder(TerminalRows(table))
    ensures forall r | r in TerminalRows(table) :: r in table
    decreases |table|
  {
    hide Terminal;
    if table != [] {
      TerminalFacts(table[1..]);
      assert table == [table[0]] + table[1..];
      assert forall r | r in table[1..] :: table[0].id < r.id;
    }
  }

  lemma {:induction false} RowsPastFacts(table: seq<RawEvent>, cursor: int)
    requires RawInOrder(table)
    ensures RawInOrder(RowsPast(table, cursor))
    ensures forall r | r in RowsPast(table, cursor) :: r in table && Terminal(r.kind) && r.id > cursor
    decreases |table|
  {
    hide Terminal;
    if table != [] {
      RowsPastFacts(table[1..], cursor);
      assert table == [table[0]] + table[1..];
      assert forall r | r in table[1..] :: table[0].id < r.id;
    }
  }

  lemma {:induction false} KeptAll(rows: seq<RawEvent>, cursor: int)
    requires forall r | r in rows :: Terminal(r.kind) && r.id > cursor
    ensures Kept(rows, cursor) == Events(rows)
    decreases |rows|
  {
    if rows != [] {
      var n := |rows| - 1;
      assert rows == rows[..n] + [rows[n]];
      KeptAll(rows[..n], cursor);
      assert Events(rows) == Events(rows[..n]) + [Mapped(rows[n])];
    }
  }

  lemma {:induction false} PastOfTerminal(table: seq<RawEvent>, cursor: int)
    ensures Past(Events(TerminalRows(table)), cursor) == Events(RowsPast(table, cursor))
    decreases |table|
  {
    hide Terminal;
    if table != [] {
      PastOfTerminal(table[1..], cursor);
      if Terminal(table[0].kind) {
        var rest := TerminalRows(table[1..]);
        assert Events([table[0]] + rest) == [Mapped(table[0])] + Events(rest);
        assert ([Mapped(table[0])] + Events(rest))[1..] == Events(rest);
        assert Events([table[0]] + RowsPast(table[1..], cursor)) ==
          [Mapped(table[0])] + Events(RowsPast(table[1..], cursor));
      }
    }
  }
}

/** Merging the same branches a second time: exactly when nothing changes. */
module Remerge {
  import opened Basics
  import opened Values
  import opened ContextMerge

  /** What the branches write to `key`, in order. */
  function BranchWrites(branches: seq<Data>, key: string): seq<Value> {
    Written(map[], branches, key)
  }

  function Had(base: Data, key: string): Option<Value> {
    if key in base then Some(base[key]) else None
  }

  function AllWrites(had: Option<Value>, writes: seq<Value>): seq<Value> {
    match had
    case None => writes
    case Some(v) => [v] + writes
  }

  lemma {:induction false} WrittenAfter(base: Data, branches: seq<Data>, key: string)
    ensures Written(base, branches, key) == AllWrites(Had(base, key), BranchWrites(branches, key))
    decreases |branches|
  {
    if branches != [] {
      WrittenAfter(base, branches[..|branches| - 1], key);
    }
  }

  // ---- One key -------------------------------------------------------------------

  /** The value stands: whatever ends in a non-list stands anyway, and lists
      must have nothing to add. */
  predicate ValueRepeats(writes: seq<Value>) {
    AllLists(writes) ==> Flatten(writes) == []
  }

  /** The record stands: on lists alone nothing was recorded the first time
      either; otherwise the value before the branches is the value they leave,
      and a key that had none starts with a list and is left an empty one. */
  predicate RecordRepeats(had: Option<Value>, writes: seq<Value>) {
    if AllLists(writes) then writes == [] || had == None || had.value.List?
    else if had.Some? then had.value == Settled(writes)
    else writes[0].List? && Settled(writes) == List([])
  }

  lemma {:induction false} SuffixShifts(front: seq<Value>, writes: seq<Value>)
    requires !AllLists(writes)
    ensures writes != [] && ListSuffix(front + writes) == |front| + ListSuffix(writes)
    decreases |writes|
  {
    var all, n := front + writes, |writes| - 1;
    assert all[|all| - 1] == writes[n];
    if writes[n].List? {
      assert all[..|all| - 1] == front + writes[..n];
      assert writes == writes[..n] + [writes[n]];
      SuffixShifts(front, writes[..n]);
    }
  }

  /** A non-list among the last writes hides everything before them. */
  lemma SettledLast(front: seq<Value>, writes: seq<Value>)
    requires !AllLists(writes)
    ensures writes != [] && Settled(front + writes) == Settled(writes)
  {
    hide Flatten, ListSuffix;
    var all := front + writes;
    SuffixShifts(front, writes);
    assert all[|all| - 1] == writes[|writes| - 1];
    assert all[ListSuffix(all)..] == writes[ListSuffix(writes)..];
  }

  lemma {:induction false} SuffixOfLists(writes: seq<Value>)
    requires AllLists(writes)
    ensures ListSuffix(writes) == 0
    decreases |writes|
  {
    if writes != [] {
      assert writes[|writes| - 1] in writes;
      SuffixOfLists(writes[..|writes| - 1]);
    }
  }

  lemma {:induction false} FlattenCons(v: Value, writes: seq<Value>)
    requires v.List? && AllLists(writes)
    ensures AllLists([v] + writes) && Flatten([v] + writes) == v.items + Flatten(writes)
    decreases |writes|
  {
    var all := [v] + writes;
    if writes == [] {
      assert all[..0] == [];
    } else {
      assert writes[|writes| - 1] in writes;
      assert all[..|all| - 1] == [v] + writes[..|writes| - 1];
      FlattenCons(v, writes[..|writes| - 1]);
    }
  }

  lemma SettledLists(writes: seq<Value>)
    requires AllLists(writes) && writes != []
    ensures Settled(writes) == List(Flatten(writes))
  {
    assert writes[|writes| - 1] in writes;
    SuffixOfLists(writes);
    assert writes[0..] == writes;
  }

  /** Whether a key's value changes when its branches write again. */
  lemma KeyValue(had: Option<Value>, writes: seq<Value>)
    requires AllWrites(had, writes) != []
    ensures Settled([Settled(AllWrites(had, writes))] + writes) == Settled(AllWrites(had, writes)) <==>
      ValueRepeats(writes)
  {
    var first := AllWrites(had, writes);
    var x := Settled(first);
    if writes == [] {
      assert [x] + writes == [x];
      SettledSingle(x);
    } else if AllLists(writes) {
      EndsInList(had, writes);
      FlattenCons(x, writes);
      SettledLists([x] + writes);
    } else {
      SettledLast([x], writes);
      SettledAfter(had, writes);
    }
  }

  lemma SettledAfter(had: Option<Value>, writes: seq<Value>)
    requires !AllLists(writes)
    ensures writes != [] && Settled(AllWrites(had, writes)) == Settled(writes)
  {
    match had
    case None =>
    case Some(v) => SettledLast([v], writes);
  }

  lemma EndsInList(had: Option<Value>, writes: seq<Value>)
    requires writes != [] && AllLists(writes)
    ensures Settled(AllWrites(had, writes)).List?
  {
    var all := AllWrites(had, writes);
    assert all[|all| - 1] == writes[|writes| - 1] && writes[|writes| - 1] in writes;
  }

  // ---- The record of one key -------------------------------------------------------

  /** The writes that could not be concatenated. */
  function Breaks(ws: seq<Value>): seq<Value> {
    if |ws| < 2 then [] else
      Breaks(ws[..|ws| - 1]) + if Mergeable(ws[|ws| - 2], ws[|ws| - 1]) then [] else [ws[|ws| - 1]]
  }

  /** The value standing before the first of them. */
  function Standing(ws: seq<Value>): Value {
    if |ws| < 2 then Null
    else if Breaks(ws[..|ws| - 1]) == [] then Settled(ws[..|ws| - 1])
    else Standing(ws[..|ws| - 1])
  }

  lemma {:induction false} RecordedForm(ws: seq<Value>)
    ensures Recorded(ws) == if Breaks(ws) == [] then [] else [Standing(ws)] + Breaks(ws)
    decreases |ws|
  {
    if |ws| >= 2 {
      RecordedForm(ws[..|ws| - 1]);
    }
  }

  lemma {:induction false} NoBreaks(ws: seq<Value>)
    ensures Breaks(ws) == [] <==> |ws| < 2 || AllLists(ws)
    decreases |ws|
  {
    if |ws| >= 2 {
      var n := |ws| - 1;
      assert ws == ws[..n] + [ws[n]];
      NoBreaks(ws[..n]);
      assert ws[..n][n - 1] == ws[n - 1];
      if n == 1 {
        assert ws[..n] == [ws[0]];
      }
    }
  }

  lemma {:induction false} BreaksCons(v: Value, writes: seq<Value>)
    requires writes != []
    ensures Breaks([v] + writes) == (if Mergeable(v, writes[0]) then [] else [writes[0]]) + Breaks(writes)
    decreases |writes|
  {
    var all, n := [v] + writes, |writes| - 1;
    assert all[..|all| - 1] == [v] + writes[..n];
    if n == 0 {
      assert [v] + writes[..0] == [v];
    } else {
      BreaksCons(v, writes[..n]);
      assert writes[..n][0] == writes[0];
    }
  }

  lemma {:induction false} StandingCons(v: Value, writes: seq<Value>)
    requires writes != [] && !Mergeable(v, writes[0])
    ensures Standing([v] + writes) == v
    decreases |writes|
  {
    var all, n := [v] + writes, |writes| - 1;
    assert all[..|all| - 1] == [v] + writes[..n];
    if n == 0 {
      assert [v] + writes[..0] == [v];
      SettledSingle(v);
    } else {
      BreaksCons(v, writes[..n]);
      assert writes[..n][0] == writes[0];
      StandingCons(v, writes[..n]);
    }
  }

  /** A list in front of a first break joins the value standing there. */
  lemma {:induction false} StandingJoins(v: Value, writes: seq<Value>)
    requires writes != [] && Mergeable(v, writes[0]) && Breaks(writes) != []
    ensures Standing(writes).List? && Standing([v] + writes) == List(v.items + Standing(writes).items)
    decreases |writes|
  {
    var all, n := [v] + writes, |writes| - 1;
    var front := writes[..n];
    assert all[..|all| - 1] == [v] + front;
    assert front[0] == writes[0];
    BreaksCons(v, front);
    if Breaks(front) == [] {
      NoBreaks(front);
      assert AllLists(front) by {
        if n == 1 {
          assert front == [writes[0]];
        }
      }
      SettledLists(front);
      FlattenCons(v, front);
      SettledLists([v] + front);
    } else {
      StandingJoins(v, front);
    }
  }

  /** Whether anything is recorded for a key on the second merge. */
  lemma KeyConflicts(had: Option<Value>, writes: seq<Value>)
    requires AllWrites(had, writes) != []
    ensures Recorded([Settled(AllWrites(had, writes))] + writes) == [] <==> AllLists(writes)
    ensures Recorded(AllWrites(had, writes)) == [] <==> |AllWrites(had, writes)| < 2 || AllLists(AllWrites(had, writes))
  {
    var x := Settled(AllWrites(had, writes));
    RecordedForm([x] + writes);
    NoBreaks([x] + writes);
    RecordedForm(AllWrites(had, writes));
    NoBreaks(AllWrites(had, writes));
    if writes != [] && AllLists(writes) {
      EndsInList(had, writes);
    }
    assert forall w | w in writes :: w in [x] + writes;
  }

  /** Whether a key's record is the same both times. */
  lemma KeyRecord(had: Option<Value>, writes: seq<Value>)
    requires AllWrites(had, writes) != []
    ensures Recorded([Settled(AllWrites(had, writes))] + writes) == Recorded(AllWrites(had, writes)) <==>
      RecordRepeats(had, writes)
  {
    var x := Settled(AllWrites(had, writes));
    KeyConflicts(had, writes);
    if AllLists(writes) {
      ListsRecord(had, writes);
    } else {
      SettledAfter(had, writes);
      RecordedForm([x] + writes);
      BreaksCons(x, writes);
      NoBreaks([x] + writes);
      assert forall w | w in writes :: w in [x] + writes;
      match had
      case Some(b) => KeyRecordHad(b, x, writes);
      case None => KeyRecordNew(x, writes);
    }
  }

  lemma ListsRecord(had: Option<Value>, writes: seq<Value>)
    requires AllLists(writes)
    ensures (|AllWrites(had, writes)| < 2 || AllLists(AllWrites(had, writes))) <==>
      writes == [] || had == None || had.value.List?
  {
    if had.Some? {
      assert had.value in AllWrites(had, writes);
    }
  }

  /** What stands before the first break when `v` comes in front. */
  function InFront(v: Value, writes: seq<Value>): Value
    requires writes != []
  {
    if Mergeable(v, writes[0]) && Standing(writes).List? then List(v.items + Standing(writes).items) else v
  }

  function Broken(v: Value, writes: seq<Value>): seq<Value>
    requires writes != []
  {
    if Mergeable(v, writes[0]) then [] else [writes[0]]
  }

  lemma RecordedCons(v: Value, writes: seq<Value>)
    requires !AllLists(writes) && writes != []
    ensures Mergeable(v, writes[0]) ==> Breaks(writes) != [] && Standing(writes).List?
    ensures Recorded([v] + writes) == [InFront(v, writes)] + (Broken(v, writes) + Breaks(writes))
  {
    RecordedForm([v] + writes);
    BreaksCons(v, writes);
    if Mergeable(v, writes[0]) {
      NoBreaks(writes);
      SingleList(writes);
      StandingJoins(v, writes);
    } else {
      StandingCons(v, writes);
    }
  }

  lemma SingleList(writes: seq<Value>)
    requires writes != [] && writes[0].List?
    ensures |writes| == 1 ==> AllLists(writes)
  {
  }

  lemma CancelRight(a: seq<Value>, b: seq<Value>, c: seq<Value>)
    ensures a + c == b + c <==> a == b
  {
    if a + c == b + c {
      assert |a| == |b|;
      assert (a + c)[..|a|] == a && (b + c)[..|b|] == b;
    }
  }

  lemma SameRecords(p: Value, q: Value, front: seq<Value>, other: seq<Value>, rest: seq<Value>)
    ensures [p] + (front + rest) == [q] + (other + rest) <==> p == q && front == other
  {
    CancelRight(front, other, rest);
    assert ([p] + (front + rest))[0] == p && ([q] + (other + rest))[0] == q;
    assert ([p] + (front + rest))[1..] == front + rest && ([q] + (other + rest))[1..] == other + rest;
  }

  lemma KeyRecordHad(b: Value, x: Value, writes: seq<Value>)
    requires !AllLists(writes) && writes != []
    ensures Recorded([x] + writes) == Recorded([b] + writes) <==> b == x
  {
    hide Recorded, Breaks, Standing, AllLists;
    RecordedCons(x, writes);
    RecordedCons(b, writes);
    SameRecords(InFront(x, writes), InFront(b, writes), Broken(x, writes), Broken(b, writes), Breaks(writes));
    if Mergeable(x, writes[0]) && Mergeable(b, writes[0]) {
      CancelRight(x.items, b.items, Standing(writes).items);
    }
  }

  lemma KeyRecordNew(x: Value, writes: seq<Value>)
    requires !AllLists(writes) && writes != []
    ensures Recorded([x] + writes) == Recorded(writes) <==> writes[0].List? && x == List([])
  {
    hide Recorded, Breaks, Standing, AllLists;
    RecordedCons(x, writes);
    RecordedForm(writes);
    if Mergeable(x, writes[0]) {
      SameRecords(InFront(x, writes), Standing(writes), [], [], Breaks(writes));
      assert [] + Breaks(writes) == Breaks(writes);
      CancelRight(x.items, [], Standing(writes).items);
      assert [] + Standing(writes).items == Standing(writes).items;
    } else {
      assert |Recorded([x] + writes)| == 2 + |Breaks(writes)|;
    }
  }

  // ---- The whole context -------------------------------------------------------------

  /** Some key is recorded by the first merge. */
  ghost predicate Conflicts(base: Data, branches: seq<Data>) {
    exists key :: |AllWrites(Had(base, key), BranchWrites(branches, key))| >= 2
      && !AllLists(AllWrites(Had(base, key), BranchWrites(branches, key)))
  }

  /** What the second merge records when the first recorded nothing: every
      non-list was its key's first and only value. */
  ghost function Doubled(branches: seq<Data>): Data {
    map key | key in BranchKeys(branches) && !AllLists(BranchWrites(branches, key)) ::
      List([BranchWrites(branches, key)[0], BranchWrites(branches, key)[0]])
  }

  /** On the context before the first merge and the branches' writes alone. */
  ghost predicate RemergeSilent(base: Data, branches: seq<Data>) {
    && (forall key :: ValueRepeats(BranchWrites(branches, key)))
    && ((forall key :: AllLists(BranchWrites(branches, key)))
        || if Conflicts(base, branches) then forall key :: RecordRepeats(Had(base, key), BranchWrites(branches, key))
           else CONFLICTS in base && base[CONFLICTS] == Dict(Doubled(branches)))
  }

  lemma MergedAt(base: Data, branches: seq<Data>, key: string)
    ensures key != CONFLICTS ==>
      && (key in Merged(base, branches) <==> Written(base, branches, key) != [])
      && (key in Merged(base, branches) ==> Merged(base, branches)[key] == Settled(Written(base, branches, key)))
    ensures
      var record := ConflictRecord(base, branches);
      if record == map[] then Had(Merged(base, branches), CONFLICTS) == Had(base, CONFLICTS)
      else Had(Merged(base, branches), CONFLICTS) == Some(Dict(record))
  {
    hide Settled, Recorded, Written;
    WrittenWithin(base, branches, key);
    WrittenWithin(base, branches, CONFLICTS);
    if CONFLICTS in base {
      SettledSingle(base[CONFLICTS]);
    }
  }

  lemma RecordAt(base: Data, branches: seq<Data>, key: string)
    ensures key in ConflictRecord(base, branches) <==> Recorded(Written(base, branches, key)) != []
    ensures key in ConflictRecord(base, branches) ==>
      ConflictRecord(base, branches)[key] == List(Recorded(Written(base, branches, key)))
  {
    WrittenWithin(base, branches, key);
    SettledSingle(Null);
  }

  /** What the second merge sees at a key. */
  lemma WrittenAgain(base: Data, branches: seq<Data>, key: string)
    requires key != CONFLICTS
    ensures
      var first := AllWrites(Had(base, key), BranchWrites(branches, key));
      && Written(base, branches, key) == first
      && Written(Merged(base, branches), branches, key) ==
           if first == [] then [] else [Settled(first)] + BranchWrites(branches, key)
  {
    hide Settled, Recorded, Merged, Written;
    WrittenAfter(base, branches, key);
    WrittenAfter(Merged(base, branches), branches, key);
    MergedAt(base, branches, key);
    assert BranchWrites(branches, key) != [] ==> AllWrites(Had(base, key), BranchWrites(branches, key)) != [];
  }

  lemma ReservedUnwritten(base: Data, branches: seq<Data>)
    ensures BranchWrites(branches, CONFLICTS) == []
    ensures Recorded(Written(base, branches, CONFLICTS)) == []
  {
    WrittenWithin(map[], branches, CONFLICTS);
    WrittenWithin(base, branches, CONFLICTS);
    SettledSingle(Null);
    if CONFLICTS in base {
      SettledSingle(base[CONFLICTS]);
    }
  }

  /** The facts of one key that the whole needs. */
  lemma KeyFacts(base: Data, branches: seq<Data>, key: string)
    requires key != CONFLICTS
    ensures
      var once, twice := Merged(base, branches), Merged(Merged(base, branches), branches);
      && (Had(once, key) == Had(twice, key) <==> ValueRepeats(BranchWrites(branches, key)))
      && (Recorded(Written(once, branches, key)) == [] <==> AllLists(BranchWrites(branches, key)))
      && (Recorded(Written(base, branches, key)) == [] <==>
            |AllWrites(Had(base, key), BranchWrites(branches, key))| < 2
            || AllLists(AllWrites(Had(base, key), BranchWrites(branches, key))))
      && (Recorded(Written(once, branches, key)) == Recorded(Written(base, branches, key)) <==>
            RecordRepeats(Had(base, key), BranchWrites(branches, key)))
  {
    hide Settled, Recorded, Merged, Written, Flatten;
    var once := Merged(base, branches);
    var first, writes := AllWrites(Had(base, key), BranchWrites(branches, key)), BranchWrites(branches, key);
    WrittenAgain(base, branches, key);
    MergedAt(base, branches, key);
    MergedAt(once, branches, key);
    if first == [] {
      SettledSingle(Null);
      FlattenNothing();
    } else {
      KeyValue(Had(base, key), writes);
      KeyConflicts(Had(base, key), writes);
      KeyRecord(Had(base, key), writes);
    }
  }

  /** The second record: empty, the same, or the doubled one. */
  lemma SecondRecord(base: Data, branches: seq<Data>)
    ensures
      var one, two := ConflictRecord(base, branches), ConflictRecord(Merged(base, branches), branches);
      && (two == map[] <==> forall key :: AllLists(BranchWrites(branches, key)))
      && (one == map[] <==> !Conflicts(base, branches))
      && (one == two <==> forall key :: RecordRepeats(Had(base, key), BranchWrites(branches, key)))
  {
    hide Settled, Recorded, Merged, Written, ConflictRecord, RecordRepeats;
    var one, two := ConflictRecord(base, branches), ConflictRecord(Merged(base, branches), branches);
    ReservedUnwritten(base, branches);
    ReservedUnwritten(Merged(base, branches), branches);
    forall key
      ensures key in two <==> !AllLists(BranchWrites(branches, key))
      ensures key in one <==>
        |AllWrites(Had(base, key), BranchWrites(branches, key))| >= 2
        && !AllLists(AllWrites(Had(base, key), BranchWrites(branches, key)))
      ensures Had(one, key) == Had(two, key) <==> RecordRepeats(Had(base, key), BranchWrites(branches, key))
    {
      RecordAt(base, branches, key);
      RecordAt(Merged(base, branches), branches, key);
      if key == CONFLICTS {
        ReservedRepeats(base, branches);
      } else {
        KeyFacts(base, branches, key);
      }
    }
    SameHad(one, two);
    SameHad(one, map[]);
    SameHad(two, map[]);
  }

  lemma ReservedRepeats(base: Data, branches: seq<Data>)
    ensures RecordRepeats(Had(base, CONFLICTS), BranchWrites(branches, CONFLICTS))
    ensures |AllWrites(Had(base, CONFLICTS), BranchWrites(branches, CONFLICTS))| < 2
  {
    ReservedUnwritten(base, branches);
  }

  lemma SameHad(a: Data, b: Data)
    ensures a == b <==> forall key :: Had(a, key) == Had(b, key)
  {
    if forall key :: Had(a, key) == Had(b, key) {
      forall key
        ensures key in a <==> key in b
        ensures key in a ==> a[key] == b[key]
      {
        assert Had(a, key) == Had(b, key);
      }
    }
  }

  /** With no conflict the first time, the second record is the doubled one. */
  lemma SecondIsDoubled(base: Data, branches: seq<Data>)
    requires !Conflicts(base, branches)
    ensures ConflictRecord(Merged(base, branches), branches) == Doubled(branches)
  {
    hide Settled, Recorded, Merged, Written, ConflictRecord;
    var two, doubled := ConflictRecord(Merged(base, branches), branches), Doubled(branches);
    ReservedUnwritten(Merged(base, branches), branches);
    ReservedUnwritten(base, branches);
    forall key
      ensures Had(two, key) == Had(doubled, key)
    {
      RecordAt(Merged(base, branches), branches, key);
      WrittenKeys(branches, key);
      if key != CONFLICTS {
        KeyFacts(base, branches, key);
        if !AllLists(BranchWrites(branches, key)) {
          OnlyWrite(base, branches, key);
        }
      }
    }
    SameHad(two, doubled);
  }

  lemma WrittenKeys(branches: seq<Data>, key: string)
    ensures BranchWrites(branches, key) != [] ==> key in BranchKeys(branches)
  {
    WrittenWithin(map[], branches, key);
  }

  lemma ListsAfter(had: Option<Value>, writes: seq<Value>)
    ensures AllLists(AllWrites(had, writes)) ==> AllLists(writes)
  {
    assert forall w | w in writes :: w in AllWrites(had, writes);
  }

  lemma OnlyWrite(base: Data, branches: seq<Data>, key: string)
    requires !Conflicts(base, branches) && !AllLists(BranchWrites(branches, key)) && key != CONFLICTS
    ensures BranchWrites(branches, key) != []
    ensures Recorded(Written(Merged(base, branches), branches, key)) ==
      [BranchWrites(branches, key)[0], BranchWrites(branches, key)[0]]
  {
    hide Merged, Written;
    var writes := BranchWrites(branches, key);
    var first := AllWrites(Had(base, key), writes);
    WrittenAgain(base, branches, key);
    assert |first| < 2 || AllLists(first);
    ListsAfter(Had(base, key), writes);
    assert first == writes && writes == [writes[0]];
    SettledSingle(writes[0]);
    assert [writes[0]] + writes == [writes[0], writes[0]];
    assert [writes[0], writes[0]][..1] == [writes[0]];
  }

  /** Main result: merging the same branches again changes nothing iff no key's
      lists add anything, and either no branch writes a non-list, or the record
      the second merge makes is there already. */
  lemma RemergeExactly(base: Data, branches: seq<Data>)
    ensures Merged(Merged(base, branches), branches) == Merged(base, branches) <==> RemergeSilent(base, branches)
  {
    hide Settled, Recorded, Merged, Written, ConflictRecord, RecordRepeats, ValueRepeats, Conflicts;
    var once := Merged(base, branches);
    var twice := Merged(once, branches);
    SecondRecord(base, branches);
    MergedAt(base, branches, CONFLICTS);
    MergedAt(once, branches, CONFLICTS);
    if !Conflicts(base, branches) {
      SecondIsDoubled(base, branches);
    }
    ReservedValue(branches);
    forall key
      ensures key != CONFLICTS ==> (Had(once, key) == Had(twice, key) <==> ValueRepeats(BranchWrites(branches, key)))
    {
      if key != CONFLICTS {
        KeyFacts(base, branches, key);
      }
    }
    SameHad(once, twice);
  }

  lemma ReservedValue(branches: seq<Data>)
    ensures ValueRepeats(BranchWrites(branches, CONFLICTS))
  {
    ReservedUnwritten(map[], branches);
    FlattenNothing();
  }

  /** A key that is new to the context and that the branches write with
      non-lists only makes the second merge change the record, unless one is
      there to begin with. */
  lemma NewScalarsRecorded(base: Data, branches: seq<Data>, key: string)
    requires key !in base && CONFLICTS !in base && BranchWrites(branches, key) != []
    requires forall w | w in BranchWrites(branches, key) :: !w.List?
    ensures !RemergeSilent(base, branches)
  {
    hide Settled, Recorded, Merged, Written;
    var writes := BranchWrites(branches, key);
    assert writes[0] in writes;
    assert !AllLists(writes) && !RecordRepeats(Had(base, key), writes);
  }
}

/** The shared run context: sequential updates and the fan-in merge. */
module ContextMerge {
  import opened Values

  const CONFLICTS := "_merge_conflicts"

  predicate Reserved(key: string) {
    key != "" && key[0] == '_'
  }

  /** The values written to `key`: the base value, then each branch's, in order. */
  function Written(base: Data, branches: seq<Data>, key: string): seq<Value> {
    if branches == [] then
      if key in base then [base[key]] else []
    else
      var front := Written(base, branches[..|branches| - 1], key);
      var last := branches[|branches| - 1];
      if key in last && !Reserved(key) then front + [last[key]] else front
  }

  predicate AllLists(ws: seq<Value>) {
    forall w | w in ws :: w.List?
  }

  function Flatten(ws: seq<Value>): seq<Value>
    requires AllLists(ws)
  {
    if ws == [] then [] else Flatten(ws[..|ws| - 1]) + ws[|ws| - 1].items
  }

  /** Where the longest all-list suffix of `ws` starts. */
  function ListSuffix(ws: seq<Value>): (i: nat)
    ensures i <= |ws|
    ensures AllLists(ws[i..])
    ensures i > 0 ==> !ws[i - 1].List?
  {
    if ws == [] then 0
    else if !ws[|ws| - 1].List? then |ws|
    else
      var i := ListSuffix(ws[..|ws| - 1]);
      assert ws[i..] == ws[..|ws| - 1][i..] + [ws[|ws| - 1]];
      i
  }

  /** The merged value of a key: lists at the end concatenate, otherwise the
      last writer wins. */
  function Settled(ws: seq<Value>): Value
    requires ws != []
  {
    if ws[|ws| - 1].List? then List(Flatten(ws[ListSuffix(ws)..])) else ws[|ws| - 1]
  }

  predicate Mergeable(a: Value, b: Value) {
    a.List? && b.List?
  }

  /** What is recorded for a key: the value standing at the first write that
      cannot be concatenated, then every such write. */
  function Recorded(ws: seq<Value>): seq<Value> {
    if |ws| < 2 then [] else
      var n := |ws| - 1;
      var front := Recorded(ws[..n]);
      if Mergeable(ws[n - 1], ws[n]) then front
      else if front == [] then [Settled(ws[..n]), ws[n]]
      else front + [ws[n]]
  }

  lemma {:induction false} RecordedIff(ws: seq<Value>)
    ensures Recorded(ws) == [] <==> forall i | 0 < i < |ws| :: Mergeable(ws[i - 1], ws[i])
    decreases |ws|
  {
    if |ws| >= 2 {
      var n := |ws| - 1;
      RecordedIff(ws[..n]);
    }
  }

  /** A key written only with non-lists records every write once, in order. */
  lemma {:induction false} ScalarsAllRecorded(ws: seq<Value>)
    requires |ws| >= 2 && forall w | w in ws :: !w.List?
    ensures Recorded(ws) == ws
    decreases |ws|
  {
    var n := |ws| - 1;
    assert ws == ws[..n] + [ws[n]];
    if n >= 2 {
      ScalarsAllRecorded(ws[..n]);
    } else {
      assert ws[..n] == [ws[0]];
      assert Recorded(ws[..n]) == [];
    }
  }

  /** One more write: how the settled value and the record grow. */
  lemma SettledStep(ws: seq<Value>, v: Value)
    requires ws != []
    ensures Settled(ws).List? <==> ws[|ws| - 1].List?
    ensures Mergeable(Settled(ws), v) ==> Settled(ws + [v]) == List(Settled(ws).items + v.items)
    ensures !Mergeable(Settled(ws), v) ==> Settled(ws + [v]) == v
  {
    assert (ws + [v])[..|ws|] == ws;
    if v.List? {
      if ws[|ws| - 1].List? {
        SuffixGrows(ws, v);
      } else {
        SuffixStarts(ws, v);
      }
    }
  }

  /** A list after a list joins the suffix. */
  lemma SuffixGrows(ws: seq<Value>, v: Value)
    requires ws != [] && ws[|ws| - 1].List? && v.List?
    ensures Settled(ws + [v]) == List(Settled(ws).items + v.items)
  {
    hide Flatten;
    var more, i := ws + [v], ListSuffix(ws);
    assert more[..|ws|] == ws;
    assert more[i..] == ws[i..] + [v];
    FlattenSnoc(ws[i..], v);
  }

  lemma FlattenSnoc(ws: seq<Value>, v: Value)
    requires AllLists(ws) && v.List?
    ensures AllLists(ws + [v]) && Flatten(ws + [v]) == Flatten(ws) + v.items
  {
    assert (ws + [v])[..|ws|] == ws;
  }

  /** A list after anything else starts one. */
  lemma SuffixStarts(ws: seq<Value>, v: Value)
    requires ws != [] && !ws[|ws| - 1].List? && v.List?
    ensures Settled(ws + [v]) == v
  {
    hide Flatten;
    var more := ws + [v];
    assert more[..|ws|] == ws;
    assert ListSuffix(ws) == |ws|;
    assert more[|ws|..] == [] + [v];
    FlattenSnoc([], v);
    FlattenNothing();
  }

  lemma FlattenNothing()
    ensures Flatten([]) == []
  {
  }

  lemma RecordedStep(ws: seq<Value>, v: Value)
    requires ws != []
    ensures Recorded(ws + [v]) ==
      if Mergeable(ws[|ws| - 1], v) then Recorded(ws)
      else if Recorded(ws) == [] then [Settled(ws), v]
      else Recorded(ws) + [v]
  {
    assert (ws + [v])[..|ws|] == ws;
  }

  ghost function BranchKeys(branches: seq<Data>): set<string> {
    set b, k | b in branches && k in b :: k
  }

  ghost function Keys(base: Data, branches: seq<Data>): set<string> {
    base.Keys + set k | k in BranchKeys(branches) && !Reserved(k)
  }

  ghost function SettledValues(base: Data, branches: seq<Data>): Data {
    map k | k in Keys(base, branches) && Written(base, branches, k) != [] :: Settled(Written(base, branches, k))
  }

  ghost function ConflictRecord(base: Data, branches: seq<Data>): Data {
    map k | k in Keys(base, branches) && Recorded(Written(base, branches, k)) != [] ::
      List(Recorded(Written(base, branches, k)))
  }

  /** The fan-in merge, key by key. */
  ghost function Merged(base: Data, branches: seq<Data>): Data {
    var values, conflicts := SettledValues(base, branches), ConflictRecord(base, branches);
    if conflicts == map[] then values else values[CONFLICTS := Dict(conflicts)]
  }

  lemma {:induction false} WrittenWithin(base: Data, branches: seq<Data>, key: string)
    ensures Written(base, branches, key) != [] <==> key in Keys(base, branches)
    ensures Reserved(key) ==> Written(base, branches, key) == if key in base then [base[key]] else []
    decreases |branches|
  {
    if branches != [] {
      var n := |branches| - 1;
      WrittenWithin(base, branches[..n], key);
      assert branches == branches[..n] + [branches[n]];
      assert key in BranchKeys(branches) <==> key in BranchKeys(branches[..n]) || key in branches[n];
    }
  }

  /** A reserved key is never merged: whatever the branches write under a key that
      begins with an underscore, the base's entry stays, or its absence. Only the
      conflict record is written there, and only when there is one. */
  lemma ReservedStays(base: Data, branches: seq<Data>, key: string)
    requires key != "" && key[0] == '_'
    requires key == "_merge_conflicts" ==> ConflictRecord(base, branches) == map[]
    ensures key in Merged(base, branches) <==> key in base
    ensures key in base ==> Merged(base, branches)[key] == base[key]
  {
    WrittenWithin(base, branches, key);
    SettledSingle(if key in base then base[key] else Null);
  }

  /** Any other key is merged: it is there iff the base or some branch has it. */
  lemma OthersMerged(base: Data, branches: seq<Data>, key: string)
    requires key == "" || key[0] != '_'
    ensures key in Merged(base, branches) <==> key in base || exists b :: b in branches && key in b
  {
    WrittenWithin(base, branches, key);
  }

  /** The writes to `k` after all branches before `i` and, of branch `i`, the
      keys in `done`. */
  ghost function SoFar(base: Data, branches: seq<Data>, i: nat, done: set<string>, k: string): seq<Value>
    requires i <= |branches|
  {
    Written(base, branches[..if k in done && i < |branches| then i + 1 else i], k)
  }

  /** A key's entries in `merge`'s two dictionaries agree with its writes. */
  ghost predicate InStep(merged: Data, conflicts: map<string, seq<Value>>, k: string, ws: seq<Value>) {
    && (k in merged <==> ws != [])
    && (k in merged ==> merged[k] == Settled(ws))
    && (k in conflicts <==> Recorded(ws) != [])
    && (k in conflicts ==> conflicts[k] == Recorded(ws))
  }

  method Merge(base: Data, branches: seq<Data>) returns (result: Data)
    ensures result == Merged(base, branches)
  {
    hide Settled, Recorded, Written;
    var merged := base;
    var conflicts: map<string, seq<Value>> := map[];
    forall k
      ensures InStep(merged, conflicts, k, SoFar(base, branches, 0, {}, k))
    {
      BaseInStep(base, branches, k);
    }
    for i := 0 to |branches|
      invariant forall k :: InStep(merged, conflicts, k, SoFar(base, branches, i, {}, k))
    {
      var todo := branches[i].Keys;
      assert branches[i].Keys - todo == {};
      while todo != {}
        invariant todo <= branches[i].Keys
        invariant forall k :: InStep(merged, conflicts, k, SoFar(base, branches, i, branches[i].Keys - todo, k))
      {
        var key :| key in todo;
        ghost var done := branches[i].Keys - todo;
        ghost var ws := SoFar(base, branches, i, done, key);
        assert InStep(merged, conflicts, key, ws);
        todo := todo - {key};
        WrittenStep(base, branches, i, key);
        ghost var merged0, conflicts0 := merged, conflicts;
        if !Reserved(key) {
          merged, conflicts := Absorb(merged, conflicts, key, branches[i][key], ws);
        }
        forall k
          ensures InStep(merged, conflicts, k, SoFar(base, branches, i, branches[i].Keys - todo, k))
        {
          assert InStep(merged0, conflicts0, k, SoFar(base, branches, i, done, k));
          if k != key {
            assert SoFar(base, branches, i, done, k) == SoFar(base, branches, i, branches[i].Keys - todo, k);
          }
        }
      }
      assert branches[i].Keys - todo == branches[i].Keys;
      ghost var next := i + 1;
      forall k
        ensures InStep(merged, conflicts, k, SoFar(base, branches, next, {}, k))
      {
        assert InStep(merged, conflicts, k, SoFar(base, branches, i, branches[i].Keys, k));
        WrittenStep(base, branches, i, k);
      }
    }
    forall k
      ensures InStep(merged, conflicts, k, Written(base, branches, k))
    {
      assert branches[..|branches|] == branches;
      assert InStep(merged, conflicts, k, SoFar(base, branches, |branches|, {}, k));
    }
    result := merged;
    if conflicts != map[] {
      result := result[CONFLICTS := Dict(map k | k in conflicts :: List(conflicts[k]))];
    }
    MergedInStep(base, branches, merged, conflicts);
  }

  lemma BaseInStep(base: Data, branches: seq<Data>, k: string)
    ensures InStep(base, map[], k, SoFar(base, branches, 0, {}, k))
  {
    SettledSingle(if k in base then base[k] else Null);
    assert branches[..if k in {} && 0 < |branches| then 1 else 0] == [];
  }

  lemma WrittenStep(base: Data, branches: seq<Data>, i: nat, key: string)
    requires i < |branches|
    ensures Written(base, branches[..i + 1], key) ==
      if key in branches[i] && !Reserved(key) then Written(base, branches[..i], key) + [branches[i][key]]
      else Written(base, branches[..i], key)
  {
    assert branches[..i + 1][..i] == branches[..i];
  }

  lemma SettledInStep(base: Data, branches: seq<Data>, merged: Data, conflicts: map<string, seq<Value>>, k: string)
    requires InStep(merged, conflicts, k, Written(base, branches, k))
    ensures k in merged <==> k in SettledValues(base, branches)
    ensures k in merged ==> merged[k] == SettledValues(base, branches)[k]
  {
    WrittenWithin(base, branches, k);
  }

  lemma RecordInStep(base: Data, branches: seq<Data>, merged: Data, conflicts: map<string, seq<Value>>, k: string)
    requires InStep(merged, conflicts, k, Written(base, branches, k))
    ensures k in conflicts <==> k in ConflictRecord(base, branches)
    ensures k in conflicts ==> ConflictRecord(base, branches)[k] == List(conflicts[k])
  {
    WrittenWithin(base, branches, k);
    assert Written(base, branches, k) == [] ==> Recorded(Written(base, branches, k)) == [];
  }

  lemma MergedInStep(base: Data, branches: seq<Data>, merged: Data, conflicts: map<string, seq<Value>>)
    requires forall k :: InStep(merged, conflicts, k, Written(base, branches, k))
    ensures SettledValues(base, branches) == merged
    ensures ConflictRecord(base, branches) == map k | k in conflicts :: List(conflicts[k])
  {
    hide SettledValues, ConflictRecord, InStep;
    forall k
      ensures k in merged <==> k in SettledValues(base, branches)
      ensures k in merged ==> merged[k] == SettledValues(base, branches)[k]
      ensures k in conflicts <==> k in ConflictRecord(base, branches)
      ensures k in conflicts ==> ConflictRecord(base, branches)[k] == List(conflicts[k])
    {
      SettledInStep(base, branches, merged, conflicts, k);
      RecordInStep(base, branches, merged, conflicts, k);
    }
  }

  /** The loop body for an unreserved key. */
  method Absorb(merged: Data, conflicts: map<string, seq<Value>>, key: string, value: Value, ghost ws: seq<Value>)
    returns (merged': Data, conflicts': map<string, seq<Value>>)
    requires key in merged <==> ws != []
    requires key in merged ==> merged[key] == Settled(ws)
    requires key in conflicts <==> Recorded(ws) != []
    requires key in conflicts ==> conflicts[key] == Recorded(ws)
    ensures merged' == merged[key := Settled(ws + [value])]
    ensures forall k | k != key ::
      (k in conflicts' <==> k in conflicts) && (k in conflicts ==> conflicts'[k] == conflicts[k])
    ensures key in conflicts' <==> Recorded(ws + [value]) != []
    ensures key in conflicts' ==> conflicts'[key] == Recorded(ws + [value])
  {
    hide Settled, Recorded;
    merged', conflicts' := merged, conflicts;
    if key in merged {
      SettledStep(ws, value);
      RecordedStep(ws, value);
      var existing := merged[key];
      if existing.List? && value.List? {
        merged' := merged'[key := List(existing.items + value.items)];
      } else {
        if key !in conflicts' {
          conflicts' := conflicts'[key := [existing]];
        }
        conflicts' := conflicts'[key := conflicts'[key] + [value]];
        merged' := merged'[key := value];
      }
    } else {
      merged' := merged'[key := value];
      SettledSingle(value);
      assert ws + [value] == [value];
    }
  }

  lemma SettledSingle(v: Value)
    ensures Settled([v]) == v
    ensures Recorded([v]) == [] && Recorded([]) == []
  {
    if v.List? {
      assert [v][..0] == [];
      assert [v][0..] == [v];
      assert Flatten([v][..0]) == [];
    }
  }
}

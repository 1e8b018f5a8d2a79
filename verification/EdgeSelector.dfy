/** Deterministic edge selection. */
module EdgeSelector {
  import opened Basics
  import opened Values
  import opened Guard
  import opened Pipelines

  /** The routing hints a completed card supplies. */
  datatype Hints = Hints(routingHint: Option<string>, suggested: seq<string>)

  predicate Passes(e: Edge, ctx: Data) {
    e.condition == None || Evaluation(e.condition.value, ctx) == Ok(true)
  }

  predicate Malformed(e: Edge) {
    e.condition.Some? && !Accepted(e.condition.value)
  }

  function Candidates(edges: seq<Edge>, ctx: Data): (r: seq<Edge>)
    ensures forall e :: e in r <==> e in edges && Passes(e, ctx)
  {
    if edges == [] then [] else
      var front := Candidates(edges[..|edges| - 1], ctx);
      var last := edges[|edges| - 1];
      assert edges == edges[..|edges| - 1] + [last];
      if Passes(last, ctx) then front + [last] else front
  }

  function LabelScore(e: Edge, h: Hints): int {
    if h.routingHint.Some? && e.routeLabel == h.routingHint then 1 else 0
  }

  function SuggestedScore(e: Edge, h: Hints): int {
    if e.target in h.suggested then 1 else 0
  }

  function ConditionScore(e: Edge): int {
    if e.condition.Some? then 1 else 0
  }

  /** The sort key of `a` is strictly below that of `b`: `a` is preferred. */
  predicate Preferred(a: Edge, b: Edge, h: Hints) {
    if ConditionScore(a) != ConditionScore(b) then ConditionScore(a) > ConditionScore(b)
    else if LabelScore(a, h) != LabelScore(b, h) then LabelScore(a, h) > LabelScore(b, h)
    else if SuggestedScore(a, h) != SuggestedScore(b, h) then SuggestedScore(a, h) > SuggestedScore(b, h)
    else if a.weight != b.weight then a.weight > b.weight
    else StrLt(a.target, b.target)
  }

  /** Python's `min`: the first of the least elements. */
  function First(edges: seq<Edge>, h: Hints): Edge
    requires edges != []
  {
    if |edges| == 1 then edges[0] else
      var best := First(edges[..|edges| - 1], h);
      var last := edges[|edges| - 1];
      if Preferred(last, best, h) then last else best
  }

  function Select(edges: seq<Edge>, ctx: Data, h: Hints): Result<Option<Edge>> {
    if exists e | e in edges :: Malformed(e) then Raised
    else if Candidates(edges, ctx) == [] then Ok(None)
    else Ok(Some(First(Candidates(edges, ctx), h)))
  }

  lemma PreferredOrder(a: Edge, b: Edge, c: Edge, h: Hints)
    ensures !(Preferred(a, b, h) && Preferred(b, a, h))
    ensures !Preferred(a, b, h) && !Preferred(b, a, h) ==> a.target == b.target
    ensures Preferred(a, b, h) && !Preferred(c, b, h) ==> !Preferred(c, a, h)
  {
    StrLtTotal(a.target, b.target);
    if Preferred(a, b, h) && Preferred(c, a, h) {
      if StrLt(c.target, a.target) && StrLt(a.target, b.target) {
        StrLtTransitive(c.target, a.target, b.target);
      }
    }
  }

  lemma {:induction false} FirstIsBest(edges: seq<Edge>, h: Hints)
    requires edges != []
    ensures First(edges, h) in edges
    ensures forall e | e in edges :: !Preferred(e, First(edges, h), h)
    decreases |edges|
  {
    var n := |edges| - 1;
    assert edges == edges[..n] + [edges[n]];
    PreferredOrder(edges[n], edges[n], edges[n], h);
    if n > 0 {
      FirstIsBest(edges[..n], h);
      var best := First(edges[..n], h);
      forall e | e in edges
        ensures !Preferred(e, First(edges, h), h)
      {
        PreferredOrder(edges[n], best, e, h);
      }
    }
  }

  /** Selection is total on accepted guards, answers None iff no edge passes,
      and otherwise picks an edge that no passing edge is preferred to. */
  lemma SelectOptimal(edges: seq<Edge>, ctx: Data, h: Hints)
    ensures Select(edges, ctx, h) == Raised <==> exists e :: e in edges && Malformed(e)
    ensures Select(edges, ctx, h) == Ok(None) ==> forall e | e in edges :: !Passes(e, ctx)
    ensures Select(edges, ctx, h).Ok? && (forall e | e in edges :: !Passes(e, ctx)) ==>
      Select(edges, ctx, h) == Ok(None)
    ensures Select(edges, ctx, h).Ok? && Select(edges, ctx, h).value.Some? ==>
      var best := Select(edges, ctx, h).value.value;
      best in edges && Passes(best, ctx) && forall e | e in edges && Passes(e, ctx) :: !Preferred(e, best, h)
  {
    var cs := Candidates(edges, ctx);
    if cs != [] {
      assert cs[0] in cs;
      FirstIsBest(cs, h);
    }
  }

  // ---- The order, on the edges' own fields ------------------------------------------------

  predicate HasHint(e: Edge, h: Hints) {
    h.routingHint.Some? && e.routeLabel == h.routingHint
  }

  /** `e` and `best` agree on having a guard. */
  predicate TiedOnGuard(e: Edge, best: Edge) {
    e.condition.Some? == best.condition.Some?
  }

  predicate TiedOnLabel(e: Edge, best: Edge, h: Hints) {
    TiedOnGuard(e, best) && HasHint(e, h) == HasHint(best, h)
  }

  predicate TiedOnTarget(e: Edge, best: Edge, h: Hints) {
    TiedOnLabel(e, best, h) && (e.target in h.suggested) == (best.target in h.suggested)
  }

  /** Main result: some guard raises and so does selection; or every edge's guard
      is false and none is chosen; or the choice is open, with no guard or a true
      one. It has a guard if an open edge has one; among those like it in this, the
      hinted label if one has it; among those like it in both, a suggested target
      if one has it; then the greatest weight, and then the smallest target. */
  lemma SelectByFields(edges: seq<Edge>, ctx: Data, h: Hints)
    ensures
      match Select(edges, ctx, h)
      case Raised => exists e :: e in edges && e.condition.Some? && Evaluation(e.condition.value, ctx) == Raised
      case Ok(None) => forall e | e in edges :: e.condition.Some? && Evaluation(e.condition.value, ctx) == Ok(false)
      case Ok(Some(best)) =>
        && best in edges && (best.condition == None || Evaluation(best.condition.value, ctx) == Ok(true))
        && (forall e | e in edges && e.condition.Some? :: Evaluation(e.condition.value, ctx) != Raised)
        && (forall e | e in edges && (e.condition == None || Evaluation(e.condition.value, ctx) == Ok(true)) ::
          && (e.condition.Some? ==> best.condition.Some?)
          && (TiedOnGuard(e, best) && HasHint(e, h) ==> HasHint(best, h))
          && (TiedOnLabel(e, best, h) && e.target in h.suggested ==> best.target in h.suggested)
          && (TiedOnTarget(e, best, h) ==> e.weight <= best.weight)
          && (TiedOnTarget(e, best, h) && e.weight == best.weight && e.target != best.target ==>
            StrLt(best.target, e.target)))
  {
    SelectOptimal(edges, ctx, h);
    match Select(edges, ctx, h)
    case Raised =>
      var e :| e in edges && Malformed(e);
      assert Evaluation(e.condition.value, ctx) == Raised;
    case Ok(None) =>
      assert forall e | e in edges :: !Passes(e, ctx) && !Malformed(e);
    case Ok(Some(best)) =>
      forall e | e in edges && e.condition.Some?
        ensures Evaluation(e.condition.value, ctx) != Raised
      {
        assert !Malformed(e);
      }
      forall e | e in edges && Passes(e, ctx)
        ensures !Preferred(e, best, h)
        ensures StrLt(e.target, best.target) || StrLt(best.target, e.target) || e.target == best.target
      {
        StrLtTotal(e.target, best.target);
      }
  }

  /** Only the set of edges matters: any reordering or repetition leaves the
      error, the None and the chosen target as they are. */
  lemma SelectOrderFree(edges: seq<Edge>, other: seq<Edge>, ctx: Data, h: Hints)
    requires forall e :: e in edges <==> e in other
    ensures
      var a, b := Select(edges, ctx, h), Select(other, ctx, h);
      match a
      case Raised => b == Raised
      case Ok(None) => b == Ok(None)
      case Ok(Some(e)) => b.Ok? && b.value.Some? && b.value.value.target == e.target
  {
    SelectOptimal(edges, ctx, h);
    SelectOptimal(other, ctx, h);
    var a, b := Select(edges, ctx, h), Select(other, ctx, h);
    if a.Ok? && a.value.Some? && b.Ok? && b.value.Some? {
      PreferredOrder(a.value.value, b.value.value, a.value.value, h);
    }
  }

  /** A single unconditional edge is always taken. */
  lemma SelectOnly(edges: seq<Edge>, e: Edge, ctx: Data, h: Hints)
    requires edges == [e] && e.condition == None
    ensures Select(edges, ctx, h) == Ok(Some(e))
  {
    assert Candidates(edges[..0], ctx) == [];
    assert Candidates(edges, ctx) == [e];
  }
}

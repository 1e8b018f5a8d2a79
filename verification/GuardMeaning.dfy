/** What comparisons and bare operands mean, in terms of what the evaluator
    answers: on which contexts each of them holds. */
module GuardMeaning {
  import opened Basics
  import opened Values
  import opened Guard

  // ---- What an operand stands for ----------------------------------------------------

  /** `ms` are the mappings a dotted key passes through, the context first. */
  ghost predicate Nested(ctx: Data, path: seq<string>, ms: seq<Data>) {
    && |ms| == |path| && path != [] && ms[0] == ctx
    && forall i | 0 <= i < |path| - 1 :: path[i] in ms[i] && ms[i][path[i]] == Dict(ms[i + 1])
  }

  /** Following the key through nested mappings ends at `v`. */
  ghost predicate Leads(ctx: Data, path: seq<string>, v: Value) {
    exists ms :: Nested(ctx, path, ms) && EndsAt(path, ms, v)
  }

  ghost predicate EndsAt(path: seq<string>, ms: seq<Data>, v: Value)
    requires path != [] && |ms| == |path|
  {
    var n := |path| - 1;
    path[n] in ms[n] && ms[n][path[n]] == v
  }

  /** A literal stands for itself; a key for what it leads to, and for null when
      it leads nowhere or has more than four segments. */
  ghost predicate Stands(o: Operand, ctx: Data, v: Value) {
    match o
    case ONum(n) => v == Num(n)
    case OStr(s) => v == Str(s)
    case OBool(b) => v == Bool(b)
    case ONull => v == Null
    case OKey(path) =>
      if |path| <= 4 && exists w :: Leads(ctx, path, w) then Leads(ctx, path, v) else v == Null
  }

  lemma {:induction false} WalkLeads(path: seq<string>, ctx: Data)
    ensures forall v | Leads(ctx, path, v) :: v == Walk(path, ctx)
    ensures Walk(path, ctx) != Null ==> Leads(ctx, path, Walk(path, ctx))
    decreases |path|
  {
    if |path| == 1 {
      if path[0] in ctx {
        assert Nested(ctx, path, [ctx]) && EndsAt(path, [ctx], ctx[path[0]]);
      }
    } else if |path| > 1 {
      if path[0] in ctx && ctx[path[0]].Dict? {
        var inner := ctx[path[0]].fields;
        WalkLeads(path[1..], inner);
        if Leads(inner, path[1..], Walk(path, ctx)) {
          var ms :| Nested(inner, path[1..], ms) && EndsAt(path[1..], ms, Walk(path, ctx));
          assert Nested(ctx, path, [ctx] + ms) && EndsAt(path, [ctx] + ms, Walk(path, ctx));
        }
      }
      forall v | Leads(ctx, path, v)
        ensures v == Walk(path, ctx)
      {
        var ms :| Nested(ctx, path, ms) && EndsAt(path, ms, v);
        assert path[0] in ms[0];
        assert Nested(ms[1], path[1..], ms[1..]) && EndsAt(path[1..], ms[1..], v);
        assert Leads(ms[1], path[1..], v);
      }
    }
  }

  lemma StandsForOne(o: Operand, ctx: Data, v: Value)
    ensures Stands(o, ctx, v) <==> v == OperandValue(o, ctx)
  {
    if o.OKey? {
      WalkLeads(o.path, ctx);
      if |o.path| <= 4 {
        if w :| Leads(ctx, o.path, w) {
          assert w == Walk(o.path, ctx);
        }
      }
    }
  }

  // ---- Guards of one comparison or one operand ---------------------------------------------

  ghost predicate Compares(c: Condition, l: Operand, op: CmpOp, r: Operand) {
    c.length <= 512 && c.tokens == Some([TOperand(l), TCmp(op), TOperand(r)])
  }

  ghost predicate IsBare(c: Condition, o: Operand) {
    c.length <= 512 && c.tokens == Some([TOperand(o)])
  }

  /** A guard is accepted, in every context, iff it has at most 512 characters and
      its tokens print a well-formed tree that nests at most 32 deep. */
  lemma AcceptedWithinLimits(c: Condition, ctx: Data)
    ensures Evaluation(c, ctx) != Raised <==>
      c.length <= 512 && c.tokens.Some?
      && exists t :: WellFormed(t, 0) && Nesting(t) <= 32 && Unparse(t) == c.tokens.value
  {
    if c.length <= 512 && c.tokens.Some? {
      if t :| WellFormed(t, 0) && Nesting(t) <= 32 && Unparse(t) == c.tokens.value {
        AcceptedExactly(c, c.tokens.value, t);
      }
      if Evaluation(c, ctx) != Raised {
        AcceptedExactly(c, c.tokens.value, ParseGuard(c).value);
      }
    }
  }

  lemma ComparisonEvaluates(c: Condition, l: Operand, op: CmpOp, r: Operand, ctx: Data)
    requires Compares(c, l, op, r)
    ensures Evaluation(c, ctx) == Ok(Compare(op, OperandValue(l, ctx), OperandValue(r, ctx)))
  {
    hide Evaluation, Compare;
    var t := Comparison(op, l, r);
    assert Unparse(t) == [TOperand(l), TCmp(op), TOperand(r)];
    PrintedFormulaEvaluates(c, t, ctx);
  }

  /** A bare operand holds unless it stands for null, false, zero, or something
      empty. */
  lemma TruthOfOperand(c: Condition, o: Operand, ctx: Data, v: Value)
    requires IsBare(c, o) && Stands(o, ctx, v)
    ensures Evaluation(c, ctx) == Ok(v !in {Null, Bool(false), Num(0.0), Str(""), List([]), Dict(map[])})
  {
    hide Evaluation;
    StandsForOne(o, ctx, v);
    assert Unparse(Truth(o)) == [TOperand(o)];
    PrintedFormulaEvaluates(c, Truth(o), ctx);
  }

  /** A key equals a text iff it leads to that text. */
  lemma KeyEqualsText(c: Condition, path: seq<string>, op: CmpOp, x: string, ctx: Data)
    requires Compares(c, OKey(path), op, OStr(x)) && op in {Eq, Ne}
    ensures Evaluation(c, ctx) == Ok((op == Eq) <==> |path| <= 4 && Leads(ctx, path, Str(x)))
  {
    hide Evaluation;
    ComparisonEvaluates(c, OKey(path), op, OStr(x), ctx);
    WalkLeads(path, ctx);
  }

  // ---- Comparing two values -----------------------------------------------------------------

  /** The evaluator's answer to `a op b` on a context that holds just these. */
  ghost predicate Holds(op: CmpOp, a: Value, b: Value) {
    Evaluation(Condition(4, Some([TOperand(OKey(["a"])), TCmp(op), TOperand(OKey(["b"]))])), map["a" := a, "b" := b])
      == Ok(true)
  }

  lemma HoldsCompares(op: CmpOp, a: Value, b: Value)
    ensures Holds(op, a, b) <==> Compare(op, a, b)
  {
    hide Evaluation, Compare;
    var ctx := map["a" := a, "b" := b];
    var c := Condition(4, Some([TOperand(OKey(["a"])), TCmp(op), TOperand(OKey(["b"]))]));
    ComparisonEvaluates(c, OKey(["a"]), op, OKey(["b"]), ctx);
  }

  /** A comparison depends on the values its operands stand for, and on nothing
      else; the laws below say when it holds of two values. */
  lemma ComparisonOfValues(c: Condition, l: Operand, op: CmpOp, r: Operand, ctx: Data, a: Value, b: Value)
    requires Compares(c, l, op, r) && Stands(l, ctx, a) && Stands(r, ctx, b)
    ensures Evaluation(c, ctx) == Ok(Holds(op, a, b))
  {
    hide Evaluation, Compare, Holds;
    StandsForOne(l, ctx, a);
    StandsForOne(r, ctx, b);
    ComparisonEvaluates(c, l, op, r, ctx);
    HoldsCompares(op, a, b);
  }

  /** Numbers, and the booleans as 0 and 1. */
  ghost predicate IsNumber(v: Value, n: real) {
    v == Num(n) || (v == Bool(false) && n == 0.0) || (v == Bool(true) && n == 1.0)
  }

  /** Equality: by kind, and item by item; `!=` is its negation. */
  lemma EqualityLaws(a: Value, b: Value)
    ensures Holds(Ne, a, b) <==> !Holds(Eq, a, b)
    ensures Holds(Eq, a, b) <==>
      match a
      case Null => b == Null
      case Str(x) => b == Str(x)
      case List(x) => b.List? && |x| == |b.items| && forall i | 0 <= i < |x| :: Holds(Eq, x[i], b.items[i])
      case Dict(x) => b.Dict? && x.Keys == b.fields.Keys && forall k | k in x :: Holds(Eq, x[k], b.fields[k])
      case _ => exists n :: IsNumber(a, n) && IsNumber(b, n)
  {
    hide Holds;
    forall op, x, y
      ensures Holds(op, x, y) <==> Compare(op, x, y)
    {
      HoldsCompares(op, x, y);
    }
    if AsNumber(a).Some? && AsNumber(a) == AsNumber(b) {
      assert IsNumber(a, AsNumber(a).value);
    }
  }

  predicate OrderedAs<T(==)>(op: CmpOp, x: T, y: T, less: bool, greater: bool) {
    match op
    case Lt => less
    case Le => less || x == y
    case Gt => greater
    case Ge => greater || x == y
    case _ => false
  }

  predicate IsOrdering(op: CmpOp) {
    op in {Lt, Le, Gt, Ge}
  }

  /** On numbers the orderings are those of the reals. */
  lemma NumbersOrdered(op: CmpOp, a: Value, b: Value, m: real, n: real)
    requires IsOrdering(op) && IsNumber(a, m) && IsNumber(b, n)
    ensures Holds(op, a, b) <==> OrderedAs(op, m, n, m < n, m > n)
  {
    HoldsCompares(op, a, b);
  }

  /** `x` is a proper prefix of `y`, or smaller at the first place they differ. */
  ghost predicate Precedes(x: string, y: string) {
    exists i :: 0 <= i < |y| && i <= |x| && x[..i] == y[..i] && (i == |x| || x[i] < y[i])
  }

  lemma {:induction false} PrecedesIsLt(x: string, y: string)
    ensures Precedes(x, y) <==> StrLt(x, y)
    decreases |x|
  {
    if x != "" && y != "" && x[0] == y[0] {
      PrecedesIsLt(x[1..], y[1..]);
      if StrLt(x[1..], y[1..]) {
        var i :| 0 <= i < |y[1..]| && i <= |x[1..]| && x[1..][..i] == y[1..][..i]
          && (i == |x[1..]| || x[1..][i] < y[1..][i]);
        assert x[..i + 1] == [x[0]] + x[1..][..i] && y[..i + 1] == [y[0]] + y[1..][..i];
      }
      if i :| 0 <= i < |y| && i <= |x| && x[..i] == y[..i] && (i == |x| || x[i] < y[i]) {
        assert x[1..][..i - 1] == x[..i][1..] && y[1..][..i - 1] == y[..i][1..];
      }
    } else if StrLt(x, y) {
      assert x[..0] == y[..0];
    } else if Precedes(x, y) {
      var i :| 0 <= i < |y| && i <= |x| && x[..i] == y[..i] && (i == |x| || x[i] < y[i]);
      SameHeads(x, y, i);
    }
  }

  lemma SameHeads(x: string, y: string, i: nat)
    requires i <= |x| && i <= |y| && x[..i] == y[..i]
    ensures i > 0 ==> x[0] == y[0]
  {
    assert i > 0 ==> x[..i][0] == y[..i][0];
  }

  /** Strings are ordered by code points, a proper prefix first. */
  lemma StringsOrdered(op: CmpOp, x: string, y: string)
    requires IsOrdering(op)
    ensures Holds(op, Str(x), Str(y)) <==> OrderedAs(op, x, y, Precedes(x, y), Precedes(y, x))
  {
    HoldsCompares(op, Str(x), Str(y));
    PrecedesIsLt(x, y);
    PrecedesIsLt(y, x);
    StrLtTotal(x, y);
  }

  /** The two lists are equal before `i`, and differ there or one of them ends. */
  ghost predicate PartAt(x: seq<Value>, y: seq<Value>, i: nat) {
    && i <= |x| && i <= |y|
    && (forall j | 0 <= j < i :: Holds(Eq, x[j], y[j]))
    && (i < |x| && i < |y| ==> !Holds(Eq, x[i], y[i]))
  }

  /** Lists are ordered by the items where they part, or by length. */
  lemma {:induction false} ListsOrdered(op: CmpOp, x: seq<Value>, y: seq<Value>)
    requires IsOrdering(op)
    ensures exists i: nat :: PartAt(x, y, i)
    ensures forall i: nat | PartAt(x, y, i) ::
      Holds(op, List(x), List(y)) <==>
        if i < |x| && i < |y| then Holds(op, x[i], y[i]) else OrderedAs(op, |x|, |y|, |x| < |y|, |x| > |y|)
    decreases |x|
  {
    hide Holds;
    if x == [] || y == [] {
      assert PartAt(x, y, 0);
      EmptyOrdered(op, x, y);
    } else {
      if Holds(Eq, x[0], y[0]) {
        TailsOrdered(op, x, y);
        ListsOrdered(op, x[1..], y[1..]);
        var i: nat :| PartAt(x[1..], y[1..], i);
        PartsOneOn(x, y, i);
        forall i: nat | PartAt(x, y, i)
          ensures i > 0 && PartAt(x[1..], y[1..], i - 1)
          ensures i < |x| && i < |y| ==> x[1..][i - 1] == x[i] && y[1..][i - 1] == y[i]
        {
          PartsOneOn(x, y, i - 1);
        }
      } else {
        assert PartAt(x, y, 0);
        HeadsOrdered(op, x, y);
        forall i: nat | PartAt(x, y, i)
          ensures i == 0
        {
          HeadsBeforePart(x, y, i);
        }
      }
    }
  }

  lemma HeadsBeforePart(x: seq<Value>, y: seq<Value>, i: nat)
    requires PartAt(x, y, i) && x != [] && y != []
    ensures i == 0 || Holds(Eq, x[0], y[0])
  {
  }

  lemma TailsOrdered(op: CmpOp, x: seq<Value>, y: seq<Value>)
    requires IsOrdering(op) && x != [] && y != [] && Holds(Eq, x[0], y[0])
    ensures Holds(op, List(x), List(y)) <==> Holds(op, List(x[1..]), List(y[1..]))
  {
    hide Holds;
    HoldsCompares(Eq, x[0], y[0]);
    HoldsCompares(op, List(x), List(y));
    HoldsCompares(op, List(x[1..]), List(y[1..]));
    assert OrderItems(op, x, y) == OrderItems(op, x[1..], y[1..]);
  }

  lemma HeadsOrdered(op: CmpOp, x: seq<Value>, y: seq<Value>)
    requires IsOrdering(op) && x != [] && y != [] && !Holds(Eq, x[0], y[0])
    ensures Holds(op, List(x), List(y)) <==> Holds(op, x[0], y[0])
  {
    hide Holds;
    HoldsCompares(Eq, x[0], y[0]);
    HoldsCompares(op, x[0], y[0]);
    HoldsCompares(op, List(x), List(y));
    assert OrderItems(op, x, y) == PyOrder(op, x[0], y[0]);
  }

  lemma EmptyOrdered(op: CmpOp, x: seq<Value>, y: seq<Value>)
    requires IsOrdering(op) && (x == [] || y == [])
    ensures Holds(op, List(x), List(y)) <==> OrderedAs(op, |x|, |y|, |x| < |y|, |x| > |y|)
  {
    hide Holds;
    HoldsCompares(op, List(x), List(y));
    assert OrderItems(op, x, y) == OrdReal(op, |x| as real, |y| as real);
  }

  lemma PartsOneOn(x: seq<Value>, y: seq<Value>, i: nat)
    requires x != [] && y != [] && Holds(Eq, x[0], y[0])
    ensures PartAt(x[1..], y[1..], i) <==> PartAt(x, y, i + 1)
  {
    hide Holds;
    if PartAt(x[1..], y[1..], i) {
      forall j | 0 <= j < i + 1
        ensures Holds(Eq, x[j], y[j])
      {
        if j > 0 {
          assert x[1..][j - 1] == x[j] && y[1..][j - 1] == y[j];
        }
      }
    }
    if PartAt(x, y, i + 1) {
      forall j | 0 <= j < i
        ensures Holds(Eq, x[1..][j], y[1..][j])
      {
        assert x[1..][j] == x[j + 1] && y[1..][j] == y[j + 1];
      }
    }
  }

  /** Every other pair is not ordered: all four orderings are false, not errors. */
  lemma MismatchUnordered(op: CmpOp, a: Value, b: Value)
    requires IsOrdering(op)
    requires !(a.Str? && b.Str?) && !(a.List? && b.List?) && !(exists m, n :: IsNumber(a, m) && IsNumber(b, n))
    ensures !Holds(op, a, b)
  {
    HoldsCompares(op, a, b);
    if AsNumber(a).Some? && AsNumber(b).Some? {
      assert IsNumber(a, AsNumber(a).value) && IsNumber(b, AsNumber(b).value);
    }
  }
}

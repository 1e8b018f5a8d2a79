/** The guard language on edges: a fused recursive-descent parser and evaluator,
    specified by "parse to a tree, then denote the tree". The tree parser does
    not see the context, so neither can acceptance. */
module Guard {
  import opened Basics
  import opened Values

  const MAX_GUARD_LENGTH := 512
  const MAX_GUARD_DEPTH := 32

  datatype Operand = ONum(n: real) | OStr(s: string) | OBool(b: bool) | ONull | OKey(path: seq<string>)

  datatype Token = TOperand(o: Operand) | TCmp(op: CmpOp) | TLeft | TRight | TAnd | TOr | TNot

  /** A condition as an edge carries it: its length in characters and its
      tokens, None when the tokeniser rejects the text. */
  datatype Condition = Condition(length: nat, tokens: Option<seq<Token>>)

  /** Tokens of kind OP1: the one-character comparators and both parentheses. */
  predicate IsOp1(t: Token) {
    t in [TLeft, TRight, TCmp(Lt), TCmp(Gt)]
  }

  /** Concrete syntax. A group remembers the token that closed it. */
  datatype Tree =
    | Truth(o: Operand)
    | Comparison(op: CmpOp, l: Operand, r: Operand)
    | Group(inner: Tree, closer: Token)
    | Negate(t: Tree)
    | Both(a: Tree, b: Tree)
    | Either(a: Tree, b: Tree)

  function OperandValue(o: Operand, ctx: Data): Value {
    match o
    case ONum(n) => Num(n)
    case OStr(s) => Str(s)
    case OBool(b) => Bool(b)
    case ONull => Null
    case OKey(path) => ResolveKey(path, ctx)
  }

  predicate Denote(t: Tree, ctx: Data) {
    match t
    case Truth(o) => Truthy(OperandValue(o, ctx))
    case Comparison(op, l, r) => Compare(op, OperandValue(l, ctx), OperandValue(r, ctx))
    case Group(inner, _) => Denote(inner, ctx)
    case Negate(x) => !Denote(x, ctx)
    case Both(a, b) => Denote(a, ctx) && Denote(b, ctx)
    case Either(a, b) => Denote(a, ctx) || Denote(b, ctx)
  }

  // ---- The tree parser --------------------------------------------------

  datatype Parsed = Fail | Parsed(tree: Tree, pos: nat)

  predicate At(ts: seq<Token>, pos: nat, t: Token) {
    pos < |ts| && ts[pos] == t
  }

  function ParseOr(ts: seq<Token>, pos: nat, depth: nat): (r: Parsed)
    requires pos <= |ts|
    ensures r.Parsed? ==> pos < r.pos <= |ts|
    decreases |ts| - pos, 4
  {
    match ParseAnd(ts, pos, depth)
    case Fail => Fail
    case Parsed(t, p) => OrTail(ts, p, depth, t)
  }

  function OrTail(ts: seq<Token>, pos: nat, depth: nat, acc: Tree): (r: Parsed)
    requires pos <= |ts|
    ensures r.Parsed? ==> pos <= r.pos <= |ts|
    decreases |ts| - pos, 3
  {
    if At(ts, pos, TOr) then
      match ParseAnd(ts, pos + 1, depth)
      case Fail => Fail
      case Parsed(t, p) => OrTail(ts, p, depth, Either(acc, t))
    else Parsed(acc, pos)
  }

  function ParseAnd(ts: seq<Token>, pos: nat, depth: nat): (r: Parsed)
    requires pos <= |ts|
    ensures r.Parsed? ==> pos < r.pos <= |ts|
    decreases |ts| - pos, 2
  {
    match ParseNot(ts, pos, depth)
    case Fail => Fail
    case Parsed(t, p) => AndTail(ts, p, depth, t)
  }

  function AndTail(ts: seq<Token>, pos: nat, depth: nat, acc: Tree): (r: Parsed)
    requires pos <= |ts|
    ensures r.Parsed? ==> pos <= r.pos <= |ts|
    decreases |ts| - pos, 1
  {
    if At(ts, pos, TAnd) then
      match ParseNot(ts, pos + 1, depth)
      case Fail => Fail
      case Parsed(t, p) => AndTail(ts, p, depth, Both(acc, t))
    else Parsed(acc, pos)
  }

  function ParseNot(ts: seq<Token>, pos: nat, depth: nat): (r: Parsed)
    requires pos <= |ts|
    ensures r.Parsed? ==> pos < r.pos <= |ts|
    decreases |ts| - pos, 1
  {
    if At(ts, pos, TNot) then
      if depth + 1 > MAX_GUARD_DEPTH then Fail else
        match ParseNot(ts, pos + 1, depth + 1)
        case Fail => Fail
        case Parsed(t, p) => Parsed(Negate(t), p)
    else ParseAtom(ts, pos, depth)
  }

  function ParseAtom(ts: seq<Token>, pos: nat, depth: nat): (r: Parsed)
    requires pos <= |ts|
    ensures r.Parsed? ==> pos < r.pos <= |ts|
    decreases |ts| - pos, 0
  {
    if depth + 1 > MAX_GUARD_DEPTH then Fail
    else if At(ts, pos, TLeft) then
      match ParseOr(ts, pos + 1, depth + 1)
      case Fail => Fail
      case Parsed(t, p) => if p < |ts| && IsOp1(ts[p]) then Parsed(Group(t, ts[p]), p + 1) else Fail
    else ParseComparison(ts, pos)
  }

  predicate OperandAt(ts: seq<Token>, pos: nat) {
    pos < |ts| && ts[pos].TOperand?
  }

  function ParseComparison(ts: seq<Token>, pos: nat): (r: Parsed)
    ensures r.Parsed? ==> pos < r.pos <= |ts|
  {
    if !OperandAt(ts, pos) then Fail
    else if pos + 1 < |ts| && ts[pos + 1].TCmp? then
      if OperandAt(ts, pos + 2) then Parsed(Comparison(ts[pos + 1].op, ts[pos].o, ts[pos + 2].o), pos + 3) else Fail
    else Parsed(Truth(ts[pos].o), pos + 1)
  }

  // ---- The parser object ------------------------------------------------

  /** Parser state, as the source keeps it; `Raised` is a raised
      PipelineValidationError, after which the parser is not used again. */
  class Parser {
    const tokens: seq<Token>
    var pos: nat
    var depth: nat

    constructor (tokens: seq<Token>)
      ensures this.tokens == tokens && pos == 0 && depth == 0
    {
      this.tokens := tokens;
      pos, depth := 0, 0;
    }

    /** What every parsing method promises: it evaluates the tree that the tree
        parser finds, stops where it stops, and restores the depth. */
    twostate predicate Agrees(spec: Parsed, ctx: Data, new r: Result<bool>)
      reads this
    {
      match spec
      case Fail => r == Raised
      case Parsed(t, p) => r == Ok(Denote(t, ctx)) && pos == p && depth == old(depth)
    }

    method Operand(ctx: Data) returns (r: Result<Value>)
      modifies this`pos
      ensures r == Raised <==> !OperandAt(tokens, old(pos))
      ensures r.Ok? ==> r.value == OperandValue(tokens[old(pos)].o, ctx) && pos == old(pos) + 1
    {
      if pos >= |tokens| || !tokens[pos].TOperand? {
        return Raised;
      }
      r := Ok(OperandValue(tokens[pos].o, ctx));
      pos := pos + 1;
    }

    method Comparison(ctx: Data) returns (r: Result<bool>)
      requires pos <= |tokens|
      modifies this`pos
      ensures Agrees(ParseComparison(tokens, old(pos)), ctx, r)
    {
      var left := Operand(ctx);
      if left == Raised {
        return Raised;
      }
      if pos >= |tokens| || !tokens[pos].TCmp? {
        return Ok(Truthy(left.value));
      }
      var op := tokens[pos].op;
      pos := pos + 1;
      var right := Operand(ctx);
      if right == Raised {
        return Raised;
      }
      r := Ok(Compare(op, left.value, right.value));
    }

    method Atom(ctx: Data) returns (r: Result<bool>)
      requires pos <= |tokens|
      modifies this
      ensures Agrees(ParseAtom(tokens, old(pos), old(depth)), ctx, r)
      decreases |tokens| - pos, 0
    {
      depth := depth + 1;
      if depth > MAX_GUARD_DEPTH {
        return Raised;
      }
      if pos < |tokens| && tokens[pos] == TLeft {
        pos := pos + 1;
        r := Or(ctx);
        if r == Raised || pos >= |tokens| || !IsOp1(tokens[pos]) {
          return Raised;
        }
        pos := pos + 1;
        depth := depth - 1;
        return;
      }
      r := Comparison(ctx);
      if r.Ok? {
        depth := depth - 1;
      }
    }

    method Not(ctx: Data) returns (r: Result<bool>)
      requires pos <= |tokens|
      modifies this
      ensures Agrees(ParseNot(tokens, old(pos), old(depth)), ctx, r)
      decreases |tokens| - pos, 1
    {
      if pos < |tokens| && tokens[pos] == TNot {
        depth := depth + 1;
        if depth > MAX_GUARD_DEPTH {
          return Raised;
        }
        pos := pos + 1;
        r := Not(ctx);
        if r.Ok? {
          r := Ok(!r.value);
          depth := depth - 1;
        }
        return;
      }
      r := Atom(ctx);
    }

    method And(ctx: Data) returns (r: Result<bool>)
      requires pos <= |tokens|
      modifies this
      ensures Agrees(ParseAnd(tokens, old(pos), old(depth)), ctx, r)
      decreases |tokens| - pos, 2
    {
      r := Not(ctx);
      if r == Raised {
        return;
      }
      ghost var acc := ParseNot(tokens, old(pos), old(depth)).tree;
      while pos < |tokens| && tokens[pos] == TAnd
        invariant old(pos) < pos <= |tokens| && depth == old(depth)
        invariant r == Ok(Denote(acc, ctx))
        invariant AndTail(tokens, pos, depth, acc) == ParseAnd(tokens, old(pos), old(depth))
      {
        pos := pos + 1;
        ghost var next := ParseNot(tokens, pos, depth);
        var right := Not(ctx);
        if right == Raised {
          return Raised;
        }
        r := Ok(r.value && right.value);
        acc := Both(acc, next.tree);
      }
    }

    method Or(ctx: Data) returns (r: Result<bool>)
      requires pos <= |tokens|
      modifies this
      ensures Agrees(ParseOr(tokens, old(pos), old(depth)), ctx, r)
      decreases |tokens| - pos, 4
    {
      r := And(ctx);
      if r == Raised {
        return;
      }
      ghost var acc := ParseAnd(tokens, old(pos), old(depth)).tree;
      while pos < |tokens| && tokens[pos] == TOr
        invariant old(pos) < pos <= |tokens| && depth == old(depth)
        invariant r == Ok(Denote(acc, ctx))
        invariant OrTail(tokens, pos, depth, acc) == ParseOr(tokens, old(pos), old(depth))
      {
        pos := pos + 1;
        ghost var next := ParseAnd(tokens, pos, depth);
        var right := And(ctx);
        if right == Raised {
          return Raised;
        }
        r := Ok(r.value || right.value);
        acc := Either(acc, next.tree);
      }
    }
  }

  // ---- evaluate ---------------------------------------------------------

  /** The whole-guard parse: no context argument anywhere. */
  function ParseGuard(c: Condition): Option<Tree> {
    if c.length > MAX_GUARD_LENGTH || c.tokens == None then None else
      match ParseOr(c.tokens.value, 0, 0)
      case Fail => None
      case Parsed(t, p) => if p < |c.tokens.value| then None else Some(t)
  }

  predicate Accepted(c: Condition) {
    ParseGuard(c).Some?
  }

  function Evaluation(c: Condition, ctx: Data): Result<bool> {
    match ParseGuard(c)
    case None => Raised
    case Some(t) => Ok(Denote(t, ctx))
  }

  method Evaluate(c: Condition, ctx: Data) returns (r: Result<bool>)
    ensures r == Evaluation(c, ctx)
  {
    if c.length > MAX_GUARD_LENGTH || c.tokens == None {
      return Raised;
    }
    var parser := new Parser(c.tokens.value);
    r := parser.Or(ctx);
    if r.Ok? && parser.pos < |parser.tokens| {
      return Raised;
    }
  }

  // ---- The grammar the code accepts -------------------------------------

  function Unparse(t: Tree): (r: seq<Token>)
    ensures |r| > 0
  {
    match t
    case Truth(o) => [TOperand(o)]
    case Comparison(op, l, r) => [TOperand(l), TCmp(op), TOperand(r)]
    case Group(inner, closer) => [TLeft] + Unparse(inner) + [closer]
    case Negate(x) => [TNot] + Unparse(x)
    case Both(a, b) => Unparse(a) + [TAnd] + Unparse(b)
    case Either(a, b) => Unparse(a) + [TOr] + Unparse(b)
  }

  /** How deep the parser goes: one level per atom, group and `not`. */
  function Nesting(t: Tree): nat {
    match t
    case Truth(_) => 1
    case Comparison(_, _, _) => 1
    case Group(inner, _) => 1 + Nesting(inner)
    case Negate(x) => 1 + Nesting(x)
    case Both(a, b) => if Nesting(a) > Nesting(b) then Nesting(a) else Nesting(b)
    case Either(a, b) => if Nesting(a) > Nesting(b) then Nesting(a) else Nesting(b)
  }

  /** The last thing printed is an operand with no comparator before it; a
      following `<` or `>` would be read as one. */
  predicate EndsBare(t: Tree) {
    match t
    case Truth(_) => true
    case Comparison(_, _, _) => false
    case Group(_, _) => false
    case Negate(x) => EndsBare(x)
    case Both(_, b) => EndsBare(b)
    case Either(_, b) => EndsBare(b)
  }

  /** Precedence: level 0 admits `or`, level 1 `and`, level 2 `not` and atoms;
      both binary operators associate to the left. */
  predicate WellFormed(t: Tree, level: nat) {
    match t
    case Truth(_) => true
    case Comparison(_, _, _) => true
    case Group(inner, closer) => WellFormed(inner, 0) && IsOp1(closer) && (closer.TCmp? ==> !EndsBare(inner))
    case Negate(x) => WellFormed(x, 2)
    case Both(a, b) => level <= 1 && WellFormed(a, 1) && WellFormed(b, 2)
    case Either(a, b) => level == 0 && WellFormed(a, 0) && WellFormed(b, 1)
  }

  /** `u` stands in `ts` at `pos`. */
  ghost predicate Stands(ts: seq<Token>, pos: nat, u: seq<Token>) {
    pos + |u| <= |ts| && ts[pos..pos + |u|] == u
  }

  ghost predicate Spans(ts: seq<Token>, pos: nat, t: Tree) {
    Stands(ts, pos, Unparse(t))
  }

  lemma StandsConcat(ts: seq<Token>, pos: nat, u: seq<Token>, v: seq<Token>)
    ensures Stands(ts, pos, u + v) <==> Stands(ts, pos, u) && Stands(ts, pos + |u|, v)
  {
    var i, j := pos + |u|, pos + |u| + |v|;
    if j <= |ts| {
      assert ts[pos..j] == ts[pos..i] + ts[i..j];
      if ts[pos..j] == u + v {
        assert ts[pos..i] == (u + v)[..|u|] && ts[i..j] == (u + v)[|u|..];
      }
    }
  }

  lemma StandsOne(ts: seq<Token>, pos: nat, t: Token)
    ensures Stands(ts, pos, [t]) <==> At(ts, pos, t)
  {
    if pos < |ts| {
      assert ts[pos..pos + 1] == [ts[pos]];
    }
  }

  lemma StandsBinary(ts: seq<Token>, pos: nat, u: seq<Token>, op: Token, v: seq<Token>)
    ensures Stands(ts, pos, u + [op] + v)
        <==> Stands(ts, pos, u) && At(ts, pos + |u|, op) && Stands(ts, pos + |u| + 1, v)
  {
    StandsConcat(ts, pos, u + [op], v);
    StandsConcat(ts, pos, u, [op]);
    StandsOne(ts, pos + |u|, op);
  }

  ghost predicate NoComparatorAt(ts: seq<Token>, pos: nat) {
    pos < |ts| ==> !ts[pos].TCmp?
  }

  /** What a successful parse from `pos` to `r.pos` at `level` establishes. */
  ghost predicate Sound(ts: seq<Token>, pos: nat, depth: nat, level: nat, r: Parsed) {
    r.Parsed? ==>
      && WellFormed(r.tree, level)
      && Spans(ts, pos, r.tree)
      && r.pos == pos + |Unparse(r.tree)|
      && depth + Nesting(r.tree) <= MAX_GUARD_DEPTH
      && (EndsBare(r.tree) ==> NoComparatorAt(ts, r.pos))
  }

  lemma StandsGroup(ts: seq<Token>, pos: nat, u: seq<Token>, closer: Token)
    ensures Stands(ts, pos, [TLeft] + u + [closer])
        <==> At(ts, pos, TLeft) && Stands(ts, pos + 1, u) && At(ts, pos + 1 + |u|, closer)
  {
    StandsConcat(ts, pos, [TLeft] + u, [closer]);
    StandsConcat(ts, pos, [TLeft], u);
    StandsOne(ts, pos, TLeft);
    StandsOne(ts, pos + 1 + |u|, closer);
  }

  lemma {:induction false} OrSound(ts: seq<Token>, pos: nat, depth: nat)
    requires pos <= |ts|
    ensures Sound(ts, pos, depth, 0, ParseOr(ts, pos, depth))
    decreases |ts| - pos, 4
  {
    AndSound(ts, pos, depth);
    match ParseAnd(ts, pos, depth)
    case Fail =>
    case Parsed(t, p) => OrTailSound(ts, pos, p, depth, t);
  }

  lemma {:induction false} OrTailSound(ts: seq<Token>, from: nat, pos: nat, depth: nat, acc: Tree)
    requires from < pos <= |ts|
    requires Sound(ts, from, depth, 0, Parsed(acc, pos))
    ensures Sound(ts, from, depth, 0, OrTail(ts, pos, depth, acc))
    decreases |ts| - pos, 3
  {
    hide Stands;
    if At(ts, pos, TOr) {
      AndSound(ts, pos + 1, depth);
      match ParseAnd(ts, pos + 1, depth)
      case Fail =>
      case Parsed(t, p) =>
        StandsBinary(ts, from, Unparse(acc), TOr, Unparse(t));
        OrTailSound(ts, from, p, depth, Either(acc, t));
    }
  }

  lemma {:induction false} AndSound(ts: seq<Token>, pos: nat, depth: nat)
    requires pos <= |ts|
    ensures Sound(ts, pos, depth, 1, ParseAnd(ts, pos, depth))
    ensures Sound(ts, pos, depth, 0, ParseAnd(ts, pos, depth))
    decreases |ts| - pos, 2
  {
    NotSound(ts, pos, depth);
    match ParseNot(ts, pos, depth)
    case Fail =>
    case Parsed(t, p) => AndTailSound(ts, pos, p, depth, t);
  }

  lemma {:induction false} AndTailSound(ts: seq<Token>, from: nat, pos: nat, depth: nat, acc: Tree)
    requires from < pos <= |ts|
    requires Sound(ts, from, depth, 1, Parsed(acc, pos))
    ensures Sound(ts, from, depth, 1, AndTail(ts, pos, depth, acc))
    decreases |ts| - pos, 1
  {
    hide Stands;
    if At(ts, pos, TAnd) {
      NotSound(ts, pos + 1, depth);
      match ParseNot(ts, pos + 1, depth)
      case Fail =>
      case Parsed(t, p) =>
        StandsBinary(ts, from, Unparse(acc), TAnd, Unparse(t));
        AndTailSound(ts, from, p, depth, Both(acc, t));
    }
  }

  lemma {:induction false} NotSound(ts: seq<Token>, pos: nat, depth: nat)
    requires pos <= |ts|
    ensures Sound(ts, pos, depth, 2, ParseNot(ts, pos, depth))
    decreases |ts| - pos, 1
  {
    if At(ts, pos, TNot) {
      if depth + 1 <= MAX_GUARD_DEPTH {
        NotSound(ts, pos + 1, depth + 1);
        match ParseNot(ts, pos + 1, depth + 1)
        case Fail =>
        case Parsed(t, p) =>
          StandsBinary(ts, pos, [], TNot, Unparse(t));
          assert [] + [TNot] + Unparse(t) == Unparse(Negate(t));
      }
    } else {
      AtomSound(ts, pos, depth);
    }
  }

  lemma {:induction false} AtomSound(ts: seq<Token>, pos: nat, depth: nat)
    requires pos <= |ts|
    ensures Sound(ts, pos, depth, 2, ParseAtom(ts, pos, depth))
    decreases |ts| - pos, 0
  {
    if depth + 1 <= MAX_GUARD_DEPTH && At(ts, pos, TLeft) {
      OrSound(ts, pos + 1, depth + 1);
      match ParseOr(ts, pos + 1, depth + 1)
      case Fail =>
      case Parsed(t, p) =>
        if p < |ts| && IsOp1(ts[p]) {
          StandsGroup(ts, pos, Unparse(t), ts[p]);
        }
    }
  }

  /** Parsing a printed tree at its own level picks up exactly where the
      corresponding loop would continue after it. */
  lemma {:induction false} NotComplete(ts: seq<Token>, pos: nat, depth: nat, t: Tree)
    requires Spans(ts, pos, t) && WellFormed(t, 2) && depth + Nesting(t) <= MAX_GUARD_DEPTH
    requires EndsBare(t) ==> NoComparatorAt(ts, pos + |Unparse(t)|)
    ensures ParseNot(ts, pos, depth) == Parsed(t, pos + |Unparse(t)|)
    decreases t, 0
  {
    hide Stands;
    match t
    case Truth(o) =>
      StandsOne(ts, pos, TOperand(o));
    case Comparison(op, l, r) =>
      StandsBinary(ts, pos, [TOperand(l)], TCmp(op), [TOperand(r)]);
      StandsOne(ts, pos, TOperand(l));
      StandsOne(ts, pos + 2, TOperand(r));
      assert [TOperand(l)] + [TCmp(op)] + [TOperand(r)] == Unparse(t);
    case Negate(x) =>
      StandsBinary(ts, pos, [], TNot, Unparse(x));
      assert [] + [TNot] + Unparse(x) == Unparse(t);
      NotComplete(ts, pos + 1, depth + 1, x);
    case Group(inner, closer) =>
      StandsGroup(ts, pos, Unparse(inner), closer);
      OrComplete(ts, pos + 1, depth + 1, inner);
  }

  lemma {:induction false} AndComplete(ts: seq<Token>, pos: nat, depth: nat, t: Tree)
    requires Spans(ts, pos, t) && WellFormed(t, 1) && depth + Nesting(t) <= MAX_GUARD_DEPTH
    requires EndsBare(t) ==> NoComparatorAt(ts, pos + |Unparse(t)|)
    ensures ParseAnd(ts, pos, depth) == AndTail(ts, pos + |Unparse(t)|, depth, t)
    decreases t, 1
  {
    hide Stands;
    if t.Both? {
      StandsBinary(ts, pos, Unparse(t.a), TAnd, Unparse(t.b));
      AndComplete(ts, pos, depth, t.a);
      NotComplete(ts, pos + |Unparse(t.a)| + 1, depth, t.b);
    } else {
      NotComplete(ts, pos, depth, t);
    }
  }

  lemma {:induction false} OrComplete(ts: seq<Token>, pos: nat, depth: nat, t: Tree)
    requires Spans(ts, pos, t) && WellFormed(t, 0) && depth + Nesting(t) <= MAX_GUARD_DEPTH
    requires EndsBare(t) ==> NoComparatorAt(ts, pos + |Unparse(t)|)
    requires !At(ts, pos + |Unparse(t)|, TAnd)
    ensures ParseOr(ts, pos, depth) == OrTail(ts, pos + |Unparse(t)|, depth, t)
    decreases t, 2
  {
    hide Stands;
    if t.Either? {
      StandsBinary(ts, pos, Unparse(t.a), TOr, Unparse(t.b));
      OrComplete(ts, pos, depth, t.a);
      AndComplete(ts, pos + |Unparse(t.a)| + 1, depth, t.b);
    } else {
      AndComplete(ts, pos, depth, t);
    }
  }

  /** Exact acceptance, with the value: a token list parses to `t` iff it is
      the printing of the well-formed `t` and nests at most 32 deep. */
  lemma AcceptedExactly(c: Condition, ts: seq<Token>, t: Tree)
    requires c.length <= MAX_GUARD_LENGTH && c.tokens == Some(ts)
    ensures ParseGuard(c) == Some(t) <==> WellFormed(t, 0) && Nesting(t) <= MAX_GUARD_DEPTH && Unparse(t) == ts
  {
    if ParseGuard(c) == Some(t) {
      OrSound(ts, 0, 0);
      assert ts[0..|ts|] == ts;
    }
    if WellFormed(t, 0) && Nesting(t) <= MAX_GUARD_DEPTH && Unparse(t) == ts {
      assert ts[0..|ts|] == ts;
      OrComplete(ts, 0, 0, t);
    }
  }

  /** So a token list has at most one reading. */
  lemma UniqueReading(t: Tree, u: Tree)
    requires WellFormed(t, 0) && WellFormed(u, 0) && Unparse(t) == Unparse(u)
    requires Nesting(t) <= MAX_GUARD_DEPTH && Nesting(u) <= MAX_GUARD_DEPTH
    ensures t == u
  {
    var c := Condition(0, Some(Unparse(t)));
    AcceptedExactly(c, Unparse(t), t);
    AcceptedExactly(c, Unparse(t), u);
  }

  // ---- Every formula can be written down --------------------------------

  /** A formula is a tree without groups, of any shape. */
  predicate IsFormula(t: Tree) {
    match t
    case Truth(_) => true
    case Comparison(_, _, _) => true
    case Group(_, _) => false
    case Negate(x) => IsFormula(x)
    case Both(a, b) => IsFormula(a) && IsFormula(b)
    case Either(a, b) => IsFormula(a) && IsFormula(b)
  }

  /** The formula with a parenthesis pair exactly where precedence needs one. */
  function Layout(t: Tree, level: nat): Tree {
    match t
    case Negate(x) => Negate(Layout(x, 2))
    case Both(a, b) =>
      var body := Both(Layout(a, 1), Layout(b, 2));
      if level <= 1 then body else Group(body, TRight)
    case Either(a, b) =>
      var body := Either(Layout(a, 0), Layout(b, 1));
      if level == 0 then body else Group(body, TRight)
    case _ => t
  }

  lemma {:induction false} LayoutFaithful(t: Tree, level: nat, ctx: Data)
    requires IsFormula(t)
    ensures WellFormed(Layout(t, level), level) && Documented(Layout(t, level))
    ensures Denote(Layout(t, level), ctx) == Denote(t, ctx)
  {
    match t
    case Negate(x) => LayoutFaithful(x, 2, ctx);
    case Both(a, b) => LayoutFaithful(a, 1, ctx); LayoutFaithful(b, 2, ctx);
    case Either(a, b) => LayoutFaithful(a, 0, ctx); LayoutFaithful(b, 1, ctx);
    case _ =>
  }

  /** The formula a tree stands for. */
  function Ungroup(t: Tree): Tree {
    match t
    case Group(inner, _) => Ungroup(inner)
    case Negate(x) => Negate(Ungroup(x))
    case Both(a, b) => Both(Ungroup(a), Ungroup(b))
    case Either(a, b) => Either(Ungroup(a), Ungroup(b))
    case _ => t
  }

  function Groups(t: Tree): nat {
    match t
    case Group(inner, _) => 1 + Groups(inner)
    case Negate(x) => Groups(x)
    case Both(a, b) => Groups(a) + Groups(b)
    case Either(a, b) => Groups(a) + Groups(b)
    case _ => 0
  }

  lemma {:induction false} LayoutLevel(t: Tree, low: nat, high: nat)
    requires IsFormula(t) && low <= high <= 2
    ensures Groups(Layout(t, low)) <= Groups(Layout(t, high)) <= Groups(Layout(t, low)) + 1
  {
  }

  /** No well-formed tree of the same formula has fewer groups than its layout. */
  lemma {:induction false} LayoutMinimal(u: Tree, level: nat)
    requires WellFormed(u, level) && level <= 2
    ensures IsFormula(Ungroup(u)) && Ungroup(Layout(Ungroup(u), level)) == Ungroup(u)
    ensures Groups(Layout(Ungroup(u), level)) <= Groups(u)
  {
    match u
    case Truth(_) =>
    case Comparison(_, _, _) =>
    case Group(inner, _) =>
      LayoutMinimal(inner, 0);
      LayoutLevel(Ungroup(inner), 0, level);
      LayoutUngroups(Ungroup(inner), level);
    case Negate(x) => LayoutMinimal(x, 2);
    case Both(a, b) =>
      LayoutMinimal(a, 1);
      LayoutMinimal(b, 2);
    case Either(a, b) =>
      LayoutMinimal(a, 0);
      LayoutMinimal(b, 1);
  }

  lemma {:induction false} LayoutUngroups(t: Tree, level: nat)
    requires IsFormula(t)
    ensures Ungroup(Layout(t, level)) == t
  {
    match t
    case Negate(x) => LayoutUngroups(x, 2);
    case Both(a, b) => LayoutUngroups(a, 1); LayoutUngroups(b, 2);
    case Either(a, b) => LayoutUngroups(a, 0); LayoutUngroups(b, 1);
    case _ =>
  }

  /** Printing a formula and evaluating the text gives the formula's meaning. */
  lemma PrintedFormulaEvaluates(c: Condition, t: Tree, ctx: Data)
    requires IsFormula(t) && Nesting(Layout(t, 0)) <= MAX_GUARD_DEPTH
    requires c.length <= MAX_GUARD_LENGTH && c.tokens == Some(Unparse(Layout(t, 0)))
    ensures Evaluation(c, ctx) == Ok(Denote(t, ctx))
  {
    LayoutFaithful(t, 0, ctx);
    AcceptedExactly(c, c.tokens.value, Layout(t, 0));
  }

  // ---- Where the code and its documented grammar part --------------------

  /** The documented grammar closes every group with a right parenthesis. */
  predicate Documented(t: Tree) {
    match t
    case Truth(_) => true
    case Comparison(_, _, _) => true
    case Group(inner, closer) => closer == TRight && Documented(inner)
    case Negate(x) => Documented(x)
    case Both(a, b) => Documented(a) && Documented(b)
    case Either(a, b) => Documented(a) && Documented(b)
  }

  function Weight(t: Token): int {
    if t == TLeft then 1 else if t == TRight then -1 else 0
  }

  /** Left parentheses minus right parentheses. */
  function Excess(ts: seq<Token>): int {
    if ts == [] then 0 else Weight(ts[0]) + Excess(ts[1..])
  }

  predicate Balanced(ts: seq<Token>) {
    Excess(ts) == 0
  }

  lemma {:induction false} ExcessConcat(u: seq<Token>, v: seq<Token>)
    ensures Excess(u + v) == Excess(u) + Excess(v)
  {
    if u == [] {
      assert u + v == v;
    } else {
      assert (u + v)[1..] == u[1..] + v;
      ExcessConcat(u[1..], v);
    }
  }

  lemma ExcessBinary(u: seq<Token>, op: Token, v: seq<Token>)
    ensures Excess(u + [op] + v) == Excess(u) + Weight(op) + Excess(v)
  {
    ExcessConcat(u + [op], v);
    ExcessConcat(u, [op]);
    assert [op][1..] == [];
  }

  lemma {:induction false} ClosersCounted(t: Tree)
    requires WellFormed(t, 0)
    ensures Excess(Unparse(t)) >= 0
    ensures Balanced(Unparse(t)) <==> Documented(t)
  {
    match t
    case Truth(_) =>
    case Comparison(op, l, r) =>
      ExcessBinary([TOperand(l)], TCmp(op), [TOperand(r)]);
      assert [TOperand(l)] + [TCmp(op)] + [TOperand(r)] == Unparse(t);
    case Group(inner, closer) =>
      ClosersCounted(inner);
      ExcessBinary([TLeft] + Unparse(inner), closer, []);
      assert [TLeft] + Unparse(inner) + [closer] + [] == Unparse(t);
      ExcessConcat([TLeft], Unparse(inner));
    case Negate(x) =>
      ClosersCounted(x);
      ExcessConcat([TNot], Unparse(x));
    case Both(a, b) =>
      ClosersCounted(a);
      ClosersCounted(b);
      ExcessBinary(Unparse(a), TAnd, Unparse(b));
    case Either(a, b) =>
      ClosersCounted(a);
      ClosersCounted(b);
      ExcessBinary(Unparse(a), TOr, Unparse(b));
  }

  /** An accepted guard is a guard of the documented grammar iff its left and
      right parentheses are equally many. */
  lemma DocumentedIffBalanced(c: Condition)
    requires Accepted(c)
    ensures
      (exists t :: WellFormed(t, 0) && Documented(t) && Nesting(t) <= MAX_GUARD_DEPTH
        && Unparse(t) == c.tokens.value)
      <==> Balanced(c.tokens.value)
  {
    var t := ParseGuard(c).value;
    AcceptedExactly(c, c.tokens.value, t);
    ClosersCounted(t);
    forall u | WellFormed(u, 0) && Documented(u) && Unparse(u) == c.tokens.value
      ensures Balanced(c.tokens.value)
    {
      ClosersCounted(u);
    }
  }

  /** `( a (` is accepted, and reads as `( a )`, though no documented guard
      prints that way. */
  lemma UndocumentedGuardAccepted()
    ensures
      var c := Condition(5, Some([TLeft, TOperand(OKey(["a"])), TLeft]));
      Accepted(c) && !Balanced(c.tokens.value)
  {
    var ts := [TLeft, TOperand(OKey(["a"])), TLeft];
    var t := Group(Truth(OKey(["a"])), TLeft);
    assert Unparse(t) == ts;
    AcceptedExactly(Condition(5, Some(ts)), ts, t);
    assert ts == [TLeft] + [TOperand(OKey(["a"]))] + [TLeft];
  }
}

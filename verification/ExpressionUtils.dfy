/** Rewriting of boolean filter expressions. */
module LogicalExpression {
  datatype Kind = And | Or

  datatype Expr = Atom(id: int) | Logical(kind: Kind, operands: seq<Expr>)

  predicate IsKind(e: Expr, k: Kind) {
    e.Logical? && e.kind == k
  }

  /** What the rewriter expects: a binary And, and an Or of at least two operands. */
  predicate WellFormed(e: Expr) {
    e.Logical? ==>
      && (if e.kind.And? then |e.operands| == 2 else |e.operands| >= 2)
      && forall i :: 0 <= i < |e.operands| ==> WellFormed(e.operands[i])
  }

  predicate AllWellFormed(es: seq<Expr>) {
    forall i :: 0 <= i < |es| ==> WellFormed(es[i])
  }

  /** Truth values are ordered (false below null below true), And is the least and Or the
      greatest of its operands. Nothing below depends on there being three of them. */
  function Join(k: Kind, x: int, y: int): int {
    if k.And? then (if x <= y then x else y) else (if x <= y then y else x)
  }

  function Eval(e: Expr, env: int -> int): int
    decreases e, 1
  {
    match e
    case Atom(id) => env(id)
    case Logical(k, ops) => EvalAll(k, ops, env)
  }

  /** The value of no operands at all is never asked for. */
  function EvalAll(k: Kind, es: seq<Expr>, env: int -> int): int
    decreases es, 0
  {
    if es == [] then 0
    else if |es| == 1 then Eval(es[0], env)
    else Join(k, Eval(es[0], env), EvalAll(k, es[1..], env))
  }

  lemma {:induction false} EvalConcat(k: Kind, a: seq<Expr>, b: seq<Expr>, env: int -> int)
    requires |a| > 0 && |b| > 0
    ensures EvalAll(k, a + b, env) == Join(k, EvalAll(k, a, env), EvalAll(k, b, env))
  {
    if |a| == 1 {
      assert (a + b)[1..] == b;
    } else {
      assert (a + b)[1..] == a[1..] + b;
      EvalConcat(k, a[1..], b, env);
    }
  }

  /** Every And and Or has an operand. */
  predicate Populated(e: Expr) {
    e.Logical? ==> |e.operands| > 0 && forall i :: 0 <= i < |e.operands| ==> Populated(e.operands[i])
  }

  predicate AllPopulated(es: seq<Expr>) {
    forall i :: 0 <= i < |es| ==> Populated(es[i])
  }

  lemma {:induction false} WellFormedPopulated(e: Expr)
    requires WellFormed(e)
    ensures Populated(e)
    decreases e
  {
    if e.Logical? {
      forall i | 0 <= i < |e.operands| ensures Populated(e.operands[i]) { WellFormedPopulated(e.operands[i]); }
    }
  }
}

/** The functions that `ExpressionUtils` computes. */
module ExpandSpec {
  import opened LogicalExpression

  /** The operands of a nest of `k`, left to right (pullAndsImpl, pullOrsImpl, expandImplOr). */
  function Flatten(k: Kind, es: seq<Expr>): seq<Expr> {
    if es == [] then []
    else (if IsKind(es[0], k) then Flatten(k, es[0].operands) else [es[0]]) + Flatten(k, es[1..])
  }

  /** A left-deep nest of `k` over the given operands (pushImpl). */
  function Push(k: Kind, es: seq<Expr>): Expr
    requires |es| >= 2
  {
    var n := |es| - 1;
    Logical(k, [if n == 1 then es[0] else Push(k, es[..n]), es[n]])
  }

  function Pair(l: Expr, r: Expr): Expr {
    Logical(And, [l, r])
  }

  function Row(l: Expr, rs: seq<Expr>): seq<Expr> {
    seq(|rs|, i requires 0 <= i < |rs| => Pair(l, rs[i]))
  }

  /** All conjunctions of one left and one right operand. */
  function Product(ls: seq<Expr>, rs: seq<Expr>): seq<Expr> {
    if ls == [] then [] else Row(ls[0], rs) + Product(ls[1..], rs)
  }

  /** One expression as it is, several as a nest of Or. */
  function OrOf(es: seq<Expr>): Expr
    requires es != []
  {
    if |es| == 1 then es[0] else Push(Or, es)
  }

  // The measure under which rewriting terminates: an And multiplies, an Or adds.

  function Weight(e: Expr): nat
    requires WellFormed(e)
    decreases e, 1
  {
    match e
    case Atom(_) => 2
    case Logical(And, ops) => Weight(ops[0]) * Weight(ops[1])
    case Logical(Or, ops) => WeightAll(ops)
  }

  function WeightAll(es: seq<Expr>): nat
    requires |es| > 0 && AllWellFormed(es)
    decreases es, 0
  {
    if |es| == 1 then Weight(es[0]) else Weight(es[0]) + 1 + WeightAll(es[1..])
  }

  lemma {:induction false} WeightAtLeastTwo(e: Expr)
    requires WellFormed(e)
    ensures Weight(e) >= 2
    decreases e
  {
    match e
    case Atom(_) =>
    case Logical(And, ops) =>
      WeightAtLeastTwo(ops[0]);
      WeightAtLeastTwo(ops[1]);
      Times(Weight(ops[0]), Weight(ops[1]));
    case Logical(Or, ops) => WeightAtLeastTwo(ops[0]);
  }

  /** Facts about the products of weights. */
  lemma Times(x: nat, y: nat)
    requires x >= 2 && y >= 2
    ensures x * y >= 2 * x && x * y >= 2 * y && x * y >= 2
  {
    assert x * y == 2 * y + (x - 2) * y;
    assert x * y == 2 * x + (y - 2) * x;
  }

  lemma {:induction false} OperandLighter(es: seq<Expr>, i: nat)
    requires AllWellFormed(es) && i < |es|
    ensures Weight(es[i]) <= WeightAll(es) && (|es| > 1 ==> Weight(es[i]) < WeightAll(es))
    decreases |es|
  {
    if |es| > 1 {
      WeightAtLeastTwo(es[0]);
      if i > 0 {
        OperandLighter(es[1..], i - 1);
      }
    }
  }

  lemma SideLighter(e: Expr, i: nat)
    requires WellFormed(e) && IsKind(e, And) && i < 2
    ensures Weight(e.operands[i]) < Weight(e)
  {
    WeightAtLeastTwo(e.operands[0]);
    WeightAtLeastTwo(e.operands[1]);
    Times(Weight(e.operands[0]), Weight(e.operands[1]));
  }

  lemma {:induction false} WeightConcat(a: seq<Expr>, b: seq<Expr>)
    requires |a| > 0 && |b| > 0 && AllWellFormed(a) && AllWellFormed(b)
    ensures AllWellFormed(a + b) && WeightAll(a + b) == WeightAll(a) + 1 + WeightAll(b)
  {
    if |a| == 1 {
      assert (a + b)[1..] == b;
    } else {
      assert (a + b)[1..] == a[1..] + b;
      WeightConcat(a[1..], b);
    }
  }

  lemma {:induction false} FlattenKeeps(k: Kind, es: seq<Expr>)
    requires |es| > 0 && AllWellFormed(es)
    ensures |Flatten(k, es)| >= |es| && AllWellFormed(Flatten(k, es))
    ensures k.Or? ==> WeightAll(Flatten(k, es)) == WeightAll(es)
    ensures forall i :: 0 <= i < |Flatten(k, es)| ==> !IsKind(Flatten(k, es)[i], k)
    decreases es
  {
    if IsKind(es[0], k) {
      FlattenKeeps(k, es[0].operands);
    }
    var head := if IsKind(es[0], k) then Flatten(k, es[0].operands) else [es[0]];
    if |es| > 1 {
      FlattenKeeps(k, es[1..]);
      if k.Or? {
        WeightConcat(head, Flatten(k, es[1..]));
      }
    } else {
      assert Flatten(k, es) == head + Flatten(k, []) == head;
    }
  }

  lemma {:induction false} PushKeeps(k: Kind, es: seq<Expr>)
    requires |es| >= 2 && AllWellFormed(es)
    ensures WellFormed(Push(k, es)) && (k.Or? ==> Weight(Push(k, es)) == WeightAll(es))
  {
    var n := |es| - 1;
    assert Push(k, es).operands[1..] == [es[n]] == es[n..];
    if n > 1 {
      PushKeeps(k, es[..n]);
      assert es == es[..n] + [es[n]];
      WeightConcat(es[..n], [es[n]]);
    }
  }

  lemma {:induction false} RowKeeps(l: Expr, rs: seq<Expr>)
    requires WellFormed(l) && AllWellFormed(rs) && |rs| > 0
    ensures AllWellFormed(Row(l, rs))
    ensures WeightAll(Row(l, rs)) <= Weight(l) * WeightAll(rs)
    ensures |rs| > 1 ==> WeightAll(Row(l, rs)) < Weight(l) * WeightAll(rs)
    decreases |rs|
  {
    WeightAtLeastTwo(l);
    if |rs| > 1 {
      RowKeeps(l, rs[1..]);
      assert Row(l, rs)[1..] == Row(l, rs[1..]);
      var w, x, y := Weight(l), Weight(rs[0]), WeightAll(rs[1..]);
      assert w * (x + 1 + y) == w * x + w + w * y;
    }
  }

  lemma Distribute(x: nat, y: nat, w: nat, p: nat, q: nat)
    requires p <= x * w && q <= y * w && w >= 2
    ensures p + 1 + q < (x + 1 + y) * w
  {
    assert (x + 1 + y) * w == x * w + w + y * w;
  }

  /** Distributing And over Or makes the expression lighter. */
  lemma {:induction false} ProductKeeps(ls: seq<Expr>, rs: seq<Expr>)
    requires |ls| > 0 && |rs| > 0 && AllWellFormed(ls) && AllWellFormed(rs)
    ensures |Product(ls, rs)| > 0 && (|ls| > 1 || |rs| > 1 ==> |Product(ls, rs)| > 1)
    ensures AllWellFormed(Product(ls, rs))
    ensures WeightAll(Product(ls, rs)) <= WeightAll(ls) * WeightAll(rs)
    ensures |ls| > 1 || |rs| > 1 ==> WeightAll(Product(ls, rs)) < WeightAll(ls) * WeightAll(rs)
    decreases |ls|
  {
    RowKeeps(ls[0], rs);
    if |ls| > 1 {
      ProductKeeps(ls[1..], rs);
      WeightConcat(Row(ls[0], rs), Product(ls[1..], rs));
      WeightAtLeastTwo(rs[0]);
      OperandLighter(rs, 0);
      Distribute(Weight(ls[0]), WeightAll(ls[1..]), WeightAll(rs), WeightAll(Row(ls[0], rs)),
        WeightAll(Product(ls[1..], rs)));
    } else {
      assert Product(ls, rs) == Row(ls[0], rs) + Product([], rs) == Row(ls[0], rs);
    }
  }

  lemma TimesMonotone(x: nat, y: nat, u: nat, v: nat)
    requires x <= u && y <= v
    ensures x * y <= u * v
    ensures (x < u && v > 0) || (y < v && u > 0) ==> x * y < u * v
  {
    assert u * v == x * y + (u - x) * v + x * (v - y);
    assert (u - x) * v + x * (v - y) == (v - y) * u + (u - x) * y;
  }

  /** What one side of an And contributes: the operands of an Or, or the rewritten side. */
  ghost predicate IsSideOf(s: seq<Expr>, x: Expr)
    requires WellFormed(x)
  {
    && |s| > 0 && AllWellFormed(s) && WeightAll(s) <= Weight(x)
    && (IsKind(x, Or) ==> |s| > 1)
    && (!IsKind(x, Or) ==> |s| == 1 && (IsKind(s[0], Or) ==> Weight(s[0]) < Weight(x)))
  }

  ghost predicate Lighter(t: Expr, e: Expr)
    requires WellFormed(e)
  {
    && WellFormed(t) && Weight(t) <= Weight(e)
    && (IsKind(t, Or) ==> Weight(t) < Weight(e))
    && (IsKind(t, And) && (IsKind(t.operands[0], Or) || IsKind(t.operands[1], Or)) ==> Weight(t) < Weight(e))
  }

  lemma ProductLighter(e: Expr, ls: seq<Expr>, rs: seq<Expr>)
    requires WellFormed(e) && IsKind(e, And) && IsSideOf(ls, e.operands[0]) && IsSideOf(rs, e.operands[1])
    ensures Product(ls, rs) != [] && Lighter(OrOf(Product(ls, rs)), e)
  {
    var l, r := e.operands[0], e.operands[1];
    WeightAtLeastTwo(l);
    WeightAtLeastTwo(r);
    ProductKeeps(ls, rs);
    TimesMonotone(WeightAll(ls), WeightAll(rs), Weight(l), Weight(r));
    if |ls| > 1 || |rs| > 1 {
      PushKeeps(Or, Product(ls, rs));
    } else {
      assert Product(ls, rs) == Row(ls[0], rs) + Product([], rs) == [Pair(ls[0], rs[0])];
    }
  }

  // The rewriting itself.

  function Expand(e: Expr): (r: Expr)
    requires WellFormed(e)
    ensures WellFormed(r) && Weight(r) <= Weight(e)
    ensures !IsKind(e, Or) && IsKind(r, Or) ==> Weight(r) < Weight(e)
    decreases Weight(e), 3, 0
  {
    match e
    case Atom(_) => e
    case Logical(Or, ops) =>
      assert forall i :: 0 <= i < |ops| ==> Weight(ops[i]) < Weight(e) by {
        forall i | 0 <= i < |ops| ensures Weight(ops[i]) < Weight(e) { OperandLighter(ops, i); }
      }
      var ts := ExpandAll(ops, Weight(e));
      PushKeeps(Or, ts);
      Push(Or, ts)
    case Logical(And, ops) =>
      var t := ExpandAnd(e);
      if IsKind(t, And) && (IsKind(t.operands[0], Or) || IsKind(t.operands[1], Or)) then Expand(t) else t
  }

  function ExpandAll(es: seq<Expr>, ghost limit: nat): (ts: seq<Expr>)
    requires AllWellFormed(es) && forall i :: 0 <= i < |es| ==> Weight(es[i]) < limit
    ensures |ts| == |es| && AllWellFormed(ts) && (|es| > 0 ==> WeightAll(ts) <= WeightAll(es))
    decreases limit, 0, |es|
  {
    if es == [] then []
    else
      var t := if IsKind(es[0], And) then ExpandAnd(es[0]) else Expand(es[0]);
      var rest := ExpandAll(es[1..], limit);
      assert ([t] + rest)[1..] == rest;
      [t] + rest
  }

  function ExpandAnd(e: Expr): (t: Expr)
    requires WellFormed(e) && IsKind(e, And)
    ensures Lighter(t, e)
    decreases Weight(e), 2, 0
  {
    SideLighter(e, 0);
    SideLighter(e, 1);
    var ls, rs := Side(e.operands[0]), Side(e.operands[1]);
    ProductLighter(e, ls, rs);
    OrOf(Product(ls, rs))
  }

  function Side(x: Expr): (s: seq<Expr>)
    requires WellFormed(x)
    ensures IsSideOf(s, x)
    decreases Weight(x), 4, 0
  {
    if IsKind(x, Or) then
      FlattenKeeps(Or, x.operands);
      Flatten(Or, x.operands)
    else
      [Expand(x)]
  }
}

/** What rewriting preserves and what it achieves. */
module ExpandTheorems {
  import opened LogicalExpression
  import opened ExpandSpec

  // ---- Meaning ----

  /** pullAnds and pullOrs preserve meaning at any nesting and any arity. */
  lemma {:induction false} FlattenMeaning(k: Kind, es: seq<Expr>, env: int -> int)
    requires |es| > 0 && AllPopulated(es)
    ensures |Flatten(k, es)| >= |es|
    ensures EvalAll(k, Flatten(k, es), env) == EvalAll(k, es, env)
    ensures forall i :: 0 <= i < |Flatten(k, es)| ==> !IsKind(Flatten(k, es)[i], k)
    decreases es
  {
    var head := if IsKind(es[0], k) then Flatten(k, es[0].operands) else [es[0]];
    if IsKind(es[0], k) {
      FlattenMeaning(k, es[0].operands, env);
    }
    if |es| > 1 {
      FlattenMeaning(k, es[1..], env);
      EvalConcat(k, head, Flatten(k, es[1..]), env);
    } else {
      assert Flatten(k, es) == head + Flatten(k, []) == head;
    }
  }

  lemma {:induction false} PushMeaning(k: Kind, es: seq<Expr>, env: int -> int)
    requires |es| >= 2
    ensures Eval(Push(k, es), env) == EvalAll(k, es, env)
  {
    var n := |es| - 1;
    assert Push(k, es).operands[1..] == [es[n]] == es[n..];
    if n > 1 {
      PushMeaning(k, es[..n], env);
      assert es == es[..n] + [es[n]];
      EvalConcat(k, es[..n], [es[n]], env);
    }
  }

  lemma PairMeaning(l: Expr, r: Expr, env: int -> int)
    ensures Eval(Pair(l, r), env) == Join(And, Eval(l, env), Eval(r, env))
  {
    assert [l, r][1..] == [r] && EvalAll(And, [r], env) == Eval(r, env);
    assert Eval(Pair(l, r), env) == EvalAll(And, [l, r], env);
  }

  lemma {:induction false} RowMeaning(l: Expr, rs: seq<Expr>, env: int -> int)
    requires |rs| > 0
    ensures EvalAll(Or, Row(l, rs), env) == Join(And, Eval(l, env), EvalAll(Or, rs, env))
    decreases |rs|
  {
    PairMeaning(l, rs[0], env);
    if |rs| > 1 {
      RowMeaning(l, rs[1..], env);
      assert Row(l, rs)[1..] == Row(l, rs[1..]);
    }
  }

  lemma {:induction false} ProductMeaning(ls: seq<Expr>, rs: seq<Expr>, env: int -> int)
    requires |ls| > 0 && |rs| > 0
    ensures |Product(ls, rs)| > 0
    ensures EvalAll(Or, Product(ls, rs), env) == Join(And, EvalAll(Or, ls, env), EvalAll(Or, rs, env))
    decreases |ls|
  {
    RowMeaning(ls[0], rs, env);
    if |ls| > 1 {
      ProductMeaning(ls[1..], rs, env);
      EvalConcat(Or, Row(ls[0], rs), Product(ls[1..], rs), env);
    } else {
      assert Product(ls, rs) == Row(ls[0], rs) + Product([], rs) == Row(ls[0], rs);
    }
  }

  lemma OrOfMeaning(es: seq<Expr>, env: int -> int)
    requires |es| > 0
    ensures Eval(OrOf(es), env) == EvalAll(Or, es, env)
  {
    if |es| > 1 {
      PushMeaning(Or, es, env);
    }
  }

  /** Rewriting preserves the value of every expression under every assignment. */
  lemma {:induction false} ExpandMeaning(e: Expr, env: int -> int)
    requires WellFormed(e)
    ensures Eval(Expand(e), env) == Eval(e, env)
    decreases Weight(e), 3, 0
  {
    match e
    case Atom(_) =>
    case Logical(Or, ops) =>
      forall i | 0 <= i < |ops| ensures Weight(ops[i]) < Weight(e) { OperandLighter(ops, i); }
      ExpandAllMeaning(ops, Weight(e), env);
      PushMeaning(Or, ExpandAll(ops, Weight(e)), env);
    case Logical(And, ops) =>
      ExpandAndMeaning(e, env);
      var t := ExpandAnd(e);
      if IsKind(t, And) && (IsKind(t.operands[0], Or) || IsKind(t.operands[1], Or)) {
        ExpandMeaning(t, env);
      }
  }

  lemma {:induction false} ExpandAllMeaning(es: seq<Expr>, limit: nat, env: int -> int)
    requires |es| > 0 && AllWellFormed(es) && forall i :: 0 <= i < |es| ==> Weight(es[i]) < limit
    ensures EvalAll(Or, ExpandAll(es, limit), env) == EvalAll(Or, es, env)
    decreases limit, 0, |es|
  {
    if IsKind(es[0], And) {
      ExpandAndMeaning(es[0], env);
    } else {
      ExpandMeaning(es[0], env);
    }
    if |es| > 1 {
      ExpandAllMeaning(es[1..], limit, env);
      assert ExpandAll(es, limit)[1..] == ExpandAll(es[1..], limit);
    }
  }

  lemma {:induction false} ExpandAndMeaning(e: Expr, env: int -> int)
    requires WellFormed(e) && IsKind(e, And)
    ensures Eval(ExpandAnd(e), env) == Eval(e, env)
    decreases Weight(e), 2, 0
  {
    var l, r := e.operands[0], e.operands[1];
    SideLighter(e, 0);
    SideLighter(e, 1);
    SideMeaning(l, env);
    SideMeaning(r, env);
    ProductMeaning(Side(l), Side(r), env);
    OrOfMeaning(Product(Side(l), Side(r)), env);
    assert e == Pair(l, r);
    PairMeaning(l, r, env);
  }

  lemma {:induction false} SideMeaning(x: Expr, env: int -> int)
    requires WellFormed(x)
    ensures EvalAll(Or, Side(x), env) == Eval(x, env)
    decreases Weight(x), 4, 0
  {
    if IsKind(x, Or) {
      WellFormedPopulated(x);
      FlattenMeaning(Or, x.operands, env);
    } else {
      ExpandMeaning(x, env);
    }
  }

  // ---- Pushing and pulling undo each other ----

  lemma {:induction false} FlattenConcat(k: Kind, a: seq<Expr>, b: seq<Expr>)
    ensures Flatten(k, a + b) == Flatten(k, a) + Flatten(k, b)
    decreases |a|
  {
    if a == [] {
      assert a + b == b;
    } else {
      assert (a + b)[1..] == a[1..] + b;
      FlattenConcat(k, a[1..], b);
    }
  }

  lemma {:induction false} FlattenOfPush(k: Kind, es: seq<Expr>)
    requires |es| >= 2
    ensures Flatten(k, Push(k, es).operands) == Flatten(k, es)
    decreases |es|
  {
    var n := |es| - 1;
    assert es == es[..n] + [es[n]];
    FlattenConcat(k, es[..n], [es[n]]);
    var head := if n == 1 then es[0] else Push(k, es[..n]);
    FlattenConcat(k, [head], [es[n]]);
    assert Push(k, es).operands == [head] + [es[n]];
    if n > 1 {
      FlattenOfPush(k, es[..n]);
      assert Flatten(k, [head]) == Flatten(k, head.operands) + Flatten(k, []);
    } else {
      assert es[..n] == [head];
    }
  }

  lemma {:induction false} FlattenFlat(k: Kind, es: seq<Expr>)
    requires forall i :: 0 <= i < |es| ==> !IsKind(es[i], k)
    ensures Flatten(k, es) == es
    decreases |es|
  {
    if es != [] {
      FlattenFlat(k, es[1..]);
    }
  }

  /** Pulling what was pushed returns the operands, exactly when none is itself of that kind. */
  lemma PullUndoesPush(k: Kind, es: seq<Expr>)
    requires |es| >= 2 && AllPopulated(es)
    ensures Flatten(k, Push(k, es).operands) == es <==> forall i :: 0 <= i < |es| ==> !IsKind(es[i], k)
  {
    FlattenOfPush(k, es);
    FlattenMeaning(k, es, _ => 0);
    if forall i :: 0 <= i < |es| ==> !IsKind(es[i], k) {
      FlattenFlat(k, es);
    }
  }

  // ---- Disjunctive normal form ----

  predicate OrFree(e: Expr) {
    e.Logical? ==> e.kind.And? && forall i :: 0 <= i < |e.operands| ==> OrFree(e.operands[i])
  }

  /** A disjunction of Or-free terms. */
  predicate IsDnf(e: Expr) {
    if IsKind(e, Or) then forall i :: 0 <= i < |e.operands| ==> IsDnf(e.operands[i]) else OrFree(e)
  }

  predicate AllDnf(es: seq<Expr>) {
    forall i :: 0 <= i < |es| ==> IsDnf(es[i])
  }

  predicate AllOrFree(es: seq<Expr>) {
    forall i :: 0 <= i < |es| ==> OrFree(es[i])
  }

  predicate DnfSides(e: Expr)
    requires WellFormed(e) && IsKind(e, And)
  {
    IsDnf(e.operands[0]) && IsDnf(e.operands[1])
  }

  /** The inputs on which one call of `expandExpr` reaches normal form: wherever an And
      meets an Or, both of its sides must already be disjunctions of Or-free terms. */
  predicate Distributes(e: Expr)
    requires WellFormed(e)
  {
    match e
    case Atom(_) => true
    case Logical(Or, ops) =>
      forall i :: 0 <= i < |ops| ==> if IsKind(ops[i], And) then DnfSides(ops[i]) else Distributes(ops[i])
    case Logical(And, ops) =>
      if IsKind(ops[0], Or) || IsKind(ops[1], Or) then DnfSides(e)
      else Distributes(ops[0]) && Distributes(ops[1])
  }

  lemma {:induction false} FlattenDnf(es: seq<Expr>)
    ensures AllDnf(es) <==> AllOrFree(Flatten(Or, es))
    decreases es
  {
    if es != [] {
      var head := if IsKind(es[0], Or) then Flatten(Or, es[0].operands) else [es[0]];
      var tail := Flatten(Or, es[1..]);
      FlattenDnf(es[1..]);
      if IsKind(es[0], Or) {
        FlattenDnf(es[0].operands);
      }
      assert AllOrFree(head) <==> IsDnf(es[0]) by { if !IsKind(es[0], Or) { assert head[0] == es[0]; } }
      AllOrFreeConcat(head, tail);
      assert AllDnf(es) <==> IsDnf(es[0]) && AllDnf(es[1..]) by {
        assert forall i :: 0 <= i < |es| - 1 ==> es[1..][i] == es[i + 1];
        if IsDnf(es[0]) && AllDnf(es[1..]) {
          forall i | 0 <= i < |es| ensures IsDnf(es[i]) { if i > 0 { assert es[i] == es[1..][i - 1]; } }
        }
      }
    }
  }

  lemma AllOrFreeConcat(a: seq<Expr>, b: seq<Expr>)
    ensures AllOrFree(a + b) <==> AllOrFree(a) && AllOrFree(b)
  {
    if AllOrFree(a + b) {
      forall i | 0 <= i < |a| ensures OrFree(a[i]) { assert a[i] == (a + b)[i]; }
      forall i | 0 <= i < |b| ensures OrFree(b[i]) { assert b[i] == (a + b)[|a| + i]; }
    }
  }

  lemma {:induction false} PushDnf(es: seq<Expr>)
    requires |es| >= 2
    ensures IsDnf(Push(Or, es)) <==> AllDnf(es)
    decreases |es|
  {
    var n := |es| - 1;
    var head := if n == 1 then es[0] else Push(Or, es[..n]);
    assert Push(Or, es).operands == [head, es[n]];
    if n > 1 {
      PushDnf(es[..n]);
    }
    assert IsDnf(head) <==> AllDnf(es[..n]);
    assert IsDnf(Push(Or, es)) <==> IsDnf(head) && IsDnf(es[n]) by {
      assert Push(Or, es).operands[0] == head && Push(Or, es).operands[1] == es[n];
    }
  }

  lemma ProductOfOne(l: Expr, r: Expr)
    ensures Product([l], [r]) == [Pair(l, r)]
  {
    assert Product([l], [r]) == Row(l, [r]) + Product([], [r]);
  }

  lemma {:induction false} ProductOrFree(ls: seq<Expr>, rs: seq<Expr>)
    requires |ls| > 0 && |rs| > 0
    ensures AllOrFree(Product(ls, rs)) <==> AllOrFree(ls) && AllOrFree(rs)
    decreases |ls|
  {
    var row := Row(ls[0], rs);
    assert AllOrFree(row) <==> OrFree(ls[0]) && AllOrFree(rs) by {
      forall i | 0 <= i < |rs| ensures OrFree(row[i]) <==> OrFree(ls[0]) && OrFree(rs[i]) {
        assert row[i].operands[0] == ls[0] && row[i].operands[1] == rs[i];
      }
      assert OrFree(row[0]) ==> OrFree(ls[0]);
    }
    AllOrFreeConcat(row, Product(ls[1..], rs));
    AllOrFreeConcat([ls[0]], ls[1..]);
    assert [ls[0]] + ls[1..] == ls && [ls[0]][0] == ls[0];
    if |ls| > 1 {
      ProductOrFree(ls[1..], rs);
    }
  }

  /** An And over two rewritten sides is only distributed when a side is an Or. */
  lemma ExpandAndShape(e: Expr)
    requires WellFormed(e) && IsKind(e, And)
    ensures IsKind(e.operands[0], Or) || IsKind(e.operands[1], Or) ==>
      IsKind(ExpandAnd(e), Or) && Expand(e) == ExpandAnd(e)
    ensures !IsKind(e.operands[0], Or) && !IsKind(e.operands[1], Or) ==>
              ExpandAnd(e) == Pair(Expand(e.operands[0]), Expand(e.operands[1]))
  {
    var l, r := e.operands[0], e.operands[1];
    ProductKeeps(Side(l), Side(r));
    if !IsKind(l, Or) && !IsKind(r, Or) {
      ProductOfOne(Expand(l), Expand(r));
    }
  }

  lemma {:induction false} OrFreeFixed(e: Expr)
    requires WellFormed(e) && OrFree(e)
    ensures Expand(e) == e
    decreases e
  {
    if e.Logical? {
      var l, r := e.operands[0], e.operands[1];
      assert OrFree(l) && OrFree(r);
      OrFreeFixed(l);
      OrFreeFixed(r);
      ExpandAndShape(e);
      assert e == Pair(l, r);
    }
  }

  lemma {:induction false} OrSurfaces(e: Expr)
    requires WellFormed(e) && !IsKind(e, Or) && !OrFree(e)
    ensures IsKind(Expand(e), Or)
    decreases e
  {
    var l, r := e.operands[0], e.operands[1];
    ExpandAndShape(e);
    if !IsKind(l, Or) && !IsKind(r, Or) {
      if !OrFree(l) {
        OrSurfaces(l);
      } else {
        OrSurfaces(r);
      }
      ExpandAndShape(ExpandAnd(e));
    }
  }

  lemma SideOrFree(x: Expr)
    requires WellFormed(x)
    ensures AllOrFree(Side(x)) <==> IsDnf(x)
  {
    if IsKind(x, Or) {
      FlattenDnf(x.operands);
    } else {
      assert Side(x)[0] == Expand(x);
      if OrFree(x) {
        OrFreeFixed(x);
      } else {
        OrSurfaces(x);
      }
    }
  }

  lemma {:induction false} OrFreeIsDnf(es: seq<Expr>)
    requires forall i :: 0 <= i < |es| ==> !IsKind(es[i], Or)
    ensures AllDnf(es) <==> AllOrFree(es)
  {
    forall i | 0 <= i < |es| ensures IsDnf(es[i]) <==> OrFree(es[i]) { }
  }

  lemma {:induction false} ProductOfAnds(ls: seq<Expr>, rs: seq<Expr>)
    ensures forall i :: 0 <= i < |Product(ls, rs)| ==> IsKind(Product(ls, rs)[i], And)
    decreases |ls|
  {
    if ls != [] {
      ProductOfAnds(ls[1..], rs);
    }
  }

  /** One distribution step reaches normal form exactly when both sides already have it. */
  lemma ExpandAndDnf(e: Expr)
    requires WellFormed(e) && IsKind(e, And)
    ensures IsDnf(ExpandAnd(e)) <==> DnfSides(e)
  {
    var ls, rs := Side(e.operands[0]), Side(e.operands[1]);
    var es := Product(ls, rs);
    ProductKeeps(ls, rs);
    SideOrFree(e.operands[0]);
    SideOrFree(e.operands[1]);
    ProductOrFree(ls, rs);
    ProductOfAnds(ls, rs);
    OrFreeIsDnf(es);
    if |es| > 1 {
      PushDnf(es);
    } else {
      assert AllDnf(es) <==> IsDnf(es[0]);
    }
  }

  /** `expandExpr` returns a disjunction of Or-free terms exactly on the inputs that `Distributes` describes. */
  lemma {:induction false} ExpandDnf(e: Expr)
    requires WellFormed(e)
    ensures IsDnf(Expand(e)) <==> Distributes(e)
    decreases e
  {
    match e
    case Atom(_) =>
    case Logical(Or, ops) =>
      forall i | 0 <= i < |ops| ensures Weight(ops[i]) < Weight(e) { OperandLighter(ops, i); }
      var ts := ExpandAll(ops, Weight(e));
      PushDnf(ts);
      forall i | 0 <= i < |ops|
        ensures IsDnf(ts[i]) <==> if IsKind(ops[i], And) then DnfSides(ops[i]) else Distributes(ops[i])
      {
        ExpandAllAt(ops, Weight(e), i);
        if IsKind(ops[i], And) { ExpandAndDnf(ops[i]); } else { ExpandDnf(ops[i]); }
      }
    case Logical(And, ops) =>
      ExpandAndShape(e);
      if IsKind(ops[0], Or) || IsKind(ops[1], Or) {
        ExpandAndDnf(e);
      } else {
        ExpandDnf(ops[0]);
        ExpandDnf(ops[1]);
        PairDnf(ExpandAnd(e));
      }
  }

  lemma {:induction false} ExpandAllAt(es: seq<Expr>, limit: nat, i: nat)
    requires AllWellFormed(es) && (forall j :: 0 <= j < |es| ==> Weight(es[j]) < limit) && i < |es|
    ensures ExpandAll(es, limit)[i] == if IsKind(es[i], And) then ExpandAnd(es[i]) else Expand(es[i])
    decreases i
  {
    if i > 0 {
      ExpandAllAt(es[1..], limit, i - 1);
    }
  }

  lemma PairDnf(t: Expr)
    requires WellFormed(t) && IsKind(t, And)
    ensures
      var result := if IsKind(t.operands[0], Or) || IsKind(t.operands[1], Or) then Expand(t) else t;
      IsDnf(result) <==> DnfSides(t)
  {
    if IsKind(t.operands[0], Or) || IsKind(t.operands[1], Or) {
      ExpandAndShape(t);
      ExpandAndDnf(t);
    }
  }

  /** A single And of normal-form operands at every leaf of the Or-tree is enough. */
  predicate OrOfSimpleAnds(e: Expr)
    requires WellFormed(e)
  {
    if IsKind(e, Or) then forall i :: 0 <= i < |e.operands| ==> OrOfSimpleAnds(e.operands[i])
    else OrFree(e) || (IsKind(e, And) && DnfSides(e))
  }

  lemma SimpleAndSides(e: Expr)
    requires WellFormed(e) && IsKind(e, And) && (OrFree(e) || DnfSides(e))
    ensures DnfSides(e) && Distributes(e)
  {
    var l, r := e.operands[0], e.operands[1];
    if OrFree(e) {
      assert OrFree(l) && OrFree(r);
    }
    if OrFree(l) && OrFree(r) {
      OrFreeFixed(l);
      OrFreeFixed(r);
      ExpandDnf(l);
      ExpandDnf(r);
    }
  }

  lemma {:induction false} SimpleAndsDistribute(e: Expr)
    requires WellFormed(e) && OrOfSimpleAnds(e)
    ensures Distributes(e)
    decreases e
  {
    if IsKind(e, Or) {
      forall i | 0 <= i < |e.operands|
        ensures if IsKind(e.operands[i], And) then DnfSides(e.operands[i]) else Distributes(e.operands[i])
      {
        assert OrOfSimpleAnds(e.operands[i]);
        if IsKind(e.operands[i], And) { SimpleAndSides(e.operands[i]); } else { SimpleAndsDistribute(e.operands[i]); }
      }
    } else if e.Logical? {
      SimpleAndSides(e);
    }
  }

  lemma SimpleAndsReachDnf(e: Expr)
    requires WellFormed(e) && OrOfSimpleAnds(e)
    ensures IsDnf(Expand(e))
  {
    SimpleAndsDistribute(e);
    ExpandDnf(e);
  }

  /** Three conjoined disjunctions are not brought to normal form. */
  lemma NotAlwaysDnf()
    ensures
      var clause := (i: int) => Logical(Or, [Atom(i), Atom(i + 1)]);
      var e := Pair(Pair(clause(0), clause(2)), clause(4));
      WellFormed(e) && !IsDnf(Expand(e))
  {
    var c0, c2, c4 := Logical(Or, [Atom(0), Atom(1)]), Logical(Or, [Atom(2), Atom(3)]), Logical(Or, [Atom(4), Atom(5)]);
    var inner := Pair(c0, c2);
    var e := Pair(inner, c4);
    assert inner.operands[0] == c0 && inner.operands[1] == c2 && e.operands[0] == inner && e.operands[1] == c4;
    assert WellFormed(c0) && WellFormed(c2) && WellFormed(c4);
    assert WellFormed(inner);
    assert WellFormed(e);
    assert !OrFree(inner.operands[0]);
    ExpandDnf(e);
  }
}

/** The utility functions as the source runs them: loops that append to local vectors. */
module ExpressionUtils {
  import opened LogicalExpression
  import opened ExpandSpec
  import opened ExpandTheorems

  lemma FlattenNone(k: Kind, es: seq<Expr>)
    ensures Flatten(k, es[..0]) == []
  {
  }

  lemma FlattenStep(k: Kind, es: seq<Expr>, i: nat)
    requires i < |es|
    ensures Flatten(k, es[..i + 1]) ==
      Flatten(k, es[..i]) + if IsKind(es[i], k) then Flatten(k, es[i].operands) else [es[i]]
  {
    assert es[..i + 1] == es[..i] + [es[i]];
    FlattenConcat(k, es[..i], [es[i]]);
  }

  /** Appends the operands below `ops` that are not themselves of kind `k`, left to right. */
  method PullImpl(k: Kind, ops: seq<Expr>, operands: seq<Expr>) returns (out: seq<Expr>)
    ensures out == operands + Flatten(k, ops)
    decreases ops
  {
    hide Flatten;
    FlattenNone(k, ops);
    out := operands;
    for i := 0 to |ops|
      invariant out == operands + Flatten(k, ops[..i])
    {
      FlattenStep(k, ops, i);
      ghost var before := Flatten(k, ops[..i]);
      if !IsKind(ops[i], k) {
        out := out + [ops[i]];
        assert out == operands + (before + [ops[i]]);
      } else {
        out := PullImpl(k, ops[i].operands, out);
        assert out == operands + (before + Flatten(k, ops[i].operands));
      }
    }
    assert ops[..|ops|] == ops;
  }

  method Pull(e: Expr) returns (r: Expr)
    requires e.Logical?
    ensures IsKind(r, e.kind) && r.operands == Flatten(e.kind, e.operands)
    ensures Populated(e) ==> forall env: int -> int :: Eval(r, env) == Eval(e, env)
    ensures Populated(e) ==> forall i :: 0 <= i < |r.operands| ==> !IsKind(r.operands[i], e.kind)
  {
    var operands := PullImpl(e.kind, e.operands, []);
    r := Logical(e.kind, operands);
    assert operands == Flatten(e.kind, e.operands);
    if Populated(e) {
      forall env: int -> int ensures Eval(r, env) == Eval(e, env) {
        FlattenMeaning(e.kind, e.operands, env);
      }
      FlattenMeaning(e.kind, e.operands, _ => 0);
    }
  }

  method PushImpl(k: Kind, rels: seq<Expr>) returns (root: Expr)
    requires |rels| > 1
    ensures root == Push(k, rels)
    ensures forall env: int -> int :: Eval(root, env) == EvalAll(k, rels, env)
  {
    root := Logical(k, [rels[0], rels[1]]);
    for i := 2 to |rels|
      invariant root == Push(k, rels[..i])
    {
      assert rels[..i + 1][..i] == rels[..i];
      root := Logical(k, [root, rels[i]]);
    }
    assert rels[..|rels|] == rels;
    forall env: int -> int ensures Eval(root, env) == EvalAll(k, rels, env) {
      PushMeaning(k, rels, env);
    }
  }

  method ExpandImplOr(e: Expr) returns (exprs: seq<Expr>)
    requires IsKind(e, Or)
    ensures exprs == Flatten(Or, e.operands)
    decreases e
  {
    exprs := [];
    for i := 0 to |e.operands|
      invariant exprs == Flatten(Or, e.operands[..i])
    {
      FlattenStep(Or, e.operands, i);
      if IsKind(e.operands[i], Or) {
        var target := ExpandImplOr(e.operands[i]);
        exprs := exprs + target;
      } else {
        exprs := exprs + [e.operands[i]];
      }
    }
    assert e.operands[..|e.operands|] == e.operands;
  }

  method ExpandSide(x: Expr) returns (s: seq<Expr>)
    requires WellFormed(x)
    ensures s == Side(x)
    decreases Weight(x), 4, 0
  {
    if IsKind(x, Or) {
      s := ExpandImplOr(x);
    } else {
      var t := ExpandExpr(x);
      s := [t];
    }
  }

  lemma {:induction false} ProductConcat(a: seq<Expr>, b: seq<Expr>, rs: seq<Expr>)
    ensures Product(a + b, rs) == Product(a, rs) + Product(b, rs)
    decreases |a|
  {
    if a == [] {
      assert a + b == b;
    } else {
      assert (a + b)[1..] == a[1..] + b;
      ProductConcat(a[1..], b, rs);
    }
  }

  lemma ProductStep(ls: seq<Expr>, rs: seq<Expr>, i: nat)
    requires i < |ls|
    ensures Product(ls[..i + 1], rs) == Product(ls[..i], rs) + Row(ls[i], rs)
  {
    assert ls[..i + 1] == ls[..i] + [ls[i]];
    ProductConcat(ls[..i], [ls[i]], rs);
    assert Product([ls[i]], rs) == Row(ls[i], rs) + Product([], rs);
  }

  method Conjoin(subL: seq<Expr>, subR: seq<Expr>) returns (target: seq<Expr>)
    ensures target == Product(subL, subR)
  {
    target := [];
    for i := 0 to |subL|
      invariant target == Product(subL[..i], subR)
    {
      for j := 0 to |subR|
        invariant target == Product(subL[..i], subR) + Row(subL[i], subR)[..j]
      {
        target := target + [Pair(subL[i], subR[j])];
      }
      ProductStep(subL, subR, i);
    }
    assert subL[..|subL|] == subL;
  }

  method ExpandImplAnd(e: Expr) returns (t: Expr)
    requires WellFormed(e) && IsKind(e, And)
    ensures t == ExpandAnd(e)
    decreases Weight(e), 2, 0
  {
    SideLighter(e, 0);
    SideLighter(e, 1);
    var subL := ExpandSide(e.operands[0]);
    var subR := ExpandSide(e.operands[1]);
    ProductLighter(e, subL, subR);
    var target := Conjoin(subL, subR);
    if |target| == 1 {
      return target[0];
    }
    t := PushImpl(Or, target);
  }

  /** The result means what the input means, and is a disjunction of Or-free terms exactly
      when the input distributes in one pass. */
  method ExpandExpr(e: Expr) returns (r: Expr)
    requires WellFormed(e)
    ensures r == Expand(e) && WellFormed(r)
    ensures forall env: int -> int :: Eval(r, env) == Eval(e, env)
    ensures IsDnf(r) <==> Distributes(e)
    decreases Weight(e), 3, 0
  {
    ExpandDnf(e);
    forall env: int -> int ensures Eval(Expand(e), env) == Eval(e, env) {
      ExpandMeaning(e, env);
    }
    if e.Atom? {
      return e;
    }
    var target;
    if e.kind.Or? {
      target := ExpandOperands(e);
    } else {
      var t := ExpandImplAnd(e);
      target := [t];
    }
    if |target| == 1 {
      var t := target[0];
      if IsKind(t, And) && (IsKind(t.operands[0], Or) || IsKind(t.operands[1], Or)) {
        r := ExpandExpr(t);
        return;
      }
      return t;
    }
    r := PushImpl(e.kind, target);
  }

  method ExpandOperands(e: Expr) returns (target: seq<Expr>)
    requires WellFormed(e) && IsKind(e, Or)
    ensures |target| == |e.operands|
    ensures (forall i :: 0 <= i < |e.operands| ==> Weight(e.operands[i]) < Weight(e)) &&
      target == ExpandAll(e.operands, Weight(e))
    decreases Weight(e), 1, 0
  {
    var ops := e.operands;
    forall i | 0 <= i < |ops| ensures Weight(ops[i]) < Weight(e) { OperandLighter(ops, i); }
    target := [];
    for i := 0 to |ops|
      invariant |target| == i
      invariant forall j :: 0 <= j < i ==>
        target[j] == if IsKind(ops[j], And) then ExpandAnd(ops[j]) else Expand(ops[j])
    {
      var t;
      if IsKind(ops[i], And) {
        t := ExpandImplAnd(ops[i]);
      } else {
        t := ExpandExpr(ops[i]);
      }
      target := target + [t];
    }
    forall i | 0 <= i < |ops| ensures target[i] == ExpandAll(ops, Weight(e))[i] { ExpandAllAt(ops, Weight(e), i); }
  }
}

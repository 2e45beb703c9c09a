/** The value model of src/sexpr.ts: atoms, cons cells and builtin
    procedures, with the list helpers the evaluator needs. */
module SExprs {
  import opened Options

  /** How many operands a procedure takes: `required` ones, then up to
      `optional` more, or any number more when `hasRest` holds. */
  datatype Arity = Arity(required: nat, optional: nat := 0, hasRest: bool := false)

  /** The closed set of builtin bodies. `cons`, `car`, `cdr` and `quote`
      are bound by the builtin environment; `add` and `list2more` are the
      procedures the evaluator's tests bind. */
  datatype Body = ConsBody | CarBody | CdrBody | QuoteBody | AddBody | ListBody

  datatype SExpr =
    | Nil
    | Num(n: int)
    | Bool(b: bool)
    | Sym(name: string)
    | Cons(car: SExpr, cdr: SExpr)
      /** A procedure whose operands are evaluated before the body runs. */
    | BuiltinFunc(name: string, arity: Arity, body: Body)
      /** A procedure whose operands reach the body unevaluated. */
    | SpForm(name: string, arity: Arity, body: Body)

  const NIL: SExpr := Nil
  const TRUE: SExpr := Bool(true)
  const FALSE: SExpr := Bool(false)

  predicate IsNil(x: SExpr) { x == NIL }
  predicate IsNum(x: SExpr) { x.Num? }
  predicate IsBool(x: SExpr) { x.Bool? }
  predicate IsSym(x: SExpr) { x.Sym? }
  predicate IsCons(x: SExpr) { x.Cons? }
  predicate IsFunc(x: SExpr) { x.BuiltinFunc? }
  predicate IsSpForm(x: SExpr) { x.SpForm? }
  predicate IsProc(x: SExpr) { IsFunc(x) || IsSpForm(x) }

  /** The type predicates partition the atoms: each holds of its own
      variant only, so no value satisfies two of them. */
  lemma {:induction false} TypePredicatesExclusive(x: SExpr)
    ensures IsNil(x) <==> x.Nil?
    ensures IsNum(x) ==> !IsNil(x) && !IsBool(x) && !IsSym(x) && !IsCons(x)
    ensures IsBool(x) ==> !IsNil(x) && !IsSym(x) && !IsCons(x)
    ensures IsSym(x) ==> !IsNil(x) && !IsCons(x)
    ensures IsNil(x) ==> !IsCons(x) && !IsProc(x)
  {
  }

  /** `NIL`, `TRUE` and `FALSE` are three different values. */
  lemma {:induction false} ConstantsDistinct()
    ensures NIL != TRUE && NIL != FALSE && TRUE != FALSE
  {
  }

  /** Truthiness: `NIL` and `FALSE` are false, every other value is true. */
  function ToBool(x: SExpr): (r: SExpr)
    ensures r == TRUE || r == FALSE
    ensures r == FALSE <==> x == NIL || x == FALSE
  {
    Bool(!IsNil(x) && x != FALSE)
  }

  /** Numbers (zero included), symbols, cells and procedures are all true. */
  lemma {:induction false} ToBoolByVariant(x: SExpr)
    ensures x.Num? || x.Sym? || x.Cons? || IsProc(x) ==> ToBool(x) == TRUE
    ensures ToBool(Num(0)) == TRUE
    ensures ToBool(TRUE) == TRUE
  {
  }

  /** `makeList`: the right fold of `makeCons` over the operands, seeded
      with `NIL`. The fold takes the elements from the back. */
  function MakeList(xs: seq<SExpr>): (r: SExpr)
    ensures r.Nil? || r.Cons?
    ensures r.Nil? <==> |xs| == 0
  {
    ReduceRight(xs, NIL)
  }

  /** `reduceRight` with `makeCons`: a non-empty fold always ends in a cell. */
  function ReduceRight(xs: seq<SExpr>, acc: SExpr): (r: SExpr)
    ensures |xs| == 0 ==> r == acc
    ensures |xs| > 0 ==> r.Cons?
    decreases |xs|
  {
    if |xs| == 0 then acc
    else ReduceRight(xs[..|xs| - 1], Cons(xs[|xs| - 1], acc))
  }

  /** The chain of cells holding `xs` in order and ending in `tail`. */
  function WithTail(xs: seq<SExpr>, tail: SExpr): SExpr
    decreases |xs|
  {
    if |xs| == 0 then tail else Cons(xs[0], WithTail(xs[1..], tail))
  }

  /** A chain of cells ending in `NIL`. */
  predicate IsProperList(x: SExpr)
  {
    match x
    case Nil => true
    case Cons(_, d) => IsProperList(d)
    case _ => false
  }

  /** The elements of a cell chain and, when the chain does not end in
      `NIL`, the value it ends in. */
  datatype Spread = Spread(list: seq<SExpr>, extra: Option<SExpr>)

  function TailOf(s: Spread): SExpr
  {
    match s.extra
    case Some(t) => t
    case None => NIL
  }

  /** The number of nodes of a tree; it bounds the evaluator's recursion. */
  function Size(x: SExpr): nat
  {
    match x
    case Cons(a, d) => 1 + Size(a) + Size(d)
    case _ => 1
  }

  function SumSize(xs: seq<SExpr>): nat
  {
    if |xs| == 0 then 0 else Size(xs[0]) + SumSize(xs[1..])
  }

  /** `toArray`: splits a cell chain into its elements and its non-`NIL`
      end. Putting the pieces back together gives the chain again. */
  function ToArray(x: SExpr): (r: Spread)
    ensures r.extra.Some? ==> !r.extra.value.Nil? && !r.extra.value.Cons?
    ensures x.Cons? ==> |r.list| >= 1
    ensures !x.Cons? && !x.Nil? ==> r.extra == Some(x)
  {
    match x
    case Nil => Spread([], None)
    case Cons(a, d) =>
      var rest := ToArray(d);
      Spread([a] + rest.list, rest.extra)
    case _ => Spread([], Some(x))
  }

  /** The elements of a chain are smaller, together, than the chain. */
  lemma {:induction false} ToArraySmaller(x: SExpr)
    ensures SumSize(ToArray(x).list) < Size(x)
  {
    if x.Cons? {
      ToArraySmaller(x.cdr);
      var l := ToArray(x).list;
      assert l[1..] == ToArray(x.cdr).list;
    }
  }

  /** Putting the pieces `toArray` returns back together gives the chain. */
  lemma {:induction false} ToArrayRebuilds(x: SExpr)
    ensures WithTail(ToArray(x).list, TailOf(ToArray(x))) == x
  {
    if x.Cons? {
      ToArrayRebuilds(x.cdr);
      var r := ToArray(x);
      assert r.list[1..] == ToArray(x.cdr).list;
    }
  }

  /** Adding one element at the back of a chain. */
  lemma {:induction false} WithTailSnoc(xs: seq<SExpr>, y: SExpr, tail: SExpr)
    ensures WithTail(xs + [y], tail) == WithTail(xs, Cons(y, tail))
    decreases |xs|
  {
    if |xs| > 0 {
      assert (xs + [y])[1..] == xs[1..] + [y];
      WithTailSnoc(xs[1..], y, tail);
    }
  }

  /** The back-to-front fold builds the same chain as the front-to-back one. */
  lemma {:induction false} ReduceRightIsWithTail(xs: seq<SExpr>, acc: SExpr)
    ensures ReduceRight(xs, acc) == WithTail(xs, acc)
    decreases |xs|
  {
    if |xs| > 0 {
      var init, last := xs[..|xs| - 1], xs[|xs| - 1];
      ReduceRightIsWithTail(init, Cons(last, acc));
      WithTailSnoc(init, last, acc);
      assert init + [last] == xs;
    }
  }

  /** Splitting a chain that was built from `xs` and `tail` gives back `xs`. */
  lemma {:induction false} ToArrayWithTail(xs: seq<SExpr>, tail: SExpr)
    ensures ToArray(WithTail(xs, tail)).list == xs + ToArray(tail).list
    ensures ToArray(WithTail(xs, tail)).extra == ToArray(tail).extra
    decreases |xs|
  {
    if |xs| > 0 {
      var t := ToArray(tail);
      var w := WithTail(xs[1..], tail);
      ToArrayWithTail(xs[1..], tail);
      assert WithTail(xs, tail) == Cons(xs[0], w);
      assert ToArray(Cons(xs[0], w)).list == [xs[0]] + ToArray(w).list;
      assert [xs[0]] + (xs[1..] + t.list) == xs + t.list by {
        assert xs == [xs[0]] + xs[1..];
      }
    }
  }

  /** `makeList(xs)` is a proper list whose elements are `xs`, in order. */
  lemma {:induction false} MakeListRoundTrip(xs: seq<SExpr>)
    ensures ToArray(MakeList(xs)) == Spread(xs, None)
    ensures IsProperList(MakeList(xs))
    ensures |ToArray(MakeList(xs)).list| == |xs|
  {
    ReduceRightIsWithTail(xs, NIL);
    ToArrayWithTail(xs, NIL);
    assert xs + [] == xs;
    ProperListIff(MakeList(xs));
  }

  /** `makeList()` with no operands is `NIL`, and a non-empty one starts
      with its first operand. */
  lemma {:induction false} MakeListShape(xs: seq<SExpr>)
    ensures |xs| == 0 ==> MakeList(xs) == NIL
    ensures |xs| > 0 ==> MakeList(xs) == Cons(xs[0], MakeList(xs[1..]))
  {
    ReduceRightIsWithTail(xs, NIL);
    if |xs| > 0 {
      ReduceRightIsWithTail(xs[1..], NIL);
    }
  }

  /** A proper list is exactly a chain that `toArray` finds no extra end in. */
  lemma {:induction false} ProperListIff(x: SExpr)
    ensures IsProperList(x) <==> ToArray(x).extra.None?
  {
    if x.Cons? {
      ProperListIff(x.cdr);
    }
  }

  /** A proper list is the list of its own elements. */
  lemma {:induction false} ToArrayRoundTrip(x: SExpr)
    requires IsProperList(x)
    ensures MakeList(ToArray(x).list) == x
  {
    ProperListIff(x);
    ToArrayRebuilds(x);
    ReduceRightIsWithTail(ToArray(x).list, NIL);
  }
}

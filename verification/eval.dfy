/** The evaluator of src/eval.ts. Literals evaluate to themselves, symbols
    are looked up, and any other value is a call form: a proper list whose
    head must evaluate to a builtin function, whose operands are evaluated
    left to right, and whose operand count is checked against the
    function's arity before its body runs. Every failure is a value, and
    the first one met is the answer. */
module Evaluator {
  import opened Results
  import opened Options
  import opened SExprs
  import opened Envs
  import opened Decimal
  import opened Builtins

  type EvalResult = Result<SExpr, string>

  const LIST_FORMAT_ERROR: string := "expected list format"
  const NOT_PROC_ERROR: string := "expected proc, but got not proc"

  /** `evalSExpr`. */
  function Eval(x: SExpr, env: Env): (r: EvalResult)
    ensures x.Sym? ==> (r.Ok? <==> Lookup(env, x.name).Some?)
    ensures x.Cons? && r.Ok? ==> IsProperList(x)
    ensures IsProc(x) ==> r.Err?
    decreases Size(x), 1
  {
    match x
    case Nil => Ok(x)
    case Bool(_) => Ok(x)
    case Num(_) => Ok(x)
    case Sym(name) =>
      (match Lookup(env, name)
       case Some(v) => Ok(v)
       case None => Err(name + " is not defined"))
    case _ => EvalForm(x, env)
  }

  /** The call-form branch of `evalSExpr`, taken by every value that is
      neither a literal nor a symbol: a cell, or a procedure value. */
  function EvalForm(x: SExpr, env: Env): (r: EvalResult)
    requires x.Cons? || IsProc(x)
    ensures r.Ok? ==> IsProperList(x)
    decreases Size(x), 0
  {
    var spread := ToArray(x);
    ToArraySmaller(x);
    ProperListIff(x);
    match OkOr(Filter(Some(spread), (s: Spread) => s.extra.None?), LIST_FORMAT_ERROR)
    case Err(e) => Err(e)
    case Ok(s) =>
      assert s == spread;
      var head, args := s.list[0], s.list[1..];
      assert SumSize(s.list) == Size(head) + SumSize(args);
      match Eval(head, env)
      case Err(e) => Err(e)
      case Ok(proc) =>
        if IsFunc(proc) then CallFunc(proc, args, env) else Err(NOT_PROC_ERROR)
  }

  /** `callFunc`: evaluate the operands, check their number, run the body. */
  function CallFunc(func: SExpr, args: seq<SExpr>, env: Env): (r: EvalResult)
    requires func.BuiltinFunc?
    ensures r.Ok? ==> EvalArgs(Ok([]), args, env).Ok? && Admits(func.arity, |args|)
    decreases SumSize(args), 3
  {
    match EvalArgs(Ok([]), args, env)
    case Err(e) => Err(e)
    case Ok(evaluated) =>
      match ValidateByArity(evaluated, func.arity)
      case Err(e) => Err(e)
      case Ok(checked) => ApplyBody(func.body, checked, env)
  }

  /** The `reduce` of `callFunc` over the operands: each step evaluates the
      next operand and appends its value, unless an earlier step failed, in
      which case the failure is passed on and the operand is not evaluated. */
  function EvalArgs(acc: Result<seq<SExpr>, string>, args: seq<SExpr>, env: Env): (r: Result<seq<SExpr>, string>)
    ensures acc.Err? ==> r == acc
    ensures r.Ok? ==> acc.Ok? && |r.value| == |acc.value| + |args| && r.value[..|acc.value|] == acc.value
    decreases SumSize(args), 2
  {
    if |args| == 0 then acc
    else
      var next :=
        match acc
        case Err(_) => acc
        case Ok(list) =>
          match Eval(args[0], env)
          case Ok(v) => Ok(list + [v])
          case Err(e) => Err(e);
      EvalArgs(next, args[1..], env)
  }

  /** The operand counts an arity admits: at least `required`, and at most
      `required + optional` unless a rest operand is allowed. */
  predicate Admits(arity: Arity, n: nat)
  {
    arity.required <= n && (arity.hasRest || n <= arity.required + arity.optional)
  }

  /** `validateByArity`: the operands come back unchanged when their number
      fits the arity; otherwise an error names the expected and the actual
      count, in the form of whichever of the three cases the arity is. */
  function ValidateByArity(list: seq<SExpr>, arity: Arity): (r: Result<seq<SExpr>, string>)
    ensures r.Ok? <==> Admits(arity, |list|)
    ensures r.Ok? ==> r.value == list
  {
    var length := |list|;
    if arity.hasRest then
      if length >= arity.required then Ok(list)
      else Err("expected " + NatToString(arity.required) + " or more than, but got " + NatToString(length))
    else if arity.optional > 0 then
      var max := arity.required + arity.optional;
      if length >= arity.required && length <= max then Ok(list)
      else Err("expected " + NatToString(arity.required) + "..." + NatToString(max) + ", but got " + NatToString(length))
    else
      if length == arity.required then Ok(list)
      else Err("expected " + NatToString(arity.required) + ", but got " + NatToString(length))
  }

  /** The message of each of the three arity cases. */
  lemma {:induction false} ArityMessages(list: seq<SExpr>, arity: Arity)
    requires !Admits(arity, |list|)
    ensures arity.hasRest ==>
              ValidateByArity(list, arity) == Err("expected " + NatToString(arity.required)
                                                  + " or more than, but got " + NatToString(|list|))
    ensures !arity.hasRest && arity.optional > 0 ==>
              ValidateByArity(list, arity) == Err("expected " + NatToString(arity.required) + "..."
                                                  + NatToString(arity.required + arity.optional)
                                                  + ", but got " + NatToString(|list|))
    ensures !arity.hasRest && arity.optional == 0 ==>
              ValidateByArity(list, arity) == Err("expected " + NatToString(arity.required)
                                                  + ", but got " + NatToString(|list|))
  {
  }

  /** `NIL`, booleans and numbers evaluate to themselves. */
  lemma {:induction false} EvalSelf(x: SExpr, env: Env)
    requires x.Nil? || x.Bool? || x.Num?
    ensures Eval(x, env) == Ok(x)
  {
  }

  /** A bound symbol evaluates to its binding; an unbound one is an error
      naming it. */
  lemma {:induction false} EvalSymbol(name: string, env: Env)
    ensures Lookup(env, name).Some? ==> Eval(Sym(name), env) == Ok(Lookup(env, name).value)
    ensures Lookup(env, name).None? ==> Eval(Sym(name), env) == Err(name + " is not defined")
  {
  }

  /** A call form that is not a proper list, and a procedure value standing
      on its own, are rejected before anything is evaluated. */
  lemma {:induction false} EvalNotAList(x: SExpr, env: Env)
    requires (x.Cons? && !IsProperList(x)) || IsProc(x)
    ensures Eval(x, env) == Err(LIST_FORMAT_ERROR)
  {
    ProperListIff(x);
  }

  /** A proper call form: the head is evaluated first and its error wins;
      a head that is not a function is an error; a function is called on
      the remaining elements. */
  lemma {:induction false} EvalCallForm(x: SExpr, env: Env)
    requires x.Cons? && IsProperList(x)
    ensures Eval(x.car, env).Err? ==> Eval(x, env) == Err(Eval(x.car, env).error)
    ensures Eval(x.car, env).Ok? && !IsFunc(Eval(x.car, env).value) ==>
              Eval(x, env) == Err(NOT_PROC_ERROR)
    ensures Eval(x.car, env).Ok? && IsFunc(Eval(x.car, env).value) ==>
              Eval(x, env) == CallFunc(Eval(x.car, env).value, ToArray(x.cdr).list, env)
  {
    ProperListIff(x);
    assert ToArray(x).list == [x.car] + ToArray(x.cdr).list;
    assert ToArray(x).list[1..] == ToArray(x.cdr).list;
  }

  /** The call form `makeList(head, ...args)`, as the tests build it. */
  lemma {:induction false} EvalListForm(head: SExpr, args: seq<SExpr>, env: Env)
    ensures Eval(head, env).Err? ==> Eval(MakeList([head] + args), env) == Err(Eval(head, env).error)
    ensures Eval(head, env).Ok? && !IsFunc(Eval(head, env).value) ==>
              Eval(MakeList([head] + args), env) == Err(NOT_PROC_ERROR)
    ensures Eval(head, env).Ok? && IsFunc(Eval(head, env).value) ==>
              Eval(MakeList([head] + args), env) == CallFunc(Eval(head, env).value, args, env)
  {
    var x := MakeList([head] + args);
    MakeListShape([head] + args);
    assert ([head] + args)[1..] == args;
    MakeListRoundTrip([head] + args);
    MakeListRoundTrip(args);
    EvalCallForm(x, env);
  }

  /** Every operand evaluates without error. */
  ghost predicate AllEvaluate(args: seq<SExpr>, env: Env)
  {
    forall i :: 0 <= i < |args| ==> Eval(args[i], env).Ok?
  }

  /** Operand `i` is the first whose evaluation fails. */
  ghost predicate FirstFailure(args: seq<SExpr>, env: Env, i: int)
  {
    0 <= i < |args| && Eval(args[i], env).Err? && forall j :: 0 <= j < i ==> Eval(args[j], env).Ok?
  }

  /** The values of operands that all evaluate. */
  function Values(args: seq<SExpr>, env: Env): (vs: seq<SExpr>)
    requires AllEvaluate(args, env)
    ensures |vs| == |args|
    ensures forall i :: 0 <= i < |args| ==> Eval(args[i], env) == Ok(vs[i])
  {
    seq(|args|, i requires 0 <= i < |args| && AllEvaluate(args, env) => Eval(args[i], env).value)
  }

  /** One step of the fold from an accumulated prefix: a failing first
      operand is the answer, and a value is appended before the rest. */
  lemma {:induction false} EvalArgsStep(pre: seq<SExpr>, args: seq<SExpr>, env: Env)
    requires |args| > 0
    ensures Eval(args[0], env).Err? ==> EvalArgs(Ok(pre), args, env) == Err(Eval(args[0], env).error)
    ensures Eval(args[0], env).Ok? ==>
              EvalArgs(Ok(pre), args, env) == EvalArgs(Ok(pre + [Eval(args[0], env).value]), args[1..], env)
  {
  }

  /** `AllEvaluate` and `Values` split at the first operand. */
  lemma {:induction false} AllEvaluateSplit(args: seq<SExpr>, env: Env)
    requires |args| > 0
    ensures AllEvaluate(args, env) <==> Eval(args[0], env).Ok? && AllEvaluate(args[1..], env)
    ensures AllEvaluate(args, env) ==> Values(args, env) == [Eval(args[0], env).value] + Values(args[1..], env)
  {
    var rest := args[1..];
    assert forall i :: 0 <= i < |rest| ==> rest[i] == args[i + 1];
    if Eval(args[0], env).Ok? && AllEvaluate(rest, env) {
      forall i | 0 <= i < |args| ensures Eval(args[i], env).Ok? {
        if i > 0 { assert args[i] == rest[i - 1]; }
      }
    }
  }

  /** A first failure after a first operand that evaluates moves one
      place to the right. */
  lemma {:induction false} FirstFailureShift(args: seq<SExpr>, env: Env, k: int)
    requires |args| > 0 && Eval(args[0], env).Ok? && FirstFailure(args[1..], env, k)
    ensures FirstFailure(args, env, k + 1)
  {
    var rest := args[1..];
    forall j | 0 <= j < k + 1 ensures Eval(args[j], env).Ok? {
      if j > 0 { assert args[j] == rest[j - 1]; }
    }
  }

  /** When every operand evaluates, the fold appends their values, in
      order, to the accumulated prefix. */
  lemma {:induction false} EvalArgsAllOk(pre: seq<SExpr>, args: seq<SExpr>, env: Env)
    requires AllEvaluate(args, env)
    ensures EvalArgs(Ok(pre), args, env) == Ok(pre + Values(args, env))
    decreases |args|
  {
    if |args| == 0 {
      assert pre + Values(args, env) == pre;
    } else {
      var v := Eval(args[0], env).value;
      EvalArgsStep(pre, args, env);
      AllEvaluateSplit(args, env);
      EvalArgsAllOk(pre + [v], args[1..], env);
      assert (pre + [v]) + Values(args[1..], env) == pre + ([v] + Values(args[1..], env));
    }
  }

  /** When operand `i` is the first to fail, the fold answers its error. */
  lemma {:induction false} EvalArgsFails(pre: seq<SExpr>, args: seq<SExpr>, env: Env, i: int)
    requires FirstFailure(args, env, i)
    ensures EvalArgs(Ok(pre), args, env) == Err(Eval(args[i], env).error)
    decreases i
  {
    EvalArgsStep(pre, args, env);
    if i > 0 {
      var rest := args[1..];
      assert FirstFailure(rest, env, i - 1) by {
        forall j | 0 <= j < i - 1 ensures Eval(rest[j], env).Ok? {
          assert rest[j] == args[j + 1];
        }
        assert rest[i - 1] == args[i];
      }
      EvalArgsFails(pre + [Eval(args[0], env).value], rest, env, i - 1);
    }
  }

  /** Operands that do not all evaluate have a first failing one. */
  lemma {:induction false} FirstFailureExists(args: seq<SExpr>, env: Env)
    requires !AllEvaluate(args, env)
    ensures exists i :: FirstFailure(args, env, i)
    decreases |args|
  {
    AllEvaluateSplit(args, env);
    if Eval(args[0], env).Err? {
      assert FirstFailure(args, env, 0);
    } else {
      FirstFailureExists(args[1..], env);
      var k :| FirstFailure(args[1..], env, k);
      FirstFailureShift(args, env, k);
    }
  }

  /** The fold from any accumulated prefix: it succeeds exactly when every
      operand evaluates, appending their values in order; otherwise it
      answers the error of the first operand that fails. */
  lemma {:induction false} EvalArgsFrom(pre: seq<SExpr>, args: seq<SExpr>, env: Env)
    ensures EvalArgs(Ok(pre), args, env).Ok? <==> AllEvaluate(args, env)
    ensures AllEvaluate(args, env) ==> EvalArgs(Ok(pre), args, env) == Ok(pre + Values(args, env))
    ensures !AllEvaluate(args, env) ==>
              exists i :: FirstFailure(args, env, i) && EvalArgs(Ok(pre), args, env) == Err(Eval(args[i], env).error)
  {
    if AllEvaluate(args, env) {
      EvalArgsAllOk(pre, args, env);
    } else {
      FirstFailureExists(args, env);
      var i :| FirstFailure(args, env, i);
      EvalArgsFails(pre, args, env, i);
    }
  }

  /** The operands are evaluated left to right: the fold succeeds with
      their values, in order, or fails with the first failing operand's
      error. */
  lemma {:induction false} EvalArgsLeftToRight(args: seq<SExpr>, env: Env)
    ensures EvalArgs(Ok([]), args, env).Ok? <==> AllEvaluate(args, env)
    ensures AllEvaluate(args, env) ==> EvalArgs(Ok([]), args, env) == Ok(Values(args, env))
    ensures !AllEvaluate(args, env) ==>
              exists i :: FirstFailure(args, env, i) && EvalArgs(Ok([]), args, env) == Err(Eval(args[i], env).error)
  {
    EvalArgsFrom([], args, env);
    if AllEvaluate(args, env) {
      assert [] + Values(args, env) == Values(args, env);
    }
  }

  /** Short circuit: once operand `i` fails, whatever follows it is never
      looked at, so replacing the operands after it changes nothing. */
  lemma {:induction false} EvalArgsShortCircuit(args: seq<SExpr>, env: Env, i: nat, later: seq<SExpr>)
    requires FirstFailure(args, env, i)
    ensures EvalArgs(Ok([]), args, env) == Err(Eval(args[i], env).error)
    ensures EvalArgs(Ok([]), args[..i + 1] + later, env) == Err(Eval(args[i], env).error)
  {
    var other := args[..i + 1] + later;
    assert forall j :: 0 <= j <= i ==> other[j] == args[j];
    assert FirstFailure(other, env, i);
    EvalArgsLeftToRight(args, env);
    EvalArgsLeftToRight(other, env);
    var k :| FirstFailure(args, env, k) && EvalArgs(Ok([]), args, env) == Err(Eval(args[k], env).error);
    var m :| FirstFailure(other, env, m) && EvalArgs(Ok([]), other, env) == Err(Eval(other[m], env).error);
    assert k == i;
    assert m == i;
  }

  /** `callFunc` fixes the order of failures: an operand error comes
      first, whatever the arity; the arity is checked only once every
      operand has a value, and its error means the body never runs; only
      then does the body run, on the operands' values in order. */
  lemma {:induction false} CallFuncOrder(name: string, arity: Arity, body: Body, args: seq<SExpr>, env: Env)
    ensures !AllEvaluate(args, env) ==>
              exists i :: FirstFailure(args, env, i)
                          && CallFunc(BuiltinFunc(name, arity, body), args, env) == Err(Eval(args[i], env).error)
    ensures AllEvaluate(args, env) && !Admits(arity, |args|) ==>
              CallFunc(BuiltinFunc(name, arity, body), args, env) == Err(ValidateByArity(Values(args, env), arity).error)
    ensures AllEvaluate(args, env) && Admits(arity, |args|) ==>
              CallFunc(BuiltinFunc(name, arity, body), args, env) == ApplyBody(body, Values(args, env), env)
  {
    EvalArgsLeftToRight(args, env);
  }

  /** An arity error does not depend on the body: the body is not run. */
  lemma {:induction false} ArityErrorSkipsBody(name: string, arity: Arity, b1: Body, b2: Body, args: seq<SExpr>, env: Env)
    requires AllEvaluate(args, env) && !Admits(arity, |args|)
    ensures CallFunc(BuiltinFunc(name, arity, b1), args, env).Err?
    ensures CallFunc(BuiltinFunc(name, arity, b1), args, env) == CallFunc(BuiltinFunc(name, arity, b2), args, env)
  {
    CallFuncOrder(name, arity, b1, args, env);
    CallFuncOrder(name, arity, b2, args, env);
  }
}

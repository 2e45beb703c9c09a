/** The concrete cases of the repository's tests, stated about the model. */
module Scenarios {
  import opened Results
  import opened Options
  import opened SExprs
  import opened Envs
  import opened Decimal
  import opened Lexer
  import opened Builtins
  import opened Evaluator

  const ADD: SExpr := BuiltinFunc("add", Arity(2), AddBody)
  const LIST2MORE: SExpr := BuiltinFunc("list2more", Arity(2, 0, true), ListBody)

  /** The environment of the evaluator's tests (without `inc`, a user
      function the evaluator cannot call). */
  function TestEnv(): Env
  {
    NewEnv([("add", ADD), ("answer", Num(42)), ("cons", CONS_PROC), ("list2more", LIST2MORE)], None)
  }

  lemma {:induction false} TestEnvBindings()
    ensures Lookup(TestEnv(), "add") == Some(ADD)
    ensures Lookup(TestEnv(), "answer") == Some(Num(42))
    ensures Lookup(TestEnv(), "unknown") == None
  {
    var entries := [("add", ADD), ("answer", Num(42)), ("cons", CONS_PROC), ("list2more", LIST2MORE)];
    FromEntriesKeys(entries);
    assert forall i :: 0 <= i < |entries| ==> entries[i].0 != "unknown";
    assert IsLastEntry(entries, 0);
    assert IsLastEntry(entries, 1);
    FromEntriesLastWins(entries, 0);
    FromEntriesLastWins(entries, 1);
  }

  /** `answer` is 42 and `unknown` is not defined, in any environment
      binding them as the tests' environment does. */
  lemma {:induction false} EvalSymbolCases(env: Env)
    requires Lookup(env, "answer") == Some(Num(42)) && Lookup(env, "unknown") == None
    ensures Eval(Sym("answer"), env) == Ok(Num(42))
    ensures Eval(Sym("unknown"), env) == Err("unknown is not defined")
  {
    EvalSymbol("answer", env);
    EvalSymbol("unknown", env);
    assert "unknown" + " is not defined" == "unknown is not defined";
  }

  /** `(answer 41)`: the head is a number, not a procedure. */
  lemma {:induction false} EvalNumberHead(env: Env)
    requires Lookup(env, "answer") == Some(Num(42))
    ensures Eval(MakeList([Sym("answer"), Num(41)]), env) == Err("expected proc, but got not proc")
  {
    EvalSymbol("answer", env);
    assert [Sym("answer"), Num(41)] == [Sym("answer")] + [Num(41)];
    EvalListForm(Sym("answer"), [Num(41)], env);
  }

  /** `(add ...)` with number operands, in an environment binding `add`,
      calls `add` on the operands as they are. */
  lemma {:induction false} EvalAdd(env: Env, args: seq<SExpr>)
    requires Lookup(env, "add") == Some(ADD)
    requires forall i :: 0 <= i < |args| ==> args[i].Num?
    ensures Eval(MakeList([Sym("add")] + args), env) == CallFunc(ADD, args, env)
    ensures AllEvaluate(args, env) && Values(args, env) == args
  {
    EvalSymbol("add", env);
    EvalListForm(Sym("add"), args, env);
    forall i | 0 <= i < |args| ensures Eval(args[i], env) == Ok(args[i]) {
      EvalSelf(args[i], env);
    }
  }

  /** `(add 41 1)` is 42. */
  lemma {:induction false} EvalAddFits(env: Env)
    requires Lookup(env, "add") == Some(ADD)
    ensures Eval(MakeList([Sym("add"), Num(41), Num(1)]), env) == Ok(Num(42))
  {
    var args := [Num(41), Num(1)];
    assert [Sym("add"), Num(41), Num(1)] == [Sym("add")] + args;
    EvalAdd(env, args);
    CallFuncOrder("add", Arity(2), AddBody, args, env);
  }

  /** `(add 41)` has one operand too few. */
  lemma {:induction false} EvalAddTooFew(env: Env)
    requires Lookup(env, "add") == Some(ADD)
    ensures Eval(MakeList([Sym("add"), Num(41)]), env) == Err("expected 2, but got 1")
  {
    var args := [Num(41)];
    assert [Sym("add"), Num(41)] == [Sym("add")] + args;
    EvalAdd(env, args);
    CallFuncOrder("add", Arity(2), AddBody, args, env);
    assert NatToString(1) == "1";
    AddArityMessage(args, "1");
    assert "expected 2, but got " + "1" == "expected 2, but got 1";
  }

  /** `(add 41 1 2)` has one operand too many. */
  lemma {:induction false} EvalAddTooMany(env: Env)
    requires Lookup(env, "add") == Some(ADD)
    ensures Eval(MakeList([Sym("add"), Num(41), Num(1), Num(2)]), env) == Err("expected 2, but got 3")
  {
    var args := [Num(41), Num(1), Num(2)];
    assert [Sym("add"), Num(41), Num(1), Num(2)] == [Sym("add")] + args;
    EvalAdd(env, args);
    CallFuncOrder("add", Arity(2), AddBody, args, env);
    assert NatToString(3) == "3";
    AddArityMessage(args, "3");
    assert "expected 2, but got " + "3" == "expected 2, but got 3";
  }

  /** The message for one or three operands given to a procedure of
      exactly two. */
  lemma {:induction false} AddArityMessage(args: seq<SExpr>, count: string)
    requires |args| == 1 || |args| == 3
    requires count == NatToString(|args|)
    ensures ValidateByArity(args, Arity(2)) == Err("expected 2, but got " + count)
  {
    ArityMessages(args, Arity(2));
    assert NatToString(2) == "2";
    assert "expected " + "2" + ", but got " + count == "expected 2, but got " + count;
  }

  /** The evaluator's test cases hold in the tests' environment. */
  lemma {:induction false} EvalTestCases()
    ensures Eval(Sym("answer"), TestEnv()) == Ok(Num(42))
    ensures Eval(Sym("unknown"), TestEnv()) == Err("unknown is not defined")
    ensures Eval(MakeList([Sym("answer"), Num(41)]), TestEnv()) == Err("expected proc, but got not proc")
    ensures Eval(MakeList([Sym("add"), Num(41), Num(1)]), TestEnv()) == Ok(Num(42))
    ensures Eval(MakeList([Sym("add"), Num(41)]), TestEnv()) == Err("expected 2, but got 1")
    ensures Eval(MakeList([Sym("add"), Num(41), Num(1), Num(2)]), TestEnv()) == Err("expected 2, but got 3")
  {
    var env := TestEnv();
    TestEnvBindings();
    EvalSymbolCases(env);
    EvalNumberHead(env);
    EvalAddFits(env);
    EvalAddTooFew(env);
    EvalAddTooMany(env);
  }

  /** `(cons 1 2)` in the builtin environment is a fresh cell of 1 and 2. */
  lemma {:induction false} EvalBuiltinCons()
    ensures Eval(MakeList([Sym("cons"), Num(1), Num(2)]), MakeBuiltinEnv()) == Ok(Cons(Num(1), Num(2)))
  {
    BuiltinEnvContents();
    EvalConsCall(MakeBuiltinEnv(), Num(1), Num(2));
  }

  /** `(cons a d)` on two numbers, in any environment binding `cons` to
      the builtin, is the cell of `a` and `d`. */
  lemma {:induction false} EvalConsCall(env: Env, a: SExpr, d: SExpr)
    requires Lookup(env, "cons") == Some(BuiltinFunc("cons", Arity(2, 0, false), ConsBody))
    requires a.Num? && d.Num?
    ensures Eval(MakeList([Sym("cons"), a, d]), env) == Ok(Cons(a, d))
  {
    var args := [a, d];
    assert [Sym("cons"), a, d] == [Sym("cons")] + args;
    EvalListForm(Sym("cons"), args, env);
    assert AllEvaluate(args, env);
    assert Values(args, env) == args;
    CallFuncOrder("cons", Arity(2), ConsBody, args, env);
  }

  /** A call whose head names a builtin function and whose operands all
      evaluate, but in a number the arity does not admit, fails with the
      arity check's message. */
  lemma {:induction false} CallWithWrongArity(name: string, f: SExpr, args: seq<SExpr>, env: Env)
    requires Lookup(env, name) == Some(f) && f.BuiltinFunc?
    requires AllEvaluate(args, env) && !Admits(f.arity, |args|)
    ensures Eval(MakeList([Sym(name)] + args), env) == Err(ValidateByArity(Values(args, env), f.arity).error)
  {
    EvalSymbol(name, env);
    EvalListForm(Sym(name), args, env);
    CallFuncOrder(f.name, f.arity, f.body, args, env);
  }

  /** Calling `cons`, `car` or `cdr` with operands that evaluate but are
      too many or too few gives the exact-arity message. */
  lemma {:induction false} BuiltinWrongArity(name: string, args: seq<SExpr>)
    requires name in {"cons", "car", "cdr"}
    requires AllEvaluate(args, MakeBuiltinEnv())
    requires |args| != (if name == "cons" then 2 else 1)
    ensures Eval(MakeList([Sym(name)] + args), MakeBuiltinEnv())
            == Err("expected " + NatToString(if name == "cons" then 2 else 1) + ", but got " + NatToString(|args|))
  {
    var env := MakeBuiltinEnv();
    BuiltinEnvContents();
    var f := Lookup(env, name).value;
    assert f.BuiltinFunc? && f.arity == Arity(if name == "cons" then 2 else 1, 0, false);
    CallWithWrongArity(name, f, args, env);
    ArityMessages(Values(args, env), f.arity);
  }

  /** The `quote` body hands its operand back untouched, whatever it is. */
  lemma {:induction false} QuoteBodyUnevaluated(x: SExpr, env: Env)
    ensures ApplyBody(QuoteBody, [x], env) == Ok(x)
    ensures ApplyBody(Lookup(MakeBuiltinEnv(), "quote").value.body, [x], env) == Ok(x)
  {
    BuiltinEnvContents();
  }

  /** The evaluator only calls functions: `(quote a)`, in an environment
      binding `quote` to a special form, reaches the special form and is
      refused as not a procedure. The root environment is one such. */
  lemma {:induction false} QuoteThroughEval(env: Env)
    requires Lookup(env, "quote").Some? && Lookup(env, "quote").value.SpForm?
    ensures Eval(MakeList([Sym("quote"), Sym("a")]), env) == Err("expected proc, but got not proc")
  {
    EvalSymbol("quote", env);
    assert [Sym("quote"), Sym("a")] == [Sym("quote")] + [Sym("a")];
    EvalListForm(Sym("quote"), [Sym("a")], env);
  }

  /** The environment tests: a child binding `answer` and `language` under
      a parent binding `nil` and `language`. */
  lemma {:induction false} EnvLookupCases()
    ensures var parent := Define(Define(NewEnv([], None), "nil", NIL), "language", Sym("javascript"));
            var child := Define(Define(NewEnv([], Some(parent)), "answer", Num(42)), "language", Sym("typescript"));
            && Lookup(child, "answer") == Some(Num(42))
            && Lookup(child, "nil") == Some(NIL)
            && Lookup(child, "language") == Some(Sym("typescript"))
            && Lookup(child, "silver-bullet") == None
  {
    var root := NewEnv([], None);
    var p1 := Define(root, "nil", NIL);
    var parent := Define(p1, "language", Sym("javascript"));
    var c0 := NewEnv([], Some(parent));
    var c1 := Define(c0, "answer", Num(42));
    var child := Define(c1, "language", Sym("typescript"));
    DefineThenLookup(c1, "language", Sym("typescript"));
    DefineOtherNames(c1, "language", Sym("typescript"), "answer");
    DefineThenLookup(c0, "answer", Num(42));
    DefineOtherNames(c1, "language", Sym("typescript"), "nil");
    DefineOtherNames(c0, "answer", Num(42), "nil");
    DefineOtherNames(parent, "language", Sym("javascript"), "nil");
    DefineOtherNames(p1, "language", Sym("javascript"), "nil");
    DefineThenLookup(root, "nil", NIL);
    DefineOtherNames(c1, "language", Sym("typescript"), "silver-bullet");
    DefineOtherNames(c0, "answer", Num(42), "silver-bullet");
    DefineOtherNames(p1, "language", Sym("javascript"), "silver-bullet");
    DefineOtherNames(root, "nil", NIL, "silver-bullet");
  }
}

/** The builtin procedure bodies of src/builtin.ts, the two procedures the
    evaluator's tests bind, and the root environment. */
module Builtins {
  import opened Results
  import opened Options
  import opened SExprs
  import opened Envs

  /** The answer of a body that the JavaScript would hand `undefined`: a
      procedure declared with an arity that admits fewer operands than its
      body reads. None of the procedures bound here can reach it. */
  const MISSING_OPERAND: string := "missing operand"

  /** Runs the body `body` on evaluated (or, for a special form, raw)
      operands. Operands beyond the ones a body reads are ignored, as the
      source's array destructuring ignores them. The environment is the
      caller's; no body here uses it. */
  function ApplyBody(body: Body, args: seq<SExpr>, env: Env): (r: Result<SExpr, string>)
    ensures body == ConsBody && |args| >= 2 ==> r == Ok(Cons(args[0], args[1]))
    ensures body == CarBody || body == CdrBody ==>
              (r.Ok? <==> |args| >= 1 && args[0].Cons?)
    ensures body == CarBody && r.Ok? ==> r.value == args[0].car
    ensures body == CdrBody && r.Ok? ==> r.value == args[0].cdr
    ensures (body == CarBody || body == CdrBody) && r.Err? ==> r.error == "expected cons"
    ensures body == QuoteBody && |args| >= 1 ==> r == Ok(args[0])
    ensures body == ListBody ==> r.Ok? && ToArray(r.value) == Spread(args, None)
  {
    match body
    case ConsBody => if |args| >= 2 then Ok(Cons(args[0], args[1])) else Err(MISSING_OPERAND)
    case CarBody => if |args| >= 1 && args[0].Cons? then Ok(args[0].car) else Err("expected cons")
    case CdrBody => if |args| >= 1 && args[0].Cons? then Ok(args[0].cdr) else Err("expected cons")
    case QuoteBody => if |args| >= 1 then Ok(args[0]) else Err(MISSING_OPERAND)
    case AddBody =>
      if |args| >= 2 && args[0].Num? && args[1].Num? then Ok(Num(args[0].n + args[1].n))
      else Err("is not number")
    case ListBody =>
      MakeListRoundTrip(args);
      Ok(MakeList(args))
  }

  /** `car` and `cdr` take a cell apart again: `cons` then `car` gives the
      first operand back and `cons` then `cdr` the second. */
  lemma {:induction false} CarCdrOfCons(a: SExpr, d: SExpr, env: Env)
    ensures ApplyBody(ConsBody, [a, d], env).Ok?
    ensures ApplyBody(CarBody, [ApplyBody(ConsBody, [a, d], env).value], env) == Ok(a)
    ensures ApplyBody(CdrBody, [ApplyBody(ConsBody, [a, d], env).value], env) == Ok(d)
  {
  }

  /** The `add` of the evaluator's tests: the sum of two numbers. */
  lemma {:induction false} AddSums(a: int, b: int, env: Env)
    ensures ApplyBody(AddBody, [Num(a), Num(b)], env) == Ok(Num(a + b))
    ensures forall x: SExpr :: !x.Num? ==> ApplyBody(AddBody, [x, Num(b)], env) == Err("is not number")
    ensures forall x: SExpr :: !x.Num? ==> ApplyBody(AddBody, [Num(a), x], env) == Err("is not number")
  {
  }

  /** The builtin procedures, each with its name, its `{ required: n }`
      arity and its body. */
  const CONS_PROC: SExpr := BuiltinFunc("cons", Arity(2), ConsBody)
  const CAR_PROC: SExpr := BuiltinFunc("car", Arity(1), CarBody)
  const CDR_PROC: SExpr := BuiltinFunc("cdr", Arity(1), CdrBody)
  const QUOTE_PROC: SExpr := SpForm("quote", Arity(1), QuoteBody)

  /** `makeBuiltinFuncs`: the builtin functions, in the order the source
      lists them. Each has its own name and an exact operand count. */
  function MakeBuiltinFuncs(): (fs: seq<SExpr>)
    ensures forall i :: 0 <= i < |fs| ==> fs[i].BuiltinFunc? && fs[i].arity.optional == 0 && !fs[i].arity.hasRest
    ensures forall i, j :: 0 <= i < j < |fs| ==> fs[i].name != fs[j].name
    ensures |fs| == 3
    ensures fs[0].name == "cons" && fs[0].arity.required == 2
    ensures fs[1].name == "car" && fs[1].arity.required == 1
    ensures fs[2].name == "cdr" && fs[2].arity.required == 1
  {
    [CONS_PROC, CAR_PROC, CDR_PROC]
  }

  /** `makeSpForms`: the builtin special forms, each with an exact operand
      count. */
  function MakeSpForms(): (fs: seq<SExpr>)
    ensures forall i :: 0 <= i < |fs| ==> fs[i].SpForm? && fs[i].arity.optional == 0 && !fs[i].arity.hasRest
    ensures |fs| == 1 && fs[0].name == "quote" && fs[0].arity.required == 1
  {
    [QUOTE_PROC]
  }

  /** The `map((f) => [f.name, f])` of `makeBuiltinEnv`: one entry per
      procedure, binding the procedure under its own name. */
  function NamedEntries(procs: seq<SExpr>): (entries: seq<(string, SExpr)>)
    requires forall i :: 0 <= i < |procs| ==> IsProc(procs[i])
    ensures |entries| == |procs|
    ensures forall i :: 0 <= i < |procs| ==> entries[i].1 == procs[i]
    ensures forall e :: e in entries ==> e.1 in procs && IsProc(e.1) && e.0 == e.1.name
  {
    seq(|procs|, i requires 0 <= i < |procs| && IsProc(procs[i]) => (procs[i].name, procs[i]))
  }

  /** `makeBuiltinEnv`: a root environment binding every builtin under its name. */
  function MakeBuiltinEnv(): (env: Env)
    ensures env.parent == None
    ensures env.frame.Keys == {"cons", "car", "cdr", "quote"}
  {
    var entries := NamedEntries(MakeBuiltinFuncs() + MakeSpForms());
    BuiltinEntries();
    FourEntries(entries, CONS_PROC, CAR_PROC, CDR_PROC, QUOTE_PROC);
    NewEnv(entries, None)
  }

  /** The root environment has no parent and binds exactly `cons`, `car`,
      `cdr` and `quote`, each to a procedure of that name with arity
      2, 1, 1 and 1. */
  lemma {:induction false} BuiltinEnvContents()
    ensures MakeBuiltinEnv().parent == None
    ensures MakeBuiltinEnv().frame.Keys == {"cons", "car", "cdr", "quote"}
    ensures Lookup(MakeBuiltinEnv(), "cons") == Some(BuiltinFunc("cons", Arity(2, 0, false), ConsBody))
    ensures Lookup(MakeBuiltinEnv(), "car") == Some(BuiltinFunc("car", Arity(1, 0, false), CarBody))
    ensures Lookup(MakeBuiltinEnv(), "cdr") == Some(BuiltinFunc("cdr", Arity(1, 0, false), CdrBody))
    ensures Lookup(MakeBuiltinEnv(), "quote") == Some(SpForm("quote", Arity(1, 0, false), QuoteBody))
  {
    BuiltinEntries();
    FourEntries(NamedEntries(MakeBuiltinFuncs() + MakeSpForms()), CONS_PROC, CAR_PROC, CDR_PROC, QUOTE_PROC);
  }

  /** The entries `makeBuiltinEnv` hands to the constructor. */
  lemma {:induction false} BuiltinEntries()
    ensures NamedEntries(MakeBuiltinFuncs() + MakeSpForms())
            == [("cons", CONS_PROC), ("car", CAR_PROC), ("cdr", CDR_PROC), ("quote", QUOTE_PROC)]
  {
    var procs := MakeBuiltinFuncs() + MakeSpForms();
    assert procs == [CONS_PROC, CAR_PROC, CDR_PROC, QUOTE_PROC];
  }

  /** The frame built from four entries with different names binds
      exactly those names, each to its own value. */
  lemma {:induction false} FourEntries(entries: seq<(string, SExpr)>, a: SExpr, b: SExpr, c: SExpr, d: SExpr)
    requires entries == [("cons", a), ("car", b), ("cdr", c), ("quote", d)]
    ensures FromEntries(entries).Keys == {"cons", "car", "cdr", "quote"}
    ensures FromEntries(entries)["cons"] == a && FromEntries(entries)["car"] == b
    ensures FromEntries(entries)["cdr"] == c && FromEntries(entries)["quote"] == d
  {
    FromEntriesKeys(entries);
    forall name | name in FromEntries(entries)
      ensures name in {"cons", "car", "cdr", "quote"}
    {
      var i :| 0 <= i < |entries| && entries[i].0 == name;
    }
    forall i | 0 <= i < 4
      ensures IsLastEntry(entries, i)
    {
    }
    FromEntriesLastWins(entries, 0);
    FromEntriesLastWins(entries, 1);
    FromEntriesLastWins(entries, 2);
    FromEntriesLastWins(entries, 3);
  }
}

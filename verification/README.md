# ts-lisp interpreter core in Dafny

A model of the interpreter core of ts-lisp, a small Lisp written in
TypeScript, with proofs about it. It covers seven pieces.

- **Value model** (`SExprs`, sexpr.dfy): `NIL`, numbers, booleans,
  symbols, cons cells and builtin procedure values, with `makeList` and
  `toBool`. `makeNum`, `makeBool`, `makeSym` and `makeCons` are the
  datatype's constructors, so the `car` and `cdr` of `Cons(a, d)` are `a`
  and `d` by construction. The procedure variants and `toArray` are not
  defined in src/sexpr.ts, but src/eval.ts and src/builtin.ts import
  them. They are modelled as follows:
  - `BuiltinFunc` and `SpForm` carry a name, an `Arity` and a body tag
    from a closed set;
  - `ToArray` splits a cell chain into its elements plus its
    non-`NIL` end, if it has one.
- **Options** (`Options`, options.dfy): `Some`/`None` with `isDefined`,
  `filter`, `map`, `flatMap` and `okOr`.
- **Results** (`Results`, results.dfy): the `Ok`/`Err` datatype. In
  src/result.ts every method of `Ok` and `Err` throws "Method not
  implemented.". The evaluator chains results with `flatMap` and `map`.
  The model writes that chaining out as `match` expressions. They have
  the meaning the result tests expect (test/result.test.ts:120-165): an
  `Err` is passed on untouched, and an `Ok` value is handed to the next
  step.
- **Environments** (`Envs`, env.dfy): a frame of bindings and an
  optional parent. `Define` returns the updated environment instead of
  mutating the frame. `Lookup` walks up the parents.
- **Tokenizer** (`Lexer`, lexer.dfy):
  - The source's regular expressions become character-class predicates
    and a `Match` function per rule.
  - `FirstMatch` tries the rules in the source's order.
  - `Scan` and `Tokenize` model the while loop. `TokenizeLoop` is that
    loop written as a method.
  - The thrown `ParserError` becomes an `Err` result.
- **Evaluator** (`Evaluator`, eval.dfy): `Eval` (`evalSExpr`), `CallFunc`
  with the operand fold `EvalArgs`, and `ValidateByArity` with its three
  exact messages. Numbers in the messages are rendered by `Decimal`
  (decimal.dfy).
- **Builtins** (`Builtins`, builtin.dfy): the bodies of `cons`, `car`,
  `cdr` and `quote`, plus the `add` and `list2more` bodies that the
  evaluator's tests bind. It also holds `MakeBuiltinEnv`.

The concrete cases of the repository's tests are stated as lemmas in
`Scenarios` (scenarios.dfy) and `TokenizerScenarios`
(tokenizer_scenarios.dfy). `TokenizerText` only fixes the spelling of
the tokenizer test's input text.

The model follows the code. The one exception is the `Result` methods
described above, which the code leaves unimplemented. Two behaviours
are worth knowing:
- **Procedure calls.** The evaluator calls only builtin functions. A
  call form whose head is a special form such as `quote` is refused with
  "expected proc, but got not proc" (src/eval.ts:37-41).
- **Symbols.** A symbol may have digits anywhere after its first
  character (src/parser.ts:30).

## Model

| member | source | states |
|---|---|---|
| Options.IsDefined | src/option.ts:21-23 | holds exactly for `Some`; `None` answers false |
| Options.IsDefinedAgrees | src/option.ts:21-67 | `isDefined` holds exactly when `okOr` gives `Ok` and exactly when `map` keeps a value |
| Options.Filter | src/option.ts:25-27 | the result is the receiver itself or `None`, and it is `Some` exactly when the receiver is `Some` and the predicate accepts its value |
| Options.FilterIsFlatMap | src/option.ts:25-63 | `filter` agrees with `flatMap` by a function answering the value or `None`, for `Some` and `None` alike |
| Options.Map | src/option.ts:29-31 | the result is `Some` exactly when the receiver is, holding `f` of its value |
| Options.MapIsFlatMap | src/option.ts:29-63 | `map` agrees with `flatMap` by a function that always answers `Some` |
| Options.FlatMap | src/option.ts:33-35 | `Some(v)` gives `f(v)`; `None` gives `None` |
| Options.OkOr | src/option.ts:37-39 | `Ok` exactly for `Some`, with the same value; `None` gives `Err(e)` |
| Options.OkOrRoundTrip | src/option.ts:37-67 | forgetting the error of `okOr`'s result gives the option back |
| SExprs.TypePredicatesExclusive | src/sexpr.ts:7-35 | each type predicate holds of its own variant only, so no value satisfies two of them |
| SExprs.ConstantsDistinct | src/sexpr.ts:6-24 | `NIL`, `TRUE` and `FALSE` are pairwise different |
| SExprs.ToBool | src/sexpr.ts:52-54 | the result is a boolean, and it is `FALSE` exactly for `NIL` and `FALSE` |
| SExprs.ToBoolByVariant | test/sexpr.test.ts:17-22 | numbers (zero included), symbols, cells and procedures are true |
| SExprs.MakeList | src/sexpr.ts:56-61 | the result is `NIL` or a cell, as the declared `Cons \| Nil` return type says, and it is `NIL` exactly for no operands |
| SExprs.ReduceRight | src/sexpr.ts:57-60 | the fold over no elements is its seed, and over any element it is a cell |
| SExprs.MakeListRoundTrip | src/sexpr.ts:56-61 | `makeList(xs)` is a proper list whose elements are `xs`, in order and with length `|xs|` |
| SExprs.MakeListShape | src/sexpr.ts:56-61 | `makeList()` is `NIL`; a non-empty `makeList` is a cell of its first operand and the list of the rest |
| SExprs.ReduceRightIsWithTail | src/sexpr.ts:57-60 | the back-to-front fold builds the same chain as consing front to back |
| SExprs.ToArray | src/eval.ts:31-32 | the extra end, if any, is neither `NIL` nor a cell; a cell has at least one element; any other non-`NIL` value is all extra end |
| SExprs.ToArraySmaller | src/eval.ts:31-36 | the elements together are smaller than the chain, so evaluating them terminates |
| SExprs.ToArrayRebuilds | src/eval.ts:31-32 | putting `toArray`'s elements back in front of its end gives the original chain |
| SExprs.ProperListIff | src/eval.ts:32 | `toArray` finds no extra end exactly when the value is a proper list |
| SExprs.ToArrayRoundTrip | src/eval.ts:31-34 | a proper list is `makeList` of its own elements |
| Decimal.NatToString | src/eval.ts:75-85 | the count in an arity message is rendered as at least one decimal digit, digits only, with no leading zero |
| Decimal.NatToStringRoundTrip | src/eval.ts:75 | reading back the rendered numeral gives the number |
| Decimal.NatToStringInjective | src/eval.ts:85 | different numbers render as different numerals |
| Envs.FromEntries | src/env.ts:8 | the frame holds no more bindings than there are entries, and the last entry's name is bound to its value |
| Envs.NewEnv | src/env.ts:7-10 | the constructor keeps the given parent, and its frame binds exactly the names of the entries |
| Envs.FromEntriesKeys | src/env.ts:8 | the constructor's frame binds exactly the names of its entries |
| Envs.FromEntriesLastWins | src/env.ts:8 | a name listed more than once keeps the value of its last entry |
| Envs.ConstructorBindingsVisible | src/env.ts:7-10 | every binding passed to the constructor is visible to `lookup`, under any parent |
| Envs.Define | src/env.ts:12-14 | `define` keeps the parent and adds exactly the defined name to the local frame's names |
| Envs.DefineThenLookup | src/env.ts:12-20 | after `define(n, v)`, `lookup(n)` is `v` |
| Envs.DefineOverwrites | src/env.ts:13 | a second `define` of a name replaces the first |
| Envs.DefineOtherNames | src/env.ts:12-14 | `define` of one name leaves every other name's lookup as it was |
| Envs.DefineKeepsParent | src/env.ts:12-14 | `define` leaves the parent, and every lookup through it, unchanged |
| Envs.LocalShadowsParent | src/env.ts:17-20 | a local binding hides the parent's binding of the same name |
| Envs.MissFallsToParent | src/env.ts:22 | a name missing locally is answered by the parent chain |
| Envs.Lookup | src/env.ts:16-23 | a found value is bound to the name in some frame of the chain |
| Envs.LookupAbsentIff | src/env.ts:16-23 | `lookup` is absent exactly when no frame of the chain binds the name |
| Envs.LookupFirstFrame | src/env.ts:16-23 | a found value comes from the first frame of the chain that binds the name |
| Lexer.RulesEachOnce | src/parser.ts:25-35 | every rule is tried exactly once, whitespace first, and the number rule before the symbol rule |
| Lexer.Match | src/parser.ts:25-35 | a matching rule consumes at least one character and no more than the text holds |
| Lexer.FirstMatch | src/parser.ts:41-47 | the chosen rule matches with the reported length and no earlier rule matches; `None` means no rule matches |
| Lexer.FirstMatchIsFirst | src/parser.ts:41-47 | conversely, the first rule that matches is the one chosen |
| Lexer.Scan | src/parser.ts:39-57 | the scanned tokens never include the end-of-input kind |
| Lexer.Tokenize | src/parser.ts:24-62 | a result ends with the end-of-input token, which appears nowhere else; it fails exactly when the scan fails |
| Lexer.TokenizeLoop | src/parser.ts:37-61 | the while loop, pushing tokens and cutting the matched prefix, computes `Tokenize` |
| Lexer.ScanStep | src/parser.ts:52-56 | one step emits the matched rule's token, if any, in front of the tokens of the rest |
| Lexer.ScanSpellsSource | src/parser.ts:39-57 | the token texts, concatenated, are the source with its whitespace removed |
| Lexer.RuleWellShaped | src/parser.ts:27-34 | each rule emits a token whose text has its kind's shape |
| Lexer.StepWellShaped | src/parser.ts:41-47 | because the number rule is tried first, a symbol token never looks like a numeral |
| Lexer.ScanWellShaped | src/parser.ts:25-35 | every scanned token is well shaped for its kind |
| Lexer.BlankGivesOnlyEoi | src/parser.ts:26 | whitespace-only text, the empty text included, gives `[EOI]` |
| Lexer.BlankIffOnlyEoi | src/parser.ts:39-59 | `[EOI]` is the answer exactly for empty or whitespace-only text |
| Lexer.InsideMatchMatches | src/parser.ts:26-30 | every later position inside a rule's match starts some rule's match too |
| Lexer.ScanErrorNamesCharacter | src/parser.ts:39-50 | a failed scan names the character at the first position of the text where no rule matches; every earlier position starts some rule's match |
| Lexer.ScanOkMatchesEverywhere | src/parser.ts:39-57 | after a successful scan, some rule matches at every position of the text |
| Lexer.ScanFailsIff | src/parser.ts:39-57 | the scan fails exactly when some position of the text starts no rule's match |
| Lexer.TokenizeStops | src/parser.ts:48-50 | where no rule matches, the answer is the error naming the first remaining character |
| Lexer.ClassesDisjoint | src/parser.ts:26-30 | whitespace, digits, symbol starts and the punctuation characters do not overlap |
| Lexer.FrontWhitespace | src/parser.ts:26 | leading whitespace is consumed as one whole run by the first rule |
| Lexer.FrontDigit | src/parser.ts:27 | a leading digit starts a number covering the whole digit run |
| Lexer.FrontSignedNumber | src/parser.ts:27-30 | a sign followed by a digit is a number, not a symbol |
| Lexer.FrontBoolean | src/parser.ts:28-29 | `#t` and `#f` are the true and false tokens |
| Lexer.FrontSymbol | src/parser.ts:30 | a symbol start not opening a signed number begins a symbol over the longest symbol-character run |
| Lexer.FrontWholeSymbol | src/parser.ts:30 | a whole symbol before a non-symbol character is matched exactly |
| Lexer.FrontPunctuation | src/parser.ts:31-34 | `(`, `)`, `'` and `.` are one-character tokens of the rules 5 to 8 |
| Lexer.FrontNothing | src/parser.ts:25-35 | no rule matches exactly when the front starts none of the token classes |
| Builtins.ApplyBody | src/builtin.ts:24-42 | `cons` builds the cell; `car`/`cdr` succeed exactly on a cell and answer its part, else "expected cons"; `quote` answers its operand |
| Builtins.CarCdrOfCons | src/builtin.ts:26-36 | `car` and `cdr` of what `cons` built give back the two operands |
| Builtins.AddSums | test/eval.test.ts:70-75 | the tests' `add` sums two numbers and refuses a non-number in either operand place |
| Builtins.MakeBuiltinFuncs | src/builtin.ts:24-38 | exactly `cons` (2 operands), `car` (1) and `cdr` (1), in that order: builtin functions with exact operand counts and distinct names |
| Builtins.MakeSpForms | src/builtin.ts:40-42 | exactly `quote`, a special form taking exactly one operand |
| Builtins.NamedEntries | src/builtin.ts:16-17 | entry i binds procedure i under that procedure's own name, one entry per procedure in order |
| Builtins.MakeBuiltinEnv | src/builtin.ts:13-22 | the root environment has no parent and binds exactly `cons`, `car`, `cdr` and `quote` |
| Builtins.BuiltinEnvContents | src/builtin.ts:13-22 | the root environment has no parent and binds exactly `cons`, `car`, `cdr`, `quote`, each under its own name with arity 2, 1, 1, 1 |
| Evaluator.Eval | src/eval.ts:22-45 | a symbol evaluates exactly when it is bound; a cell evaluates only if it is a proper list; a procedure value on its own is an error |
| Evaluator.EvalForm | src/eval.ts:30-44 | the call-form branch succeeds only on a proper list |
| Evaluator.CallFunc | src/eval.ts:47-67 | a call succeeds only when every operand evaluated and their number fits the arity |
| Evaluator.EvalArgs | src/eval.ts:48-58 | an error already in the fold is the answer; a success holds the accumulated values, unchanged, followed by one value per operand |
| Evaluator.ValidateByArity | src/eval.ts:69-88 | success exactly when the count fits the arity, and then the list comes back unchanged |
| Evaluator.ArityMessages | src/eval.ts:72-87 | the exact message of each of the three arity cases |
| Evaluator.EvalSelf | src/eval.ts:23-24 | `NIL`, booleans and numbers evaluate to themselves |
| Evaluator.EvalSymbol | src/eval.ts:25-29 | a bound symbol gives its binding; an unbound one gives "<name> is not defined" |
| Evaluator.EvalNotAList | src/eval.ts:31-33 | an improper list, or a procedure value on its own, gives "expected list format" |
| Evaluator.EvalCallForm | src/eval.ts:34-42 | the head's error wins; a non-function head is "expected proc, but got not proc"; a function is called on the remaining elements |
| Evaluator.EvalListForm | src/eval.ts:31-43 | the same three outcomes for the call form `makeList(head, ...args)` |
| Evaluator.EvalArgsAllOk | src/eval.ts:48-58 | when every operand evaluates, the fold appends their values, in order, to the accumulated prefix |
| Evaluator.EvalArgsFails | src/eval.ts:48-58 | when operand `i` is the first to fail, the fold answers its error |
| Evaluator.EvalArgsFrom | src/eval.ts:48-58 | from any accumulated prefix, the fold succeeds exactly when every operand evaluates, appending their values in order, and otherwise answers the first failing operand's error |
| Evaluator.EvalArgsLeftToRight | src/eval.ts:48-58 | the operands' values in order, or the error of the first operand that fails |
| Evaluator.EvalArgsShortCircuit | src/eval.ts:48-58 | operands after the first failing one are never looked at: replacing them changes nothing |
| Evaluator.CallFuncOrder | src/eval.ts:47-67 | an operand error comes first; the arity is checked only once every operand has a value; the body runs only after that, on the values in order |
| Evaluator.ArityErrorSkipsBody | src/eval.ts:59-62 | an arity error is an error, and the same one whatever the body is |
| Scenarios.TestEnvBindings | test/eval.test.ts:86-94 | the tests' environment binds `add` and `answer` and not `unknown` |
| Scenarios.EvalSymbolCases | test/eval.test.ts:26-37 | in any environment binding them as the tests do, `answer` is 42 and `unknown` is not defined |
| Scenarios.EvalNumberHead | test/eval.test.ts:38-43 | `(answer 41)` is refused as not a procedure |
| Scenarios.EvalAdd | src/eval.ts:36-38 | in any environment binding `add`, `(add ...)` with number operands calls `add` on them unchanged |
| Scenarios.EvalAddFits | test/eval.test.ts:44-49 | `(add 41 1)` is 42 |
| Scenarios.EvalAddTooFew | test/eval.test.ts:50-55 | `(add 41)` is "expected 2, but got 1" |
| Scenarios.EvalAddTooMany | test/eval.test.ts:56-61 | `(add 41 1 2)` is "expected 2, but got 3" |
| Scenarios.EvalTestCases | test/eval.test.ts:26-61 | the six cases above hold in the tests' environment |
| Scenarios.EvalConsCall | src/builtin.ts:26-30 | in any environment binding `cons` to the builtin, `(cons a d)` on numbers is the cell of `a` and `d` |
| Scenarios.EvalBuiltinCons | test/builtin.test.ts:36-41 | `(cons 1 2)` in the root environment is the cell of 1 and 2 |
| Scenarios.CallWithWrongArity | src/eval.ts:59 | a builtin call whose operands evaluate but whose count does not fit gives the arity check's error |
| Scenarios.BuiltinWrongArity | src/eval.ts:82-86 | `cons`, `car` and `cdr` with the wrong operand count give the exact-arity message |
| Scenarios.QuoteBodyUnevaluated | src/builtin.ts:41 | the `quote` body returns its operand untouched |
| Scenarios.QuoteThroughEval | src/eval.ts:37-41 | `(quote a)` through the evaluator, with `quote` bound to a special form as in the root environment, is refused as not a procedure |
| Scenarios.EnvLookupCases | test/env.test.ts:32-40 | the child and parent of the environment test give 42, `NIL`, `typescript` and nothing |
| TokenizerScenarios.TokenizeBlank | test/parser.test.ts:8-9 | `""` and `" \n"` give `[EOI]` |
| TokenizerScenarios.TokenizeEveryKind | test/parser.test.ts:10-25 | the test text gives the ten expected tokens and `EOI`; `-42` is a number, while `answer42` and `+-*/<=>!?_` are symbols |
| TokenizerScenarios.TokenizeHash | test/parser.test.ts:34-42 | a lone `#` gives `unrecognized character found "#"` |

## Left out

- src/main.ts, the command-line entry point: it does I/O, and it calls a
  `parseProgram` that src/parser.ts does not define. There is no reader
  beyond the tokenizer to model.
- The methods of src/result.ts as written: every one of them throws
  "Method not implemented.". Only the `Ok`/`Err` datatype is modelled,
  and `isOk`, `isErr` and `filter` are not used by the modelled code.
- Evaluator.Eval: the model gives `Result.flatMap` and `Result.map` the
  meaning the result tests expect (test/result.test.ts:120-165), while
  src/result.ts throws in both. As written, `evalSExpr` of any cell, and
  so every call form, throws instead of answering. The same goes for
  Evaluator.EvalForm, Evaluator.CallFunc, Evaluator.EvalArgs and the
  evaluator scenarios, which state what the tests expect.
- User-defined closures: `callFunc` throws "not implemented" for them
  (src/eval.ts:63-64). This drops the `(inc 41)` case of
  test/eval.test.ts:62-67 and the `inc` binding of the test environment.
- Special-form dispatch and the quote sugar: the evaluator does not
  dispatch special forms. Only the `quote` body is modelled on its own.
- `toString` of options, results and values: only formatting.
- JavaScript numbers: numbers are unbounded integers. `add` overflow and
  fractions are not modelled.
- Object identity: `cons` is modelled as a value, so "a fresh cell"
  means "a cell holding these two values".
- The `isCons` truthiness test (src/sexpr.ts:44-48) and `Opaque`
  branding: the variants of the datatype take their place.
- JavaScript regular expressions: each rule is a character-class
  predicate. `\s` is written out as the set of characters JavaScript
  matches with it.
- Lexer.Tokenize: strings are sequences of Unicode code points, while
  JavaScript strings are sequences of UTF-16 code units. For a character
  outside the Basic Multilingual Plane, the error names the whole
  character, where `rest[0]` (src/parser.ts:49) names its first
  surrogate. Strings holding a lone surrogate cannot be expressed.
- Builtins.ApplyBody: a `cons` or `quote` body given fewer operands than
  it reads answers `Err("missing operand")`. In JavaScript it would read
  `undefined` instead. Each procedure's arity rules this case out, so it
  is never reached.
- Envs.Define: the source mutates the frame in place; here `Define`
  returns a new environment. Sharing a frame between aliases is not
  modelled, and no modelled caller depends on it.
- Scenarios.EnvLookupCases: test/env.test.ts:33 and :37 call the
  constructor with one argument. This is modelled as an empty initial
  frame under the given parent. In the source both calls go wrong:
  - `new Env(parent)` (:37) passes the parent as `initial`, and
    `new Map(parent)` (src/env.ts:8) throws a TypeError, because an `Env`
    is not iterable;
  - `new Env(null)` (:33) leaves the parent `undefined`, so a lookup that
    misses the local frame calls `undefined.lookup` (src/env.ts:22) and
    throws.
- test/helper.ts: test plumbing only.

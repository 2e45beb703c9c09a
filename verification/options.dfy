/** The optional value of src/option.ts with its four combinators. The
    evaluator uses them to check that a call form is a proper list. */
module Options {
  import opened Results

  datatype Option<T> = None | Some(value: T)

  /** `isDefined`: holds for `Some` and fails for `None`. */
  function IsDefined<T>(o: Option<T>): (b: bool)
    ensures b <==> o != None
  {
    match o
    case Some(_) => true
    case None => false
  }

  /** `filter`: keeps the receiver when the predicate accepts its value.
      It never builds a new value: the result is the receiver or `None`. */
  function Filter<T>(o: Option<T>, f: T -> bool): (r: Option<T>)
    ensures r == o || r == None
    ensures r.Some? <==> o.Some? && f(o.value)
  {
    match o
    case Some(v) => if f(v) then o else None
    case None => o
  }

  /** `map`: applies `f` under `Some`, leaves `None` alone. */
  function Map<T, R>(o: Option<T>, f: T -> R): (r: Option<R>)
    ensures r.Some? <==> o.Some?
    ensures r.Some? ==> r.value == f(o.value)
  {
    match o
    case Some(v) => Some(f(v))
    case None => None
  }

  /** `flatMap`: hands the value of a `Some` to `f`, whose option is the
      answer; `None` stays `None` without calling `f`. */
  function FlatMap<T, R>(o: Option<T>, f: T -> Option<R>): (r: Option<R>)
    ensures o.None? ==> r.None?
    ensures o.Some? ==> r == f(o.value)
  {
    match o
    case Some(v) => f(v)
    case None => None
  }

  /** `okOr`: turns `Some(v)` into `Ok(v)` and `None` into `Err(e)`. */
  function OkOr<T, E>(o: Option<T>, e: E): (r: Result<T, E>)
    ensures r.Ok? <==> o.Some?
    ensures r.Ok? ==> r.value == o.value
    ensures r.Err? ==> r.error == e
  {
    match o
    case Some(v) => Ok(v)
    case None => Err(e)
  }

  /** The way back from a result to an option, forgetting the error. */
  function OkValue<T, E>(r: Result<T, E>): Option<T>
  {
    match r
    case Ok(v) => Some(v)
    case Err(_) => None
  }

  /** `okOr` loses nothing: forgetting the error gives the option back. */
  lemma {:induction false} OkOrRoundTrip<T, E>(o: Option<T>, e: E)
    ensures OkValue(OkOr(o, e)) == o
  {
  }

  /** `map` is `flatMap` with a function that always answers `Some`. */
  lemma {:induction false} MapIsFlatMap<T, R>(o: Option<T>, f: T -> R)
    ensures Map(o, f) == FlatMap(o, x => Some(f(x)))
  {
  }

  /** `filter` is `flatMap` with a function that answers the value or `None`. */
  lemma {:induction false} FilterIsFlatMap<T>(o: Option<T>, f: T -> bool)
    ensures Filter(o, f) == FlatMap(o, x => if f(x) then Some(x) else None)
  {
  }

  /** `isDefined` agrees with the other combinators: it holds exactly when
      `okOr` succeeds and exactly when `map` keeps a value. */
  lemma {:induction false} IsDefinedAgrees<T, E>(o: Option<T>, e: E)
    ensures IsDefined(o) <==> OkOr(o, e).Ok?
    ensures IsDefined(o) <==> Map(o, (x: T) => x).Some?
  {
  }
}

/**
 * The `Result` container of deepblu/result/__init__.py. It has the same API as
 * deepblu/result.py with two differences: errors match only when their classes are
 * identical (`type(a) is type(b)`), which makes equality symmetric, and
 * `Result.err` stores its argument unchanged; only the free `error` turns a string
 * into an `Exception`.
 */
module ResultPackage {
  import opened PyObjects

  datatype Result = Result(value: Obj, error: Obj, isOk: bool) {
    /** The constructor's invariant: an ok result carries no error. */
    predicate Valid()
    {
      isOk ==> error == None
    }

    /** `is_error`. */
    predicate IsError()
    {
      !isOk
    }
  }

  /** The right operand of `==`: another result, or any other object. */
  datatype Operand = AResult(result: Result) | Other(obj: Obj)

  /** `Result(value, error, is_ok)`: raises `ValueError` when asked to be ok and
      to carry an error. */
  function New(value: Obj, error: Obj, isOk: bool): (r: Outcome<Result>)
    ensures r.Raised? <==> isOk && error != None
    ensures r.Raised? ==> r.kind == ValueErrorType
    ensures r.Returned? ==> r.value.Valid() && r.value == Result(value, error, isOk)
  {
    if isOk && error != None then Raised(ValueErrorType) else Returned(Result(value, error, isOk))
  }

  /** `Result.ok(value)`, which the free `ok(value)` returns. */
  function Ok(value: Obj): (r: Result)
    ensures New(value, None, true) == Returned(r)
    ensures r.isOk && !r.IsError() && r.value == value && r.error == None
  {
    New(value, None, true).value
  }

  /** `Result.err(error)`: stores `error` as given, a string included. */
  function Err(error: Obj): (r: Result)
    ensures New(None, error, false) == Returned(r)
    ensures !r.isOk && r.IsError() && r.value == None && r.error == error
  {
    New(None, error, false).value
  }

  /** The free `error(error)`: a string becomes `Exception(error)`, a new object
      whose identity is `newId`, before it reaches `Result.err`. */
  function Error(error: Obj, newId: nat): (r: Result)
    ensures !r.isOk && r.IsError() && r.value == None
    ensures error.Str? ==> r == Err(Exc(ExceptionType, [error], newId))
    ensures !error.Str? ==> r == Err(error)
  {
    Err(if error.Str? then Exc(ExceptionType, [error], newId) else error)
  }

  /** The `is_equal_error` part of `__eq_result__`. Reading `.args` from two errors
      of one class that are not exceptions raises `AttributeError`. */
  function ErrorsMatch(a: Obj, b: Obj): (r: Outcome<bool>)
    ensures r.Raised? <==> a != None && b != None && SameType(a, b) && !a.Exc?
    ensures r.Raised? ==> r.kind == AttributeErrorType
    // a missing error matches only a missing error
    ensures a == None ==> r == Returned(b == None)
    // two exceptions match when they have the same class and equal args, or when
    // they are the same object
    ensures a.Exc? && b.Exc? ==> r == Returned((a.kind == b.kind && ArgsEq(a.args, b.args)) || a.id == b.id)
    ensures a.Exc? && !b.Exc? ==> r == Returned(false)
    // any other error that does not raise matches by `==`
    ensures !a.Exc? && r.Returned? ==> r.value == Eq(a, b)
  {
    if a != None && b != None && SameType(a, b) then
      if !a.Exc? || !b.Exc? then Raised(AttributeErrorType)
      else if ArgsEq(a.args, b.args) then Returned(true)
      else Returned(Eq(a, b))
    else Returned(Eq(a, b))
  }

  /** `self == other`: false for anything that is not a result; otherwise equal
      values and matching errors, whatever `is_ok` says. */
  function Equal(self: Result, other: Operand): (r: Outcome<bool>)
    ensures other.Other? ==> r == Returned(false)
    ensures r == Returned(true) ==> other.AResult? && Eq(self.value, other.result.value)
    ensures other.AResult? && r.Returned? ==>
      && ErrorsMatch(self.error, other.result.error).Returned?
      && (r.value <==> Eq(self.value, other.result.value) && ErrorsMatch(self.error, other.result.error).value)
    ensures other.AResult? ==> (r.Raised? <==> ErrorsMatch(self.error, other.result.error).Raised?)
  {
    match other
    case Other(_) => Returned(false)
    case AResult(o) =>
      var isEqualError := ErrorsMatch(self.error, o.error);
      if isEqualError.Raised? then Raised(isEqualError.kind)
      else Returned(Eq(self.value, o.value) && isEqualError.value)
  }

  /** Equality reads neither result's `is_ok`. */
  lemma EqualIgnoresIsOk(a: Result, b: Result, x: bool, y: bool)
    ensures Equal(a, AResult(b)) == Equal(a.(isOk := x), AResult(b.(isOk := y)))
  {
  }

  /** Equality between results is symmetric, down to the exception it may raise. */
  lemma EqualSymmetric(a: Result, b: Result)
    ensures Equal(a, AResult(b)) == Equal(b, AResult(a))
  {
    EqIsEquivalence(a.value, b.value, a.value, [], []);
    EqIsEquivalence(a.error, b.error, a.error, [], []);
    if a.error.Exc? && b.error.Exc? {
      EqIsEquivalence(a.error, b.error, a.error, a.error.args, b.error.args);
    }
  }

  /** `error(s)` equals `error(Exception(s))`, whatever the identities of the
      exception objects. */
  lemma ErrorFromStringEqualsException(s: string, i: nat, j: nat)
    ensures Equal(Error(Str(s), i), AResult(Error(Exc(ExceptionType, [Str(s)], j), 0))) == Returned(true)
  {
    EqIsEquivalence(Str(s), Str(s), Str(s), [Str(s)], [Str(s)]);
  }

  /** Two results whose errors are strings stored by `Result.err` cannot be
      compared: `==` raises `AttributeError`. */
  lemma ErrStringsRaise(s: string, t: string)
    ensures Equal(Err(Str(s)), AResult(Err(Str(t)))) == Raised(AttributeErrorType)
  {
  }

  /** `Result.err(s)` keeps the string, `error(s)` makes an exception of it: the
      classes differ, so the results are not equal. */
  lemma ErrStringDiffersFromError(s: string, i: nat)
    ensures Equal(Err(Str(s)), AResult(Error(Str(s), i))) == Returned(false)
  {
  }

  /** What the function wrapped by `monadic` does when called. */
  datatype Behaviour = Returns(result: Obj) | Raises(kind: ExcType, args: seq<Obj>, id: nat)

  /** `monadic(func)(*args)`: `ok` of what `func` returns, `error` of the exception
      it raises when that is an `Exception`; any other exception propagates. */
  function Monadic(call: Behaviour): (r: Outcome<Result>)
    ensures call.Returns? ==> r == Returned(Ok(call.result))
    ensures call.Raises? && IsSubclass(call.kind, ExceptionType) ==>
      r.Returned? && r.value.IsError() && r.value.value == None && r.value.error == Exc(call.kind, call.args, call.id)
    ensures call.Raises? && !IsSubclass(call.kind, ExceptionType) ==> r == Raised(call.kind)
  {
    match call
    case Returns(v) => Returned(Ok(v))
    case Raises(kind, args, id) =>
      if IsSubclass(kind, ExceptionType) then Returned(Error(Exc(kind, args, id), 0))
      else Raised(kind)
  }

  /** A caught exception gives a result equal to `error` of any exception of the
      same class with the same args. */
  lemma MonadicRaiseEqualsError(kind: ExcType, args: seq<Obj>, id: nat, other: nat)
    requires IsSubclass(kind, ExceptionType)
    ensures Equal(Monadic(Raises(kind, args, id)).value, AResult(Error(Exc(kind, args, other), 0))) == Returned(true)
  {
    EqIsEquivalence(None, None, None, args, args);
  }
}

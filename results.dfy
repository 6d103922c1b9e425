/**
 * The monadic `Result` container of deepblu/result.py: a value, an error and an
 * `is_ok` flag set once by the constructor, smart constructors, an equality that
 * compares value and error only, and `monadic`, which turns "returns or raises" into
 * an ok or error result.
 *
 * Errors match when the left one is an instance of the right one's class and their
 * `args` are equal, so this equality is not symmetric (see `EqualNotSymmetric`);
 * `ResultPackage` models the later version, which compares classes exactly.
 */
module Results {
  import opened PyObjects

  datatype Result = Result(value: Obj, error: Obj, isOk: bool) {
    /** The constructor's invariant: an ok result carries no error. */
    predicate Valid()
    {
      isOk ==> error == None
    }

    /** `is_error`. */
    predicate IsError()
    {
      !isOk
    }
  }

  /** The right operand of `==`: another result, or any other object. */
  datatype Operand = AResult(result: Result) | Other(obj: Obj)

  /** `Result(value, error, is_ok)`: raises `ValueError` when asked to be ok and
      to carry an error. */
  function New(value: Obj, error: Obj, isOk: bool): (r: Outcome<Result>)
    ensures r.Raised? <==> isOk && error != None
    ensures r.Raised? ==> r.kind == ValueErrorType
    ensures r.Returned? ==> r.value.Valid() && r.value == Result(value, error, isOk)
  {
    if isOk && error != None then Raised(ValueErrorType) else Returned(Result(value, error, isOk))
  }

  /** `Result.ok(value)`, which the free `ok(value)` returns. */
  function Ok(value: Obj): (r: Result)
    ensures New(value, None, true) == Returned(r)
    ensures r.isOk && !r.IsError() && r.value == value && r.error == None
  {
    New(value, None, true).value
  }

  /** `Result.err(error)`, which the free `error(error)` returns: a string becomes
      `Exception(error)`, a new object whose identity is `newId`; anything else is
      stored as given. */
  function Err(error: Obj, newId: nat): (r: Result)
    ensures New(None, r.error, false) == Returned(r)
    ensures !r.isOk && r.IsError() && r.value == None
    ensures error.Str? ==> r.error == Exc(ExceptionType, [error], newId)
    ensures !error.Str? ==> r.error == error
  {
    var exception := if error.Str? then Exc(ExceptionType, [error], newId) else error;
    New(None, exception, false).value
  }

  /** The `is_equal_error` part of `__eq_result__`. Reading `.args` from two true
      errors of one class that are not exceptions raises `AttributeError`. */
  function ErrorsMatch(a: Obj, b: Obj): (r: Outcome<bool>)
    ensures r.Raised? <==> Truthy(a) && Truthy(b) && IsInstanceOfTypeOf(a, b) && !a.Exc?
    ensures r.Raised? ==> r.kind == AttributeErrorType
    // a missing error matches only a missing error
    ensures a == None ==> r == Returned(b == None)
    // two exceptions match when the left is an instance of the right's class with
    // equal args, or when they are the same object
    ensures a.Exc? && b.Exc? ==> r == Returned((IsSubclass(a.kind, b.kind) && ArgsEq(a.args, b.args)) || a.id == b.id)
    ensures a.Exc? && !b.Exc? ==> r == Returned(false)
    // any other error that does not raise matches by `==`
    ensures !a.Exc? && r.Returned? ==> r.value == Eq(a, b)
  {
    if Truthy(a) && Truthy(b) && IsInstanceOfTypeOf(a, b) then
      if !a.Exc? || !b.Exc? then Raised(AttributeErrorType)
      else if ArgsEq(a.args, b.args) then Returned(true)
      else Returned(Eq(a, b))
    else Returned(Eq(a, b))
  }

  /** `self == other`: false for anything that is not a result; otherwise equal
      values and matching errors, whatever `is_ok` says. */
  function Equal(self: Result, other: Operand): (r: Outcome<bool>)
    ensures other.Other? ==> r == Returned(false)
    ensures r == Returned(true) ==> other.AResult? && Eq(self.value, other.result.value)
    ensures other.AResult? && r.Returned? ==>
      && ErrorsMatch(self.error, other.result.error).Returned?
      && (r.value <==> Eq(self.value, other.result.value) && ErrorsMatch(self.error, other.result.error).value)
    ensures other.AResult? ==> (r.Raised? <==> ErrorsMatch(self.error, other.result.error).Raised?)
  {
    match other
    case Other(_) => Returned(false)
    case AResult(o) =>
      var isEqualError := ErrorsMatch(self.error, o.error);
      if isEqualError.Raised? then Raised(isEqualError.kind)
      else Returned(Eq(self.value, o.value) && isEqualError.value)
  }

  /** Equality reads neither result's `is_ok`. */
  lemma EqualIgnoresIsOk(a: Result, b: Result, x: bool, y: bool)
    ensures Equal(a, AResult(b)) == Equal(a.(isOk := x), AResult(b.(isOk := y)))
  {
  }

  /** Results from `ok` are equal exactly when their values are. */
  lemma OkEquality(v: Obj, w: Obj)
    ensures Equal(Ok(v), AResult(Ok(w))) == Returned(Eq(v, w))
  {
  }

  /** `error(s)` equals `error(Exception(s))` (and `error(s)` itself), whatever
      the identities of the exception objects. */
  lemma ErrorFromStringEqualsException(s: string, i: nat, j: nat, k: nat)
    ensures Equal(Err(Str(s), i), AResult(Err(Exc(ExceptionType, [Str(s)], j), k))) == Returned(true)
    ensures Equal(Err(Str(s), i), AResult(Err(Str(s), k))) == Returned(true)
  {
    EqIsEquivalence(Str(s), Str(s), Str(s), [Str(s)], [Str(s)]);
  }

  /** A false error is compared by `==` alone: `error(0) == error(0)`. */
  lemma FalsyErrorsCompareByEq(i: nat, j: nat)
    ensures Equal(Err(Int(0), i), AResult(Err(Int(0), j))) == Returned(true)
  {
  }

  /** Errors built from different messages are not equal. */
  lemma ErrorMessagesDiffer(s: string, t: string, i: nat, j: nat)
    requires s != t && i != j
    ensures Equal(Err(Str(s), i), AResult(Err(Str(t), j))) == Returned(false)
  {
    var a, b := [Str(s)], [Str(t)];
    assert !Eq(a[0], b[0]);
    assert !ArgsEq(a, b);
  }

  /** As written, errors match through `isinstance`, which is not symmetric: a
      `ValueError("x")` result equals an `Exception("x")` result, but not the other
      way round. */
  lemma EqualNotSymmetric()
    ensures var a := Err(Exc(ValueErrorType, [Str("x")], 1), 0);
      var b := Err(Exc(ExceptionType, [Str("x")], 2), 0);
      Equal(a, AResult(b)) == Returned(true) && Equal(b, AResult(a)) == Returned(false)
  {
    var a := Exc(ValueErrorType, [Str("x")], 1);
    var b := Exc(ExceptionType, [Str("x")], 2);
    assert IsSubclass(a.kind, b.kind) && ArgsEq(a.args, b.args);
    assert !IsSubclass(b.kind, a.kind) by {
      assert a.kind.lineage[2] != "Exception";
      assert |b.kind.lineage| < |a.kind.lineage|;
    }
  }

  /** What the function wrapped by `monadic` does when called. */
  datatype Behaviour = Returns(result: Obj) | Raises(kind: ExcType, args: seq<Obj>, id: nat)

  /** `monadic(func)(*args)`: `ok` of what `func` returns, `error` of the exception
      it raises when that is an `Exception`; any other exception propagates. */
  function Monadic(call: Behaviour): (r: Outcome<Result>)
    ensures call.Returns? ==> r == Returned(Ok(call.result))
    ensures call.Raises? && IsSubclass(call.kind, ExceptionType) ==>
      r.Returned? && r.value.IsError() && r.value.value == None && r.value.error == Exc(call.kind, call.args, call.id)
    ensures call.Raises? && !IsSubclass(call.kind, ExceptionType) ==> r == Raised(call.kind)
  {
    match call
    case Returns(v) => Returned(Ok(v))
    case Raises(kind, args, id) =>
      if IsSubclass(kind, ExceptionType) then Returned(Err(Exc(kind, args, id), 0))
      else Raised(kind)
  }

  /** A caught exception gives a result equal to `error` of any exception of the
      same class with the same args. */
  lemma MonadicRaiseEqualsError(kind: ExcType, args: seq<Obj>, id: nat, other: nat, newId: nat)
    requires IsSubclass(kind, ExceptionType)
    ensures Equal(Monadic(Raises(kind, args, id)).value, AResult(Err(Exc(kind, args, other), newId))) == Returned(true)
  {
    EqIsEquivalence(None, None, None, args, args);
  }
}

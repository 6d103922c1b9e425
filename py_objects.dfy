/**
 * The Python values that the `Result` containers hold and compare: `None`, strings,
 * integers and exception objects, with Python's truthiness, `==`, `type(...)` and
 * `isinstance` on them.
 */
module PyObjects {

  /** An exception class, given by its single-inheritance chain of class names from
      `BaseException` down to the class itself. Only chains that start at
      `"BaseException"` describe Python exception classes, and only such chains
      occur in this model's statements. */
  datatype ExcType = ExcType(lineage: seq<string>)

  const BaseExceptionType := ExcType(["BaseException"])
  const ExceptionType := ExcType(["BaseException", "Exception"])
  const ValueErrorType := ExcType(["BaseException", "Exception", "ValueError"])
  const AttributeErrorType := ExcType(["BaseException", "Exception", "AttributeError"])

  /** `issubclass(t, base)`. */
  predicate IsSubclass(t: ExcType, base: ExcType)
  {
    base.lineage <= t.lineage
  }

  /** A Python object. An exception has a class, its `args` tuple and an identity:
      two exception objects are `==` only when they are the same object. Distinct
      `id`s stand for distinct objects, so a newly created exception takes an `id`
      no other object has; the `id` says nothing about the class or the `args`. */
  datatype Obj = None | Str(s: string) | Int(i: int) | Exc(kind: ExcType, args: seq<Obj>, id: nat)

  /** `bool(o)`: exceptions define neither `__bool__` nor `__len__`, so they are
      always true. */
  predicate Truthy(o: Obj)
  {
    match o
    case None => false
    case Str(s) => s != ""
    case Int(i) => i != 0
    case Exc(_, _, _) => true
  }

  /** `a == b`. */
  predicate Eq(a: Obj, b: Obj)
  {
    match (a, b)
    case (None, None) => true
    case (Str(s), Str(t)) => s == t
    case (Int(i), Int(j)) => i == j
    case (Exc(_, _, x), Exc(_, _, y)) => x == y
    case _ => false
  }

  /** `xs == ys` on two `args` tuples: element-wise `==`. */
  predicate ArgsEq(xs: seq<Obj>, ys: seq<Obj>)
  {
    |xs| == |ys| && forall i :: 0 <= i < |xs| ==> Eq(xs[i], ys[i])
  }

  /** `type(a) is type(b)`. */
  predicate SameType(a: Obj, b: Obj)
  {
    match (a, b)
    case (None, None) => true
    case (Str(_), Str(_)) => true
    case (Int(_), Int(_)) => true
    case (Exc(k, _, _), Exc(l, _, _)) => k == l
    case _ => false
  }

  /** `isinstance(a, type(b))`. */
  predicate IsInstanceOfTypeOf(a: Obj, b: Obj)
  {
    match (a, b)
    case (None, None) => true
    case (Str(_), Str(_)) => true
    case (Int(_), Int(_)) => true
    case (Exc(k, _, _), Exc(l, _, _)) => IsSubclass(k, l)
    case _ => false
  }

  /** `==` is an equivalence on these objects; so is `==` on `args` tuples. */
  lemma EqIsEquivalence(a: Obj, b: Obj, c: Obj, xs: seq<Obj>, ys: seq<Obj>)
    ensures Eq(a, a) && (Eq(a, b) <==> Eq(b, a)) && (Eq(a, b) && Eq(b, c) ==> Eq(a, c))
    ensures ArgsEq(xs, xs) && (ArgsEq(xs, ys) <==> ArgsEq(ys, xs))
  {
  }

  /** An operation that either returns a value or raises an exception of a class. */
  datatype Outcome<T> = Returned(value: T) | Raised(kind: ExcType)
}

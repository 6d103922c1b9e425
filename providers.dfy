/**
 * Vocabulary shared by both provider registries of the dependency-injection
 * container: providers (interface keys and factories), the objects that calling a
 * factory produces, the entries that `bind_all` accepts, and the callables that
 * `inject` wraps.
 *
 * Python uses the same callables as interface keys and as factories (`add(p)` binds
 * `p` to itself), so one type, `Provider`, stands for both.
 */
module Providers {

  /** A callable used as an interface key or as a factory. `Plain(id)` is an opaque
      class or function; `Many(impls)` is the aggregating factory that
      `provide_many` builds, which calls each of `impls` in order. */
  datatype Provider = Plain(id: nat) | Many(impls: seq<Provider>)

  /** What calling a factory yields: `Object(maker, serial)` is the object created by
      the plain factory `maker` as the `serial`-th object of the run; `Items(items)` is
      the list built by a `Many` factory. */
  datatype Value = Object(maker: nat, serial: nat) | Items(items: seq<Value>)

  /** Outcome of a dictionary lookup: the value, or Python's `KeyError` for the key. */
  datatype Lookup<T> = Found(value: T) | KeyError(key: Provider)

  datatype Option<T> = None | Some(value: T)

  /** Every object in `v` was created with a serial in `[lo, hi)`. */
  predicate Within(v: Value, lo: nat, hi: nat)
  {
    match v
    case Object(_, s) => lo <= s < hi
    case Items(vs) => forall i :: 0 <= i < |vs| ==> Within(vs[i], lo, hi)
  }

  lemma {:induction false} WithinWiden(v: Value, lo: nat, hi: nat, lo': nat, hi': nat)
    requires Within(v, lo, hi) && lo' <= lo && hi <= hi'
    ensures Within(v, lo', hi')
    decreases v
  {
    match v
    case Object(_, _) =>
    case Items(vs) =>
      forall i | 0 <= i < |vs| ensures Within(vs[i], lo', hi') {
        WithinWiden(vs[i], lo, hi, lo', hi');
      }
  }

  /** Calling factory `f` when the next unused serial is `next`: the value produced
      and the next unused serial afterwards. A plain factory creates exactly one new
      object; a `Many` factory is the list comprehension
      `[provider() for provider in impls]`. */
  function Invoke(f: Provider, next: nat): (r: (Value, nat))
    ensures next <= r.1
    ensures Within(r.0, next, r.1)
    ensures f.Plain? ==> r.0.Object? && r.0.maker == f.id && r.1 == next + 1
    ensures f.Many? ==> r.0.Items? && |r.0.items| == |f.impls|
    decreases f, 1
  {
    match f
    case Plain(id) => (Object(id, next), next + 1)
    case Many(fs) =>
      var (vs, n) := InvokeEach(fs, next);
      (Items(vs), n)
  }

  /** Calls the factories of `fs` one after the other, left to right. */
  function InvokeEach(fs: seq<Provider>, next: nat): (r: (seq<Value>, nat))
    ensures next <= r.1 && |r.0| == |fs|
    ensures forall i :: 0 <= i < |fs| ==> Within(r.0[i], next, r.1)
    decreases fs, 0
  {
    if fs == [] then ([], next)
    else
      var (v, n) := Invoke(fs[0], next);
      var (vs, m) := InvokeEach(fs[1..], n);
      WithinWiden(v, next, n, next, m);
      assert forall i :: 0 <= i < |vs| ==> Within(vs[i], next, m) by {
        forall i | 0 <= i < |vs| ensures Within(vs[i], next, m) {
          WithinWiden(vs[i], n, m, next, m);
        }
      }
      ([v] + vs, m)
  }

  /** Calling the factories of `fs + gs` is calling those of `fs`, then those of
      `gs` from where the first calls left the supply. */
  lemma {:induction false} InvokeEachAppend(fs: seq<Provider>, gs: seq<Provider>, next: nat)
    ensures InvokeEach(fs + gs, next).0 == InvokeEach(fs, next).0 + InvokeEach(gs, InvokeEach(fs, next).1).0
    ensures InvokeEach(fs + gs, next).1 == InvokeEach(gs, InvokeEach(fs, next).1).1
    decreases fs
  {
    if fs == [] {
      assert fs + gs == gs;
    } else {
      assert (fs + gs)[1..] == fs[1..] + gs;
      InvokeEachAppend(fs[1..], gs, Invoke(fs[0], next).1);
    }
  }

  /** `provide_many(interface, impls)`: the pair binding `interface` to a factory
      that lists the results of calling each of `impls`. */
  function ProvideMany(interface: Provider, impls: seq<Provider>): (e: Entry)
    ensures e.Key() == interface
    ensures forall next: nat :: Invoke(e.Impl(), next).0.Items? && |Invoke(e.Impl(), next).0.items| == |impls|
  {
    Pair(interface, Many(impls))
  }

  /** The list produced by `provide_many`'s factory holds, at position `i`, the
      result of calling `impls[i]` right after the calls of `impls[..i]`: each
      factory is called once, in list order. */
  lemma {:induction false} ProvideManyInOrder(interface: Provider, impls: seq<Provider>, next: nat, i: nat)
    requires i < |impls|
    ensures var items := Invoke(ProvideMany(interface, impls).Impl(), next).0.items;
      |items| == |impls| &&
      items[i] == Invoke(impls[i], InvokeEach(impls[..i], next).1).0
  {
    assert impls == impls[..i] + impls[i..];
    InvokeEachAppend(impls[..i], impls[i..], next);
  }

  /** An argument of `bind_all`: a pair `(interface, impl)`, or a bare provider
      that is bound to itself. */
  datatype Entry = Pair(interface: Provider, impl: Provider) | Bare(provider: Provider) {
    function Key(): Provider {
      if Pair? then interface else provider
    }
    function Impl(): Provider {
      if Pair? then impl else provider
    }
  }

  /** The bindings after binding each entry of `es`, left to right, starting from
      `b`: each `bind` overwrites the key's factory. */
  function Bound(b: map<Provider, Provider>, es: seq<Entry>): map<Provider, Provider>
    decreases |es|
  {
    if es == [] then b
    else
      var last := es[|es| - 1];
      Bound(b, es[..|es| - 1])[last.Key() := last.Impl()]
  }

  /** After `bind_all`, a key is bound exactly when it was bound before or some
      entry names it: no binding is ever removed. */
  lemma {:induction false} BoundKeys(b: map<Provider, Provider>, es: seq<Entry>, k: Provider)
    ensures k in Bound(b, es) <==> k in b || exists i :: 0 <= i < |es| && es[i].Key() == k
    decreases |es|
  {
    if es != [] {
      var n := |es| - 1;
      BoundKeys(b, es[..n], k);
      if exists i :: 0 <= i < n && es[..n][i].Key() == k {
        var i :| 0 <= i < n && es[..n][i].Key() == k;
        assert es[i].Key() == k;
      }
      if exists i :: 0 <= i < |es| && es[i].Key() == k {
        var i :| 0 <= i < |es| && es[i].Key() == k;
        if i < n { assert es[..n][i].Key() == k; }
      }
    }
  }

  /** The last entry for a key wins: its factory is the key's binding afterwards. */
  lemma {:induction false} BoundLastWins(b: map<Provider, Provider>, es: seq<Entry>, i: nat)
    requires i < |es|
    requires forall j :: i < j < |es| ==> es[j].Key() != es[i].Key()
    ensures es[i].Key() in Bound(b, es) && Bound(b, es)[es[i].Key()] == es[i].Impl()
    decreases |es|
  {
    var n := |es| - 1;
    if i < n {
      forall j | i < j < n ensures es[..n][j].Key() != es[..n][i].Key() {
        assert es[..n][j] == es[j];
      }
      BoundLastWins(b, es[..n], i);
      assert es[..n][i] == es[i];
    }
  }

  /** A key that no entry names keeps the factory it had. */
  lemma {:induction false} BoundUntouched(b: map<Provider, Provider>, es: seq<Entry>, k: Provider)
    requires k in b
    requires forall i :: 0 <= i < |es| ==> es[i].Key() != k
    ensures k in Bound(b, es) && Bound(b, es)[k] == b[k]
    decreases |es|
  {
    if es != [] {
      var n := |es| - 1;
      forall i | 0 <= i < n ensures es[..n][i].Key() != k {
        assert es[..n][i] == es[i];
      }
      BoundUntouched(b, es[..n], k);
    }
  }

  /** The pairs-only form of `bind_all` in the package's `__init__`. */
  function PairEntries(pairs: seq<(Provider, Provider)>): (es: seq<Entry>)
    ensures |es| == |pairs|
    ensures forall i :: 0 <= i < |pairs| ==> es[i].Key() == pairs[i].0 && es[i].Impl() == pairs[i].1
  {
    seq(|pairs|, i requires 0 <= i < |pairs| => Pair(pairs[i].0, pairs[i].1))
  }

  /** A parameter of a wrapped callable: its name and its annotation. */
  type Parameter = (string, Provider)

  /** The entries of `annotations` for the parameter (or return) called `name`. */
  function Named(annotations: seq<Parameter>, name: string): (ps: seq<Parameter>)
    ensures forall p :: p in ps <==> p in annotations && p.0 == name
  {
    if annotations == [] then []
    else (if annotations[0].0 == name then [annotations[0]] else []) + Named(annotations[1..], name)
  }

  /** A Python callable as `inject` sees it: a definition, given by the annotations
      that `inspect.getfullargspec` reports for it (in that order), or the wrapper
      that `inject` returns around a callable. */
  datatype Callable = Def(annotations: seq<Parameter>) | Injecting(wrapped: Callable) {
    /** `__annotations__`: `functools.wraps` gives a wrapper the wrapped callable's. */
    function Declared(): seq<Parameter> {
      match this
      case Def(ps) => ps
      case Injecting(f) => f.Declared()
    }

    /** `inspect.getfullargspec(self).annotations`. It does not follow `__wrapped__`,
        so for a wrapper it reads the wrapper's own signature `(*args, **kwargs)`:
        the return annotation and those of `args` and `kwargs`, looked up by name in
        the copied `__annotations__`. */
    function Annotations(): seq<Parameter> {
      match this
      case Def(ps) => ps
      case Injecting(f) => Named(f.Declared(), "return") + Named(f.Declared(), "args") + Named(f.Declared(), "kwargs")
    }
  }

  /** The arguments with which a wrapper finally calls the wrapped callable. */
  datatype Invocation = Invocation(callee: Callable, args: seq<Value>, kwargs: map<string, Value>)

  /** A class whose initializer `injectable` may replace. */
  class ClassObject {
    var init: Callable
    constructor (init: Callable)
      ensures this.init == init
    {
      this.init := init;
    }
  }

  /** The source of fresh objects: every factory call draws its objects' serials
      from `next`, so the number of serials drawn counts the factory calls. */
  class Supply {
    var next: nat

    constructor ()
      ensures next == 0
    {
      next := 0;
    }

    /** `f()`. */
    method Call(f: Provider) returns (v: Value)
      modifies this
      ensures (v, next) == Invoke(f, old(next))
    {
      var r := Invoke(f, next);
      v, next := r.0, r.1;
    }
  }
}

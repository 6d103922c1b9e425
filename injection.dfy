/**
 * The free functions over the non-memoizing registry (deepblu/di/injection.py).
 *
 * Here `get` returns the bound factory, and the `inject` wrapper calls the bound
 * factory afresh for every parameter it fills, on every call: nothing is cached.
 * The module-level `registry` is an explicit argument.
 */
module Injection {
  import opened Providers
  import Registry

  /** `bind(interface, impl)`: `registry[interface] = impl`. */
  method Bind(registry: Registry.ProviderRegistry, interface: Provider, impl: Provider)
    modifies registry
    ensures registry.bindings == old(registry.bindings)[interface := impl]
  {
    var _ := registry.SetItem(interface, impl);
  }

  /** `add(provider)`: binds the provider to itself. */
  method Add(registry: Registry.ProviderRegistry, provider: Provider)
    modifies registry
    ensures registry.bindings == old(registry.bindings)[provider := provider]
  {
    Bind(registry, provider, provider);
  }

  /** `bind_all(*providers)`: binds each entry in order, a pair to its factory and a
      bare provider to itself. */
  method BindAll(registry: Registry.ProviderRegistry, providers: seq<Entry>)
    modifies registry
    ensures registry.bindings == Bound(old(registry.bindings), providers)
  {
    var i := 0;
    while i < |providers|
      invariant 0 <= i <= |providers|
      invariant registry.bindings == Bound(old(registry.bindings), providers[..i])
    {
      var interface, impl;
      match providers[i] {
        case Pair(k, f) => interface, impl := k, f;
        case Bare(p) => interface, impl := p, p;
      }
      Bind(registry, interface, impl);
      assert providers[..i + 1][..i] == providers[..i];
      i := i + 1;
    }
    assert providers[..i] == providers;
  }

  /** `get(interface)`: `registry[interface]`, the bound factory itself, or
      `KeyError` when `interface` is unbound. */
  method Get(registry: Registry.ProviderRegistry, interface: Provider) returns (r: Lookup<Provider>)
    ensures r.Found? <==> interface in registry.bindings
    ensures r.Found? ==> r.value == registry.bindings[interface]
    ensures r.KeyError? ==> r.key == interface
  {
    r := registry.GetItem(interface);
  }

  /** The keyword arguments after injection, with the supply. */
  datatype FreshInjection = FreshInjection(kwargs: map<string, Value>, next: nat)

  /** The wrapper's loop over the annotations of `params`, in order: a parameter
      whose annotation is bound and whose name is not yet a keyword argument
      receives `registry.bindings[annotation]()`, a new call of the factory. */
  function InjectedFresh(b: map<Provider, Provider>, next: nat, params: seq<Parameter>,
                         kwargs: map<string, Value>): FreshInjection
    decreases |params|
  {
    if params == [] then FreshInjection(kwargs, next)
    else
      var o := InjectedFresh(b, next, params[..|params| - 1], kwargs);
      var (name, annotation) := params[|params| - 1];
      if annotation in b && name !in o.kwargs then
        var (v, n) := Invoke(b[annotation], o.next);
        FreshInjection(o.kwargs[name := v], n)
      else o
  }

  /** What injection promises: the caller's keyword arguments are kept as given;
      exactly the names of parameters with a bound annotation are added; every added
      argument consists of objects created during this injection. */
  lemma {:induction false} InjectedFreshFacts(b: map<Provider, Provider>, next: nat, params: seq<Parameter>,
                                              kwargs: map<string, Value>)
    ensures var o := InjectedFresh(b, next, params, kwargs);
      && next <= o.next
      && (forall n :: n in kwargs ==> n in o.kwargs && o.kwargs[n] == kwargs[n])
      && (forall n :: n in o.kwargs <==> n in kwargs || exists i :: 0 <= i < |params| && params[i].0 == n && params[i].1 in b)
      && (forall n :: n in o.kwargs && n !in kwargs ==> Within(o.kwargs[n], next, o.next))
    decreases |params|
  {
    if params != [] {
      var last := |params| - 1;
      var init := params[..last];
      InjectedFreshFacts(b, next, init, kwargs);
      var o := InjectedFresh(b, next, init, kwargs);
      var (name, annotation) := params[last];
      assert forall i :: 0 <= i < last ==> params[i] == init[i];
      if annotation in b && name !in o.kwargs {
        var (v, n) := Invoke(b[annotation], o.next);
        forall k | k in o.kwargs && k !in kwargs ensures Within(o.kwargs[k], next, n) {
          WithinWiden(o.kwargs[k], next, o.next, next, n);
        }
        WithinWiden(v, o.next, n, next, n);
      }
    }
  }

  /** Each injected argument is the result of calling, during this injection, the
      factory bound to the annotation of a parameter with that name. */
  lemma {:induction false} InjectedFreshOrigin(b: map<Provider, Provider>, next: nat, params: seq<Parameter>,
                                               kwargs: map<string, Value>, name: string) returns (i: nat, m: nat)
    requires name !in kwargs && name in InjectedFresh(b, next, params, kwargs).kwargs
    ensures i < |params| && params[i].0 == name && params[i].1 in b && next <= m
    ensures InjectedFresh(b, next, params, kwargs).kwargs[name] == Invoke(b[params[i].1], m).0
    decreases |params|
  {
    var last := |params| - 1;
    var init := params[..last];
    var o := InjectedFresh(b, next, init, kwargs);
    InjectedFreshFacts(b, next, init, kwargs);
    var (n, annotation) := params[last];
    if annotation in b && n !in o.kwargs && n == name {
      i, m := last, o.next;
    } else {
      i, m := InjectedFreshOrigin(b, next, init, kwargs, name);
      assert params[i] == init[i];
    }
  }

  /** Two calls of an injected function with the same keyword arguments receive
      different objects for every injected parameter whose factory creates an
      object: each call invokes the factory again. */
  lemma TwoInjectionsDiffer(b: map<Provider, Provider>, next: nat, params: seq<Parameter>,
                            kwargs: map<string, Value>, name: string)
    requires name !in kwargs
    requires name in InjectedFresh(b, next, params, kwargs).kwargs
    requires InjectedFresh(b, next, params, kwargs).kwargs[name].Object?
    ensures var o1 := InjectedFresh(b, next, params, kwargs);
      var o2 := InjectedFresh(b, o1.next, params, kwargs);
      name in o2.kwargs && o2.kwargs[name] != o1.kwargs[name]
  {
    var o1 := InjectedFresh(b, next, params, kwargs);
    InjectedFreshFacts(b, next, params, kwargs);
    InjectedFreshFacts(b, o1.next, params, kwargs);
  }

  /** `inject(func)`: the wrapper around `func`. */
  function Inject(func: Callable): (wrapper: Callable)
    ensures wrapper.Injecting? && wrapper.wrapped == func
    // `functools.wraps` copies `__annotations__`, yet the wrapper's own signature
    // shows only the `return`, `args` and `kwargs` entries to `getfullargspec`
    ensures wrapper.Declared() == func.Declared()
    ensures forall p :: p in wrapper.Annotations() <==>
      p in func.Declared() && (p.0 == "return" || p.0 == "args" || p.0 == "kwargs")
  {
    Injecting(func)
  }

  /** Parameters whose annotations are all unbound receive nothing: the keyword
      arguments and the supply stay as they are. */
  lemma {:induction false} InjectedFreshNothingBound(b: map<Provider, Provider>, next: nat, params: seq<Parameter>,
                                                     kwargs: map<string, Value>)
    requires forall i :: 0 <= i < |params| ==> params[i].1 !in b
    ensures InjectedFresh(b, next, params, kwargs) == FreshInjection(kwargs, next)
    decreases |params|
  {
    if params != [] {
      var m := |params| - 1;
      assert forall i :: 0 <= i < m ==> params[..m][i] == params[i];
      InjectedFreshNothingBound(b, next, params[..m], kwargs);
    }
  }

  /** A wrapper around a callable, for instance `injectable` applied to an
      initializer that `inject` already wraps: unless a `return`, `args` or `kwargs`
      annotation is bound, the wrapper passes the keyword arguments on unchanged and
      calls no factory, so only the innermost wrapper injects. */
  lemma WrapperPassesKeywordsThrough(b: map<Provider, Provider>, next: nat, func: Callable,
                                     kwargs: map<string, Value>)
    requires forall p :: p in func.Declared() && (p.0 == "return" || p.0 == "args" || p.0 == "kwargs") ==> p.1 !in b
    ensures InjectedFresh(b, next, Inject(func).Annotations(), kwargs) == FreshInjection(kwargs, next)
  {
    var ps := Inject(func).Annotations();
    forall i | 0 <= i < |ps| ensures ps[i].1 !in b {
      assert ps[i] in ps;
    }
    InjectedFreshNothingBound(b, next, ps, kwargs);
  }

  /** `getfullargspec` lists the return annotation too: when it is bound and the
      caller did not pass `return`, the wrapper calls its factory and passes the
      object on as the keyword argument `return`, which a callee without
      `**kwargs` rejects with `TypeError`. */
  lemma ReturnAnnotationInjected(b: map<Provider, Provider>, next: nat, params: seq<Parameter>,
                                 kwargs: map<string, Value>, i: nat)
    requires i < |params| && params[i].0 == "return" && params[i].1 in b && "return" !in kwargs
    ensures "return" in InjectedFresh(b, next, params, kwargs).kwargs
  {
    InjectedFreshFacts(b, next, params, kwargs);
  }

  /** Calling `inject(func)(*args, **kwargs)`: the wrapper fills the keyword
      arguments with fresh factory results, then calls `func` with the positional
      arguments unchanged. The registry is only read. */
  method CallInjected(registry: Registry.ProviderRegistry, supply: Supply, func: Callable,
                      args: seq<Value>, kwargs: map<string, Value>) returns (call: Invocation)
    modifies supply
    ensures call.callee == func && call.args == args
    ensures FreshInjection(call.kwargs, supply.next) ==
      InjectedFresh(registry.bindings, old(supply.next), func.Annotations(), kwargs)
  {
    var annotations := func.Annotations();
    var kw := kwargs;
    var i := 0;
    while i < |annotations|
      invariant 0 <= i <= |annotations|
      invariant FreshInjection(kw, supply.next) ==
        InjectedFresh(registry.bindings, old(supply.next), annotations[..i], kwargs)
    {
      var (interface, impl) := annotations[i];
      assert annotations[..i + 1][..i] == annotations[..i];
      if impl in registry.bindings && interface !in kw {
        var instance := supply.Call(registry.bindings[impl]);
        kw := kw[interface := instance];
      }
      i := i + 1;
    }
    assert annotations[..i] == annotations;
    call := Invocation(func, args, kw);
  }

  /** `injectable(cls)`: replaces the class's initializer by `inject(__init__)` and
      returns the same class. */
  method Injectable(cls: ClassObject) returns (r: ClassObject)
    modifies cls
    ensures r == cls && cls.init == Inject(old(cls.init))
  {
    cls.init := Inject(cls.init);
    r := cls;
  }
}

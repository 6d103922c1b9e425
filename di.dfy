/**
 * The memoizing provider registry and its free functions (deepblu/di.py).
 *
 * `get` resolves an interface once: the first call invokes the bound factory and
 * caches the object in `instances`; later calls return the cached object without
 * calling any factory. The process-wide `registry` of the source is an explicit
 * `ProviderRegistry` argument of the free functions, and every factory call draws its
 * objects from a `Supply`.
 */
module Di {
  import opened Providers

  /** The result of one `get`, with the instance cache and the supply afterwards. */
  datatype Resolution = Resolution(result: Lookup<Value>, instances: map<Provider, Value>, next: nat)

  /** `ProviderRegistry.get(k)` on bindings `b`, cache `instances` and supply
      position `next`. */
  function Resolve(b: map<Provider, Provider>, instances: map<Provider, Value>, next: nat, k: Provider): (o: Resolution)
    ensures o.result.Found? <==> k in instances || k in b
    // a cache hit calls no factory and changes nothing
    ensures k in instances ==> o == Resolution(Found(instances[k]), instances, next)
    // a miss on a bound key calls the bound factory exactly once and caches its object
    ensures k !in instances && k in b ==>
      (o.result.value, o.next) == Invoke(b[k], next) && o.instances == instances[k := o.result.value]
    // an unbound, uncached key raises KeyError and changes nothing
    ensures o.result.KeyError? ==> o.result.key == k && o.instances == instances && o.next == next
  {
    if k in instances then Resolution(Found(instances[k]), instances, next)
    else if k in b then
      var (v, n) := Invoke(b[k], next);
      Resolution(Found(v), instances[k := v], n)
    else Resolution(KeyError(k), instances, next)
  }

  /** Resolving never evicts or replaces a cached object, keeps the cache keys among
      the bound keys, and leaves the resolved object in the cache. */
  lemma ResolveKeepsCache(b: map<Provider, Provider>, instances: map<Provider, Value>, next: nat, k: Provider)
    requires instances.Keys <= b.Keys
    ensures var o := Resolve(b, instances, next, k);
      && o.instances.Keys <= b.Keys
      && (forall j :: j in instances ==> j in o.instances && o.instances[j] == instances[j])
      && (o.result.Found? ==> k in o.instances && o.instances[k] == o.result.value)
      && next <= o.next
  {
  }

  /** Resolving a key twice yields the same object, and the second resolution calls
      no factory: singleton-per-key semantics. */
  lemma ResolveTwiceSame(b: map<Provider, Provider>, instances: map<Provider, Value>, next: nat, k: Provider)
    requires k in b
    ensures var o1 := Resolve(b, instances, next, k);
      var o2 := Resolve(b, o1.instances, o1.next, k);
      o2 == Resolution(o1.result, o1.instances, o1.next)
  {
  }

  /** Rebinding a key that is already resolved does not evict its cached object:
      `get` keeps returning the old object, and calls no factory. */
  lemma RebindKeepsInstance(b: map<Provider, Provider>, instances: map<Provider, Value>, next: nat, k: Provider, f: Provider)
    requires k in instances
    ensures Resolve(b[k := f], instances, next, k) == Resolution(Found(instances[k]), instances, next)
  {
  }

  class ProviderRegistry {
    var bindings: map<Provider, Provider>
    var instances: map<Provider, Value>

    /** Only `get` fills the cache, and only for keys it found bound; nothing ever
        removes a binding. */
    ghost predicate Valid()
      reads this
    {
      instances.Keys <= bindings.Keys
    }

    constructor ()
      ensures Valid() && bindings == map[] && instances == map[]
    {
      bindings := map[];
      instances := map[];
    }

    /** Binds `interface` to `impl`, overwriting any earlier factory; returns the
        registry itself. */
    method Bind(interface: Provider, impl: Provider) returns (self: ProviderRegistry)
      requires Valid()
      modifies this
      ensures Valid() && self == this
      ensures bindings == old(bindings)[interface := impl]
      ensures instances == old(instances)
    {
      bindings := bindings[interface := impl];
      self := this;
    }

    /** `registry[interface] = impl`. */
    method SetItem(interface: Provider, impl: Provider) returns (self: ProviderRegistry)
      requires Valid()
      modifies this
      ensures Valid() && self == this
      ensures bindings == old(bindings)[interface := impl]
      ensures instances == old(instances)
    {
      self := Bind(interface, impl);
    }

    /** The object for `interface`: the cached one, or a new one from the bound
        factory, which is then cached. */
    method Get(interface: Provider, supply: Supply) returns (r: Lookup<Value>)
      requires Valid()
      modifies this, supply
      ensures Valid() && bindings == old(bindings)
      ensures Resolution(r, instances, supply.next) == Resolve(old(bindings), old(instances), old(supply.next), interface)
    {
      var instance: Value;
      if interface in instances {
        instance := instances[interface];
      } else if interface in bindings {
        instance := supply.Call(bindings[interface]);
      } else {
        return KeyError(interface);
      }
      instances := instances[interface := instance];
      r := Found(instance);
    }

    /** `registry[interface]`. */
    method GetItem(interface: Provider, supply: Supply) returns (r: Lookup<Value>)
      requires Valid()
      modifies this, supply
      ensures Valid() && bindings == old(bindings)
      ensures Resolution(r, instances, supply.next) == Resolve(old(bindings), old(instances), old(supply.next), interface)
    {
      r := Get(interface, supply);
    }

    /** The `bindings` property: the current interface-to-factory map. */
    function Bindings(): (m: map<Provider, Provider>)
      reads this
      ensures m == bindings
    {
      bindings
    }
  }

  /** `bind(interface, impl)` on the registry. */
  method Bind(registry: ProviderRegistry, interface: Provider, impl: Provider)
    requires registry.Valid()
    modifies registry
    ensures registry.Valid()
    ensures registry.bindings == old(registry.bindings)[interface := impl]
    ensures registry.instances == old(registry.instances)
  {
    var _ := registry.SetItem(interface, impl);
  }

  /** `add(provider)`: binds the provider to itself. */
  method Add(registry: ProviderRegistry, provider: Provider)
    requires registry.Valid()
    modifies registry
    ensures registry.Valid()
    ensures registry.bindings == old(registry.bindings)[provider := provider]
    ensures registry.instances == old(registry.instances)
  {
    Bind(registry, provider, provider);
  }

  /** `bind_all(*providers)`: binds each entry in order, a pair to its factory and a
      bare provider to itself. */
  method BindAll(registry: ProviderRegistry, providers: seq<Entry>)
    requires registry.Valid()
    modifies registry
    ensures registry.Valid()
    ensures registry.bindings == Bound(old(registry.bindings), providers)
    ensures registry.instances == old(registry.instances)
  {
    var i := 0;
    while i < |providers|
      invariant 0 <= i <= |providers|
      invariant registry.Valid()
      invariant registry.bindings == Bound(old(registry.bindings), providers[..i])
      invariant registry.instances == old(registry.instances)
    {
      var interface, impl;
      match providers[i] {
        case Pair(k, f) => interface, impl := k, f;
        case Bare(p) => interface, impl := p, p;
      }
      Bind(registry, interface, impl);
      assert providers[..i + 1][..i] == providers[..i];
      i := i + 1;
    }
    assert providers[..i] == providers;
  }

  /** `get(interface)` on the registry. */
  method Get(registry: ProviderRegistry, supply: Supply, interface: Provider) returns (r: Lookup<Value>)
    requires registry.Valid()
    modifies registry, supply
    ensures registry.Valid() && registry.bindings == old(registry.bindings)
    ensures Resolution(r, registry.instances, supply.next) ==
      Resolve(old(registry.bindings), old(registry.instances), old(supply.next), interface)
  {
    r := registry.GetItem(interface, supply);
  }

  /** The keyword arguments after injection, with the cache and the supply. */
  datatype Injection = Injection(kwargs: map<string, Value>, instances: map<Provider, Value>, next: nat)

  /** The wrapper's loop over the annotations of `params`, in order: a parameter
      whose annotation is bound and whose name is not yet a keyword argument
      receives `registry[annotation]`, resolved through the memoizing `get`. */
  function Injected(b: map<Provider, Provider>, instances: map<Provider, Value>, next: nat,
                    params: seq<Parameter>, kwargs: map<string, Value>): Injection
    decreases |params|
  {
    if params == [] then Injection(kwargs, instances, next)
    else
      var o := Injected(b, instances, next, params[..|params| - 1], kwargs);
      var (name, annotation) := params[|params| - 1];
      if annotation in b && name !in o.kwargs then
        var res := Resolve(b, o.instances, o.next, annotation);
        Injection(o.kwargs[name := res.result.value], res.instances, res.next)
      else o
  }

  /** What injection promises: the caller's keyword arguments are kept as given;
      exactly the names of parameters with a bound annotation are added; each added
      argument is the registry's cached object for the parameter's annotation; the
      cache only grows and stays within the bound keys. */
  lemma {:induction false} InjectedFacts(b: map<Provider, Provider>, instances: map<Provider, Value>, next: nat,
                                         params: seq<Parameter>, kwargs: map<string, Value>)
    requires instances.Keys <= b.Keys
    ensures var o := Injected(b, instances, next, params, kwargs);
      && o.instances.Keys <= b.Keys
      && (forall k :: k in instances ==> k in o.instances && o.instances[k] == instances[k])
      && next <= o.next
      && (forall n :: n in kwargs ==> n in o.kwargs && o.kwargs[n] == kwargs[n])
      && (forall n :: n in o.kwargs <==> n in kwargs || exists i :: 0 <= i < |params| && params[i].0 == n && params[i].1 in b)
      && (forall n :: n in o.kwargs && n !in kwargs ==>
            exists i :: 0 <= i < |params| && params[i].0 == n && params[i].1 in o.instances &&
                        o.kwargs[n] == o.instances[params[i].1])
    decreases |params|
  {
    if params != [] {
      var m := |params| - 1;
      var init := params[..m];
      InjectedFacts(b, instances, next, init, kwargs);
      var o := Injected(b, instances, next, init, kwargs);
      var (name, annotation) := params[m];
      assert forall i :: 0 <= i < m ==> params[i] == init[i];
      if annotation in b && name !in o.kwargs {
        ResolveKeepsCache(b, o.instances, o.next, annotation);
      }
    }
  }

  /** Once every bound annotation resolved by one injection is cached (in a cache
      `cache` that extends the one the injection left), injecting again with the same
      keyword arguments injects the very same objects and calls no factory. */
  lemma {:induction false} InjectionFromCache(b: map<Provider, Provider>, instances: map<Provider, Value>, next: nat,
                                              params: seq<Parameter>, kwargs: map<string, Value>,
                                              cache: map<Provider, Value>, next': nat)
    requires instances.Keys <= b.Keys
    requires var o := Injected(b, instances, next, params, kwargs);
      forall k :: k in o.instances ==> k in cache && cache[k] == o.instances[k]
    ensures Injected(b, cache, next', params, kwargs) ==
      Injection(Injected(b, instances, next, params, kwargs).kwargs, cache, next')
    decreases |params|
  {
    if params != [] {
      var m := |params| - 1;
      var init := params[..m];
      var o := Injected(b, instances, next, init, kwargs);
      var (name, annotation) := params[m];
      InjectedFacts(b, instances, next, init, kwargs);
      if annotation in b && name !in o.kwargs {
        ResolveKeepsCache(b, o.instances, o.next, annotation);
      }
      InjectionFromCache(b, instances, next, init, kwargs, cache, next');
    }
  }

  /** Two calls of an injected function with the same keyword arguments receive
      the same objects, and the second call invokes no factory. */
  lemma ReinjectionReusesObjects(b: map<Provider, Provider>, instances: map<Provider, Value>, next: nat,
                                 params: seq<Parameter>, kwargs: map<string, Value>)
    requires instances.Keys <= b.Keys
    ensures var o1 := Injected(b, instances, next, params, kwargs);
      Injected(b, o1.instances, o1.next, params, kwargs) == o1
  {
    var o1 := Injected(b, instances, next, params, kwargs);
    InjectionFromCache(b, instances, next, params, kwargs, o1.instances, o1.next);
  }

  /** `inject(func)`: the wrapper around `func`. */
  function Inject(func: Callable): (wrapper: Callable)
    ensures wrapper.Injecting? && wrapper.wrapped == func
    // `functools.wraps` copies `__annotations__`, yet the wrapper's own signature
    // shows only the `return`, `args` and `kwargs` entries to `getfullargspec`
    ensures wrapper.Declared() == func.Declared()
    ensures forall p :: p in wrapper.Annotations() <==>
      p in func.Declared() && (p.0 == "return" || p.0 == "args" || p.0 == "kwargs")
  {
    Injecting(func)
  }

  /** Parameters whose annotations are all unbound receive nothing: the keyword
      arguments, the cache and the supply stay as they are. */
  lemma {:induction false} InjectedNothingBound(b: map<Provider, Provider>, instances: map<Provider, Value>, next: nat,
                                                params: seq<Parameter>, kwargs: map<string, Value>)
    requires forall i :: 0 <= i < |params| ==> params[i].1 !in b
    ensures Injected(b, instances, next, params, kwargs) == Injection(kwargs, instances, next)
    decreases |params|
  {
    if params != [] {
      var m := |params| - 1;
      assert forall i :: 0 <= i < m ==> params[..m][i] == params[i];
      InjectedNothingBound(b, instances, next, params[..m], kwargs);
    }
  }

  /** A wrapper around a callable, for instance `injectable` applied to an
      initializer that `inject` already wraps: unless a `return`, `args` or `kwargs`
      annotation is bound, the wrapper passes the keyword arguments on unchanged and
      resolves nothing, so only the innermost wrapper injects. */
  lemma WrapperPassesKeywordsThrough(b: map<Provider, Provider>, instances: map<Provider, Value>, next: nat,
                                     func: Callable, kwargs: map<string, Value>)
    requires forall p :: p in func.Declared() && (p.0 == "return" || p.0 == "args" || p.0 == "kwargs") ==> p.1 !in b
    ensures Injected(b, instances, next, Inject(func).Annotations(), kwargs) == Injection(kwargs, instances, next)
  {
    var ps := Inject(func).Annotations();
    forall i | 0 <= i < |ps| ensures ps[i].1 !in b {
      assert ps[i] in ps;
    }
    InjectedNothingBound(b, instances, next, ps, kwargs);
  }

  /** `getfullargspec` lists the return annotation too: when it is bound and the
      caller did not pass `return`, the wrapper resolves it and passes it on as the
      keyword argument `return`, which a callee without `**kwargs` rejects with
      `TypeError`. */
  lemma ReturnAnnotationInjected(b: map<Provider, Provider>, instances: map<Provider, Value>, next: nat,
                                 params: seq<Parameter>, kwargs: map<string, Value>, i: nat)
    requires instances.Keys <= b.Keys
    requires i < |params| && params[i].0 == "return" && params[i].1 in b && "return" !in kwargs
    ensures "return" in Injected(b, instances, next, params, kwargs).kwargs
  {
    InjectedFacts(b, instances, next, params, kwargs);
  }

  /** Calling `inject(func)(*args, **kwargs)`: the wrapper fills the keyword
      arguments from the registry, then calls `func` with the positional arguments
      unchanged. The returned `Invocation` is that call of `func`. */
  method CallInjected(registry: ProviderRegistry, supply: Supply, func: Callable,
                      args: seq<Value>, kwargs: map<string, Value>) returns (call: Invocation)
    requires registry.Valid()
    modifies registry, supply
    ensures registry.Valid() && registry.bindings == old(registry.bindings)
    ensures call.callee == func && call.args == args
    ensures Injection(call.kwargs, registry.instances, supply.next) ==
      Injected(old(registry.bindings), old(registry.instances), old(supply.next), func.Annotations(), kwargs)
  {
    var annotations := func.Annotations();
    var kw := kwargs;
    var i := 0;
    while i < |annotations|
      invariant 0 <= i <= |annotations|
      invariant registry.Valid() && registry.bindings == old(registry.bindings)
      invariant Injection(kw, registry.instances, supply.next) ==
        Injected(old(registry.bindings), old(registry.instances), old(supply.next), annotations[..i], kwargs)
    {
      var (name, provider) := annotations[i];
      assert annotations[..i + 1][..i] == annotations[..i];
      if provider in registry.bindings && name !in kw {
        var instance := registry.GetItem(provider, supply);
        kw := kw[name := instance.value];
      }
      i := i + 1;
    }
    assert annotations[..i] == annotations;
    call := Invocation(func, args, kw);
  }

  /** `injectable(cls)`: replaces the class's initializer by `inject(__init__)` and
      returns the same class. */
  method Injectable(cls: ClassObject) returns (r: ClassObject)
    modifies cls
    ensures r == cls && cls.init == Inject(old(cls.init))
  {
    cls.init := Inject(cls.init);
    r := cls;
  }

  /** A subclass of `Module`. Its `imports` and `providers` are only annotated on
      `Module`, so they exist (`Some`) once `module` has decorated the class. */
  class ModuleClass {
    var imports: Option<seq<ModuleClass>>
    var providers: Option<seq<Entry>>

    /** An undecorated module class has neither attribute: reading one raises
        `AttributeError`. */
    constructor ()
      ensures imports.None? && providers.None?
    {
      imports := None;
      providers := None;
    }

    /** `Module.get`: the free `get` on the registry. */
    method Get(registry: ProviderRegistry, supply: Supply, interface: Provider) returns (r: Lookup<Value>)
      requires registry.Valid()
      modifies registry, supply
      ensures registry.Valid() && registry.bindings == old(registry.bindings)
      ensures Resolution(r, registry.instances, supply.next) ==
        Resolve(old(registry.bindings), old(registry.instances), old(supply.next), interface)
    {
      r := registry.GetItem(interface, supply);  // the free `get`, inlined
    }
  }

  /** `module(imports, providers)(cls)`: records both lists on the class (an absent
      list becomes `[]`), then binds the class's own providers with `bind_all`. The
      imported modules' providers are not bound, and the same class is returned. */
  method Module(registry: ProviderRegistry, imports: Option<seq<ModuleClass>>, providers: Option<seq<Entry>>,
                cls: ModuleClass) returns (r: ModuleClass)
    requires registry.Valid()
    modifies registry, cls
    ensures registry.Valid() && r == cls
    ensures cls.imports == Some(if imports.Some? then imports.value else [])
    ensures cls.providers == Some(if providers.Some? then providers.value else [])
    ensures registry.bindings == Bound(old(registry.bindings), cls.providers.value)
    ensures registry.instances == old(registry.instances)
    ensures imports.Some? ==> forall m :: m in imports.value && m != cls ==> m.providers == old(m.providers)
  {
    cls.imports := Some(if imports.Some? then imports.value else []);
    cls.providers := Some(if providers.Some? then providers.value else []);
    BindAll(registry, cls.providers.value);
    r := cls;
  }
}

# deepblu dependency injection and `Result`: a Dafny model

This project models two parts of the `deepblu` Python package.

- **The dependency-injection container.** A registry maps *interfaces* to *factories*. An interface is a class used as a key. A factory is a class or a function that builds an object.
  - `deepblu/di.py` has a **memoizing** registry. `get` calls the bound factory the first time a key is asked for, then caches the object. Every later `get` of that key returns the same object.
  - `deepblu/di/registry.py` has a **non-memoizing** registry. Its `get` returns the bound factory itself, uncalled.
  - `deepblu/di/injection.py` holds free functions over a module-level instance of that registry: `bind`, `add`, `bind_all`, `get`, `provide_many`, `inject` and `injectable`.
  - `deepblu/di/__init__.py` holds only `bind`, a pairs-only `bind_all` and `get`, over its own instance.
  - `deepblu/di/module.py` holds the `module` class decorator.
  - The `inject` wrapper fills each keyword argument whose annotation is bound and that the caller did not pass. `di.py` fills it with the cached object. `injection.py` calls the factory again on every call.
- **The `Result` container.** It appears in `deepblu/result.py` and, in a later version, in `deepblu/result/__init__.py`. A result holds a value, an error and an `is_ok` flag. The constructor refuses an ok result that carries an error. Results compare by value and by error, and the two versions compare errors differently. `monadic` turns "returns or raises" into an ok or error result.

How the model is built:

- **Modules.**
  - `Providers` holds the shared vocabulary.
  - `Di` models `di.py`.
  - `Registry`, `Injection`, `DiPackage` and `ModuleDecorator` model the `di/` package.
  - `PyObjects`, `Results` and `ResultPackage` model the two `Result` files.
- **Callables** that `inject` wraps are given by the annotations `inspect.getfullargspec` reports for them. A wrapper made by `inject` copies the wrapped callable's `__annotations__`. But `getfullargspec` reads the wrapper's own `(*args, **kwargs)` signature, so it reports only the `return`, `args` and `kwargs` entries.
- **Factories** are values: `Plain(id)` for a class or function, and `Many(impls)` for the factory that `provide_many` creates.
- **Objects** carry a serial number, and each factory call takes the next one from a `Supply`. So "the same object" means the same serial, and "a new object" means a serial the supply had not handed out before.
- **The module-level `registry` singletons** become an explicit `ProviderRegistry` argument.
- **Registries and module classes** are Dafny classes whose methods update their fields, as the Python methods do.
- **The pure parts** are functions. The bindings after a sequence of `bind` calls (`Bound`), a cache lookup (`Resolve`) and the result of an injection (`Injected`, `InjectedFresh`) are each specified by a function. Each method that loops is proved equal to its function.

Where the documentation and the code disagree, the model follows the code:

- The non-memoizing `get` returns the factory, not an instance. Its docstring in `injection.py` says it returns an instance.
- The `module` decorators set the attributes `imports`/`submodules` and `providers`. The tests look for differently named private attributes, which the code never sets.

## Model

| member | source | states |
|---|---|---|
| Providers.Invoke | deepblu/di.py:59 | Calling a plain factory creates exactly one new object, made by that factory. Calling a `provide_many` factory returns a list with one item per implementation. Every object created lies in the supply range used by the call. |
| Providers.ProvideMany | deepblu/di.py:143-158 | `provide_many(interface, impls)` is a pair keyed by `interface`. Its factory always returns a list with one entry per implementation. |
| Providers.ProvideManyInOrder | deepblu/di/injection.py:82-84 | Item `i` of the list is the object made by calling `impls[i]` right after the calls of `impls[..i]`. Each implementation is called once, in list order. |
| Providers.BoundKeys | deepblu/di.py:118-123 | After `bind_all`, a key is bound exactly when it was bound before or some entry names it. No binding is removed. |
| Providers.BoundLastWins | deepblu/di/injection.py:57-62 | After `bind_all`, a key is bound to the factory of the last entry that names it. A bare provider is bound to itself. |
| Providers.BoundUntouched | deepblu/di.py:118-123 | `bind_all` leaves a key that no entry names bound to its previous factory. |
| Providers.PairEntries | deepblu/di/__init__.py:64-67 | Turns the pairs-only arguments of the package's `bind_all` into entries with the same keys and factories, in the same order. |
| Providers.Supply.Call | deepblu/di.py:59 | One factory call: the value and the supply's new position are exactly those of `Invoke`. |
| Di.Resolve | deepblu/di.py:54-61 | `get` finds a key iff it is cached or bound. A cache hit changes nothing. A miss on a bound key calls its factory exactly once and caches the object. An unknown key raises `KeyError` and changes nothing. |
| Di.ResolveKeepsCache | deepblu/di.py:56-60 | `get` never evicts or replaces a cached object. It leaves the returned object in the cache and keeps every cached key bound. |
| Di.ResolveTwiceSame | deepblu/di.py:54-61 | Getting a bound key twice returns the same object. The second `get` calls no factory (one instance per key). |
| Di.RebindKeepsInstance | deepblu/di.py:41-46 | Rebinding an already-resolved key does not evict its cached object: `get` still returns the old object. |
| Di.ProviderRegistry.constructor | deepblu/di.py:37-39 | A new registry has no bindings and no cached objects. |
| Di.ProviderRegistry.Bind | deepblu/di.py:41-46 | Inserts or overwrites one binding, leaves the cache alone, keeps the invariant that cached keys are bound, and returns the registry itself. |
| Di.ProviderRegistry.SetItem | deepblu/di.py:48-52 | `registry[k] = f` behaves as `bind`. |
| Di.ProviderRegistry.Get | deepblu/di.py:54-61 | The result, the new cache and the supply's new position are those of `Resolve`. The bindings are unchanged. |
| Di.ProviderRegistry.GetItem | deepblu/di.py:63-65 | `registry[k]` behaves as `get`. |
| Di.ProviderRegistry.Bindings | deepblu/di.py:67-70 | The `bindings` property is the current binding map. |
| Di.Bind | deepblu/di.py:77-89 | The free `bind` overwrites one binding of the registry and leaves its cache alone. |
| Di.Add | deepblu/di.py:92-102 | `add(p)` binds `p` to itself. |
| Di.BindAll | deepblu/di.py:105-123 | After the loop, the bindings are `Bound(old bindings, providers)`: each pair is bound to its factory and each bare provider to itself, left to right. |
| Di.Get | deepblu/di.py:126-140 | The free `get` behaves as the registry's memoizing `get`. |
| Di.InjectedFacts | deepblu/di.py:178-184 | Injection keeps the caller's keyword arguments as given. It adds exactly the names of parameters whose annotation is bound. Each added argument is the cached object for its annotation. The cache only grows and stays within the bound keys. |
| Di.InjectionFromCache | deepblu/di.py:181-183 | Once the annotations are cached, injecting again gives the same keyword arguments and calls no factory. |
| Di.ReinjectionReusesObjects | deepblu/di.py:179-184 | Two calls of an injected function receive the same objects. The second call invokes no factory. |
| Di.Inject | deepblu/di.py:161-186 | `inject` wraps the function, and the wrapper gets the function's `__annotations__`. `getfullargspec` of the wrapper reports exactly the wrapped callable's `return`, `args` and `kwargs` entries. |
| Di.InjectedNothingBound | deepblu/di.py:181-183 | When no annotation is bound, injection adds no keyword argument and resolves nothing. |
| Di.ReturnAnnotationInjected | deepblu/di.py:180-184 | A bound return annotation is resolved and passed to the callee as the keyword argument `return` unless the caller passed one. |
| Di.WrapperPassesKeywordsThrough | deepblu/di.py:178-184 | An `inject` wrapper around any callable, such as `injectable` over an initializer already decorated with `inject`, passes the keyword arguments on unchanged and resolves nothing, unless a `return`, `args` or `kwargs` annotation is bound. Only the innermost wrapper injects. |
| Di.CallInjected | deepblu/di.py:179-184 | The wrapper calls the function with the positional arguments unchanged. The keyword arguments, the cache and the supply afterwards are exactly those of `Injected`. The bindings are unchanged. |
| Di.Injectable | deepblu/di.py:189-210 | `injectable` replaces the class's initializer by `inject(__init__)` and returns the same class. |
| Di.ModuleClass.constructor | deepblu/di.py:228-229 | `Module` only annotates `imports` and `providers`, so an undecorated module class has neither attribute. |
| Di.ModuleClass.Get | deepblu/di.py:231-239 | A module's `get` behaves as the free memoizing `get`. |
| Di.Module | deepblu/di.py:242-263 | The decorator gives the class both attributes `imports` and `providers`, with a missing list giving the empty list. It binds the providers as `bind_all` does, leaves the cache and the imported modules alone, and returns the class. |
| Registry.ProviderRegistry.constructor | deepblu/di/registry.py:14-15 | A new registry has no bindings. |
| Registry.ProviderRegistry.Bind | deepblu/di/registry.py:17-21 | Inserts or overwrites one binding and returns the registry itself. |
| Registry.ProviderRegistry.SetItem | deepblu/di/registry.py:23-26 | `registry[k] = f` behaves as `bind`. |
| Registry.ProviderRegistry.Get | deepblu/di/registry.py:28-29 | Finds a key iff it is bound, and returns the bound factory itself, uncalled. Otherwise it raises `KeyError` for that key. Nothing changes. |
| Registry.ProviderRegistry.GetItem | deepblu/di/registry.py:31-32 | `registry[k]` behaves as `get`. |
| Registry.ProviderRegistry.Bindings | deepblu/di/registry.py:34-37 | The `bindings` property is the current binding map. |
| Registry.RebindReplaces | deepblu/di/registry.py:17-29 | After binding a key twice, `get` returns the second factory. Every other key yields what it yielded before. |
| Injection.Bind | deepblu/di/injection.py:16-28 | The free `bind` overwrites one binding of the registry. |
| Injection.Add | deepblu/di/injection.py:31-41 | `add(p)` binds `p` to itself. |
| Injection.BindAll | deepblu/di/injection.py:44-62 | After the loop, the bindings are `Bound(old bindings, providers)`. |
| Injection.Get | deepblu/di/injection.py:65-79 | Returns the bound factory, uncalled, or raises `KeyError` when the key is unbound. |
| Injection.InjectedFreshFacts | deepblu/di/injection.py:104-110 | Injection keeps the caller's keyword arguments as given. It adds exactly the names of parameters whose annotation is bound. Every added argument was created during this injection. |
| Injection.InjectedFreshOrigin | deepblu/di/injection.py:107-109 | Each injected argument is the object made by calling the factory bound to that parameter's annotation, during this injection. |
| Injection.TwoInjectionsDiffer | deepblu/di/injection.py:104-110 | Two successive calls of an injected function receive different objects for a parameter whose factory creates an object. No instance is shared. |
| Injection.Inject | deepblu/di/injection.py:87-112 | `inject` wraps the function, and the wrapper gets the function's `__annotations__`. `getfullargspec` of the wrapper reports exactly the wrapped callable's `return`, `args` and `kwargs` entries. |
| Injection.InjectedFreshNothingBound | deepblu/di/injection.py:107-109 | When no annotation is bound, injection adds no keyword argument and calls no factory. |
| Injection.ReturnAnnotationInjected | deepblu/di/injection.py:106-110 | A bound return annotation is produced by its factory and passed to the callee as the keyword argument `return` unless the caller passed one. |
| Injection.WrapperPassesKeywordsThrough | deepblu/di/injection.py:104-110 | An `inject` wrapper around any callable, such as `injectable` over an initializer already decorated with `inject`, passes the keyword arguments on unchanged and calls no factory, unless a `return`, `args` or `kwargs` annotation is bound. Only the innermost wrapper injects. |
| Injection.CallInjected | deepblu/di/injection.py:104-110 | The wrapper calls the function with the positional arguments unchanged. The keyword arguments and the supply afterwards are exactly those of `InjectedFresh`. The registry is only read. |
| Injection.Injectable | deepblu/di/injection.py:115-136 | `injectable` replaces the class's initializer by `inject(__init__)` and returns the same class. |
| DiPackage.Bind | deepblu/di/__init__.py:59-61 | The package's `bind` overwrites one binding. |
| DiPackage.BindAll | deepblu/di/__init__.py:64-67 | The package's `bind_all` binds each pair in order, so the bindings become `Bound(old bindings, PairEntries(pairs))`. No pairs means no change. |
| DiPackage.Get | deepblu/di/__init__.py:70-72 | The package's `get` returns the bound factory, uncalled, or raises `KeyError`. |
| ModuleDecorator.ModuleClass.constructor | deepblu/di/module.py:8-10 | A module class starts with no submodules and no providers. |
| ModuleDecorator.ModuleClass.Get | deepblu/di/module.py:12-13 | A module's `get` behaves as the non-memoizing free `get`. |
| ModuleDecorator.Module | deepblu/di/module.py:16-26 | The decorator stores the submodules and providers it was given and binds the providers as `bind_all` does. It leaves the submodules alone and returns the class. |
| Results.New | deepblu/result.py:17-22 | The constructor raises `ValueError` iff it is asked for an ok result with an error. Every result it builds satisfies "ok implies no error". |
| Results.Ok | deepblu/result.py:77-80 | `ok(v)` is ok, not an error, and holds `v` and no error. |
| Results.Err | deepblu/result.py:82-89 | `error(e)` is an error result with no value. A string message becomes a new `Exception` with that message. Any other error is stored as given. |
| Results.ErrorsMatch | deepblu/result.py:33-38 | Two true non-exception errors where the left is an instance of the right one's class raise `AttributeError`. Otherwise two exceptions match iff the left is an instance of the right one's class with equal `args`, or they are the same object. Any other pair matches iff the errors are `==`, which for a missing error means both are missing. |
| Results.Equal | deepblu/result.py:43-50 | A result never equals a non-result. Between results, `==` holds iff the values are equal and the errors match, and it raises exactly when matching the errors raises. |
| Results.EqualIgnoresIsOk | deepblu/result.py:27-41 | Equality does not read `is_ok`. |
| Results.OkEquality | tests/test_result.py:48-51 | `ok(v) == ok(w)` iff `v == w`. |
| Results.ErrorFromStringEqualsException | tests/test_result.py:54-56 | `error(s)` equals `error(Exception(s))` and another `error(s)`, though the exception objects differ. |
| Results.FalsyErrorsCompareByEq | deepblu/result.py:33-38 | `error(0) == error(0)`: a false error falls through to `==`. |
| Results.ErrorMessagesDiffer | tests/test_result.py:62-64 | `error(s) != error(t)` for different messages. |
| Results.EqualNotSymmetric | deepblu/result.py:36 | A `ValueError("x")` result equals an `Exception("x")` result, but not the other way round. |
| Results.Monadic | deepblu/result.py:109-123 | A call that returns `v` gives `ok(v)`. A call that raises an `Exception` subclass gives an error result holding that very exception. Any other exception propagates. |
| Results.MonadicRaiseEqualsError | tests/test_result.py:67-76 | A caught exception gives a result equal to `error` of any exception of the same class and `args`. |
| ResultPackage.New | deepblu/result/__init__.py:24-31 | The constructor raises `ValueError` iff it is asked for an ok result with an error. Every result it builds satisfies "ok implies no error". |
| ResultPackage.Ok | deepblu/result/__init__.py:68-78 | `ok(v)` is ok, not an error, and holds `v` and no error. |
| ResultPackage.Err | deepblu/result/__init__.py:72-74 | `Result.err(e)` stores `e` as given, a string included. |
| ResultPackage.Error | deepblu/result/__init__.py:81-82 | The free `error` turns a string into a new `Exception` before calling `Result.err`. Anything else passes through unchanged. |
| ResultPackage.ErrorsMatch | deepblu/result/__init__.py:37-42 | Two present non-exception errors of one class raise `AttributeError`. Otherwise two exceptions match iff they have exactly the same class and equal `args`, or they are the same object. Any other pair matches iff the errors are `==`, which for a missing error means both are missing. |
| ResultPackage.Equal | deepblu/result/__init__.py:47-50 | A result never equals a non-result. Between results, `==` holds iff the values are equal and the errors match, and it raises exactly when matching the errors raises. |
| ResultPackage.EqualIgnoresIsOk | deepblu/result/__init__.py:36-45 | Equality does not read `is_ok`. |
| ResultPackage.EqualSymmetric | deepblu/result/__init__.py:36-45 | Equality between results is symmetric, including whether it raises. |
| ResultPackage.ErrorFromStringEqualsException | deepblu/result/__init__.py:81-82 | `error(s)` equals `error(Exception(s))`, though the exception objects differ. |
| ResultPackage.ErrStringDiffersFromError | deepblu/result/__init__.py:37-42 | `Result.err(s) != error(s)`: a string and an exception are of different classes and are not `==`. |
| ResultPackage.ErrStringsRaise | deepblu/result/__init__.py:37-42 | Comparing two results made by `Result.err` from strings raises `AttributeError`. |
| ResultPackage.Monadic | deepblu/result/__init__.py:88-96 | A call that returns `v` gives `ok(v)`. A call that raises an `Exception` subclass gives an error result holding that exception. Any other exception propagates. |
| ResultPackage.MonadicRaiseEqualsError | deepblu/result/__init__.py:88-96 | A caught exception gives a result equal to `error` of any exception of the same class and `args`. |

## Left out

- **Reflection.** Python's introspection is not modelled in general. A plain function carries, as an explicit ordered list of (name, annotation), what `inspect.getfullargspec(func).annotations` would report for it. A `return` annotation, which Python also lists, is just one more entry of that list. For an `inject` wrapper, the model derives the list from what `functools.wraps` copies, as described above. Signatures, defaults and the other attributes `functools.wraps` copies are not modelled.
- **The wrapped function's body.** The model does not run it. `CallInjected` returns the call it would make (callee, positional arguments, keyword arguments).
- **Positional/keyword collisions.** The model does not track whether the callee accepts the keyword arguments it is given, so two of Python's `TypeError`s are not modelled.
  - An injected keyword can name a parameter that was also passed positionally.
  - A bound return annotation is injected as the keyword `return` (`Di.ReturnAnnotationInjected`, `Injection.ReturnAnnotationInjected`), which a callee without `**kwargs` rejects.
  - `CallInjected` returns such a call as if it succeeded.
- **Factories are opaque.** A factory call creates one new object, or a list for `provide_many`. Factories with side effects are not modelled: one that calls back into the registry, an injected constructor that itself injects, or a factory that raises.
- **Identity of `provide_many` factories.** Each Python call to `provide_many` creates a new lambda, so two calls never give equal keys. In the model, `Many(impls)` values with the same `impls` are equal.
- **`bind_all` arity.** A tuple argument that is not a pair makes Python's unpacking raise `ValueError`. The model's entries are pairs or bare providers. A bare provider that is itself a tuple is not modelled.
- **`DiPackage.BindAll` and bare providers.** The pairs-only `bind_all` of `deepblu/di/__init__.py` unpacks every argument, so a bare provider makes it raise `TypeError`. Its argument type, a sequence of pairs, leaves that error path out.
- **`Registry.ProviderRegistry.Bind` default argument.** `impl` defaults to a typing alias in `deepblu/di/registry.py`. The model always takes `impl`.
- **Aliasing.**
  - The `bindings` properties hand out the live dictionary, which a caller could mutate. The model returns the map as a value.
  - The default list arguments of `module` in `deepblu/di/module.py` are shared between decorations. The model passes sequences by value.
- **Module import side effects.** Binding when a module is imported is modelled as a call of the decorator. The submodules are recorded, never bound, as in the code.
- **The module-level singletons and thread safety.** The registry is a parameter. Concurrent `get`/`bind` is not modelled.
- **The packages' import-time inconsistencies.** `injection.py` and `__init__.py` import names that `registry.py` does not define. The modules are modelled as if these imports succeeded.
- **Python objects.** Values are `None`, strings, integers and exceptions of single-inheritance exception classes. Other types, user-defined `__eq__`, multiple inheritance and the truthiness of other classes are not modelled.
- **Not part of this model:**
  - `Result.__repr__`, string formatting;
  - `monadic_async`, coroutines;
  - `deepblu/di/dependency_module.py`;
  - the `pydantic` domain code in `deepblu/domain`.

## Findings

| source | as written | input that shows it | evidently intended | confidence | as-written member | corrected member |
|---|---|---|---|---|---|---|
| deepblu/result.py:36 | Errors match when `isinstance(self.error, type(other.error))` and the `args` are equal, so `==` between results is not symmetric | `error(ValueError("x")) == error(Exception("x"))` is true, but `error(Exception("x")) == error(ValueError("x"))` is false | Symmetric equality, with the classes compared exactly, as `deepblu/result/__init__.py:40` does | medium, not executed | Results.EqualNotSymmetric | ResultPackage.EqualSymmetric |

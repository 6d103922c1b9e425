/**
 * Module declarations over the non-memoizing registry (deepblu/di/module.py): the
 * `module` decorator records a class's submodules and providers and binds the
 * providers with `bind_all` of the injection functions.
 */
module ModuleDecorator {
  import opened Providers
  import Registry
  import Injection

  /** A class decorated with `module`. */
  class ModuleClass {
    var submodules: seq<ModuleClass>
    var providers: seq<Entry>

    /** A class that is not decorated keeps the empty lists declared on `Module`. */
    constructor ()
      ensures submodules == [] && providers == []
    {
      submodules := [];
      providers := [];
    }

    /** `Module.get`: the injection functions' `get`, which returns the bound
        factory. */
    method Get(registry: Registry.ProviderRegistry, interface: Provider) returns (r: Lookup<Provider>)
      ensures r.Found? <==> interface in registry.bindings
      ensures r.Found? ==> r.value == registry.bindings[interface]
      ensures r.KeyError? ==> r.key == interface
    {
      r := Injection.Get(registry, interface);
    }
  }

  /** `module(submodules, providers)(cls)`: sets both lists on the class, then
      performs exactly `bind_all(*providers)`; the submodules' providers are not
      bound, and the same class is returned. */
  method Module(registry: Registry.ProviderRegistry, submodules: seq<ModuleClass>, providers: seq<Entry>,
                cls: ModuleClass) returns (r: ModuleClass)
    modifies registry, cls
    ensures r == cls
    ensures cls.submodules == submodules && cls.providers == providers
    ensures registry.bindings == Bound(old(registry.bindings), providers)
    ensures providers == [] ==> registry.bindings == old(registry.bindings)
    ensures forall m :: m in submodules && m != cls ==> m.providers == old(m.providers)
  {
    cls.submodules := submodules;
    cls.providers := providers;
    Injection.BindAll(registry, providers);
    r := cls;
  }
}

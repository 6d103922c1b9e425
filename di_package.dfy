/**
 * The free functions of the dependency-injection package's `__init__`
 * (deepblu/di/__init__.py), over the non-memoizing registry: `bind`, a pairs-only
 * `bind_all`, and a `get` that returns the bound factory, not an instance.
 */
module DiPackage {
  import opened Providers
  import Registry

  /** `bind(interface, impl)`: `registry[interface] = impl`; no other key changes. */
  method Bind(registry: Registry.ProviderRegistry, interface: Provider, impl: Provider)
    modifies registry
    ensures registry.bindings == old(registry.bindings)[interface := impl]
  {
    var _ := registry.SetItem(interface, impl);
  }

  /** `bind_all(*providers)`: binds each `(interface, impl)` pair in order, so the
      last pair for a key wins; no pairs leave the registry unchanged. */
  method BindAll(registry: Registry.ProviderRegistry, providers: seq<(Provider, Provider)>)
    modifies registry
    ensures registry.bindings == Bound(old(registry.bindings), PairEntries(providers))
    ensures providers == [] ==> registry.bindings == old(registry.bindings)
  {
    ghost var entries := PairEntries(providers);
    for i := 0 to |providers|
      invariant registry.bindings == Bound(old(registry.bindings), entries[..i])
    {
      var (interface, impl) := providers[i];
      Bind(registry, interface, impl);
      assert entries[..i + 1][..i] == entries[..i];
    }
    assert entries[..|providers|] == entries;
  }

  /** `get(interface)`: the factory bound to `interface`, uncalled, or `KeyError`
      when it is unbound. */
  method Get(registry: Registry.ProviderRegistry, interface: Provider) returns (r: Lookup<Provider>)
    ensures r.Found? <==> interface in registry.bindings
    ensures r.Found? ==> r.value == registry.bindings[interface]
    ensures r.KeyError? ==> r.key == interface
  {
    r := registry.GetItem(interface);
  }
}

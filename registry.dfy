/**
 * The non-memoizing provider registry (deepblu/di/registry.py): a map from interface
 * keys to factories whose `get` returns the bound factory itself, uncalled.
 */
module Registry {
  import opened Providers

  class ProviderRegistry {
    var bindings: map<Provider, Provider>

    constructor ()
      ensures bindings == map[]
    {
      bindings := map[];
    }

    /** Inserts or overwrites the factory of `interface`; returns the registry
        itself. */
    method Bind(interface: Provider, impl: Provider) returns (self: ProviderRegistry)
      modifies this
      ensures self == this
      ensures bindings == old(bindings)[interface := impl]
    {
      bindings := bindings[interface := impl];
      self := this;
    }

    /** `registry[interface] = impl`. */
    method SetItem(interface: Provider, impl: Provider) returns (self: ProviderRegistry)
      modifies this
      ensures self == this
      ensures bindings == old(bindings)[interface := impl]
    {
      self := Bind(interface, impl);
    }

    /** The factory bound to `interface`, not called; `KeyError` when it is unbound.
        The registry is not changed. */
    method Get(interface: Provider) returns (r: Lookup<Provider>)
      ensures r.Found? <==> interface in bindings
      ensures r.Found? ==> r.value == bindings[interface]
      ensures r.KeyError? ==> r.key == interface
    {
      if interface in bindings {
        r := Found(bindings[interface]);
      } else {
        r := KeyError(interface);
      }
    }

    /** `registry[interface]`. */
    method GetItem(interface: Provider) returns (r: Lookup<Provider>)
      ensures r.Found? <==> interface in bindings
      ensures r.Found? ==> r.value == bindings[interface]
      ensures r.KeyError? ==> r.key == interface
    {
      r := Get(interface);
    }

    /** The `bindings` property: the current interface-to-factory map. */
    function Bindings(): (m: map<Provider, Provider>)
      reads this
      ensures m == bindings
    {
      bindings
    }
  }

  /** Binding a key twice: `get` afterwards returns the second factory, and every
      other key still yields what it yielded before. */
  method RebindReplaces(registry: ProviderRegistry, k: Provider, f1: Provider, f2: Provider, other: Provider)
    returns (r: Lookup<Provider>, s: Lookup<Provider>)
    requires other != k
    modifies registry
    ensures r == Found(f2)
    ensures s == (if other in old(registry.bindings) then Found(old(registry.bindings)[other]) else KeyError(other))
  {
    var _ := registry.Bind(k, f1);
    var _ := registry.SetItem(k, f2);
    r := registry.GetItem(k);
    s := registry.Get(other);
  }
}

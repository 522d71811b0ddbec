/** The kernel registry manager: custom registries searched before the
    registry of an execution provider type, and the kernel type string
    resolver it carries. */
module KernelRegistries {
  import opened Wrappers

  /** A kernel registry; only its identity matters here. */
  class KernelRegistry {
    constructor () {}
  }

  /** An execution provider as the manager sees it: its type string and the
      kernel registry it offers (possibly none). */
  datatype Provider = Provider(providerType: string, registry: KernelRegistry?)

  /** The resolver of kernel type strings: for each op, the type strings
      its kernels are matched on. */
  datatype KernelTypeStrResolver = KernelTypeStrResolver(opTypeStrs: map<string, seq<string>>)

  /** A value snapshot of the manager's two collections. */
  datatype ManagerState = ManagerState(byType: map<string, KernelRegistry?>, custom: seq<KernelRegistry?>)

  predicate NoNulls(rs: seq<KernelRegistry?>) {
    forall i :: 0 <= i < |rs| ==> rs[i] != null
  }

  /** Neither collection holds a null registry. */
  predicate ValidState(st: ManagerState) {
    NoNulls(st.custom) && forall t :: t in st.byType ==> st.byType[t] != null
  }

  /** The registries searched for `providerType`, highest priority first:
      every custom registry in list order, then the registry of that type. */
  function SearchOrder(st: ManagerState, providerType: string): (r: seq<KernelRegistry?>)
    ensures |r| == |st.custom| + (if providerType in st.byType then 1 else 0)
    ensures r[..|st.custom|] == st.custom
    ensures providerType in st.byType ==> r[|st.custom|] == st.byType[providerType]
  {
    st.custom + (if providerType in st.byType then [st.byType[providerType]] else [])
  }

  /** The provider map after registering `providers` in order: a provider
      without a registry is skipped, and registration stops at the first
      provider whose type is already registered. */
  function AddProviders(byType: map<string, KernelRegistry?>, providers: seq<Provider>): map<string, KernelRegistry?>
    decreases |providers|
  {
    if providers == [] then byType
    else if providers[0].providerType in byType then byType
    else if providers[0].registry == null then AddProviders(byType, providers[1..])
    else AddProviders(byType[providers[0].providerType := providers[0].registry], providers[1..])
  }

  /** No provider's type is already registered when it is reached. */
  predicate NoDuplicateProvider(byType: map<string, KernelRegistry?>, providers: seq<Provider>)
    decreases |providers|
  {
    if providers == [] then true
    else if providers[0].providerType in byType then false
    else if providers[0].registry == null then NoDuplicateProvider(byType, providers[1..])
    else NoDuplicateProvider(byType[providers[0].providerType := providers[0].registry], providers[1..])
  }

  /** Registration keeps every existing entry, adds only non-null registries,
      and, when no type is duplicated, records every provider's registry
      under its type. */
  lemma {:induction false} AddProvidersEntries(byType: map<string, KernelRegistry?>, providers: seq<Provider>)
    ensures var m := AddProviders(byType, providers);
            && (forall t :: t in byType ==> t in m && m[t] == byType[t])
            && (forall t :: t in m && t !in byType ==>
                  (m[t] != null && exists i :: 0 <= i < |providers| && providers[i] == Provider(t, m[t])))
            && (NoDuplicateProvider(byType, providers) ==>
                  forall i :: 0 <= i < |providers| && providers[i].registry != null ==>
                    providers[i].providerType in m && m[providers[i].providerType] == providers[i].registry)
    decreases |providers|
  {
    if providers != [] && providers[0].providerType !in byType {
      var p, rest := providers[0], providers[1..];
      var next := if p.registry == null then byType else byType[p.providerType := p.registry];
      AddProvidersEntries(next, rest);
      var m := AddProviders(byType, providers);
      assert m == AddProviders(next, rest);
      forall t | t in m && t !in byType
        ensures m[t] != null && exists i :: 0 <= i < |providers| && providers[i] == Provider(t, m[t])
      {
        if t in next {
          assert t == p.providerType && p.registry != null;
          assert providers[0] == Provider(t, m[t]);
        } else {
          var i :| 0 <= i < |rest| && rest[i] == Provider(t, m[t]);
          assert providers[i + 1] == Provider(t, m[t]);
        }
      }
      if NoDuplicateProvider(byType, providers) {
        forall i | 0 <= i < |providers| && providers[i].registry != null
          ensures providers[i].providerType in m && m[providers[i].providerType] == providers[i].registry
        {
          if i > 0 {
            assert providers[i] == rest[i - 1];
          }
        }
      }
    }
  }

  /** Registration never stores a null registry. */
  lemma AddProvidersValid(st: ManagerState, providers: seq<Provider>)
    requires ValidState(st)
    ensures ValidState(st.(byType := AddProviders(st.byType, providers)))
  {
    AddProvidersEntries(st.byType, providers);
  }

  /** The custom registries after registering `r` in front of them; a null
      registry is ignored. */
  function Pushed(custom: seq<KernelRegistry?>, r: KernelRegistry?): seq<KernelRegistry?> {
    if r == null then custom else [r] + custom
  }

  /** The priority contract: after registering the providers and then the
      custom registries `a` and `b`, a search tries `b`, then `a`, then the
      custom registries already present, then the provider's registry, null
      ones left out. */
  lemma PriorityOrder(st: ManagerState, providers: seq<Provider>, a: KernelRegistry?, b: KernelRegistry?,
                      providerType: string)
    ensures var st1 := st.(byType := AddProviders(st.byType, providers));
            var st3 := st1.(custom := Pushed(Pushed(st1.custom, a), b));
            SearchOrder(st3, providerType) ==
              (if b != null then [b] else []) + (if a != null then [a] else []) + SearchOrder(st1, providerType)
  {
  }

  /** With the providers registered on an empty manager and no type
      duplicated, each provider's registry is the last one searched for
      its type, after every custom registry. */
  lemma ProviderRegistryLast(providers: seq<Provider>, custom: seq<KernelRegistry?>, i: nat)
    requires i < |providers| && providers[i].registry != null
    requires NoDuplicateProvider(map[], providers)
    ensures var st := ManagerState(AddProviders(map[], providers), custom);
            SearchOrder(st, providers[i].providerType) == custom + [providers[i].registry]
  {
    AddProvidersEntries(map[], providers);
  }

  /** The kernel registries' manager. `providerTypeToRegistry` holds the
      registry of each execution provider type, `customKernelRegistries`
      the registries registered directly, highest priority first. */
  class KernelRegistryManager {
    var providerTypeToRegistry: map<string, KernelRegistry?>
    var customKernelRegistries: seq<KernelRegistry?>
    var kernelTypeStrResolver: KernelTypeStrResolver

    ghost function State(): ManagerState
      reads this
    {
      ManagerState(providerTypeToRegistry, customKernelRegistries)
    }

    ghost predicate Valid()
      reads this
    {
      ValidState(State())
    }

    constructor ()
      ensures State() == ManagerState(map[], [])
      ensures Valid()
      ensures kernelTypeStrResolver == KernelTypeStrResolver(map[])
    {
      providerTypeToRegistry := map[];
      customKernelRegistries := [];
      kernelTypeStrResolver := KernelTypeStrResolver(map[]);
    }

    /** Registers the registry of every provider under its type, skipping
        providers without one; a provider type already registered is an
        error, and the providers before it stay registered. */
    method RegisterKernels(providers: seq<Provider>) returns (status: Result<()>)
      modifies this`providerTypeToRegistry
      ensures providerTypeToRegistry == AddProviders(old(providerTypeToRegistry), providers)
      ensures status.Ok? <==> NoDuplicateProvider(old(providerTypeToRegistry), providers)
      ensures old(Valid()) ==> Valid()
    {
      if Valid() {
        AddProvidersValid(State(), providers);
      }
      var i := 0;
      while i < |providers|
        invariant 0 <= i <= |providers|
        invariant AddProviders(old(providerTypeToRegistry), providers) == AddProviders(providerTypeToRegistry, providers[i..])
        invariant NoDuplicateProvider(old(providerTypeToRegistry), providers) ==
                  NoDuplicateProvider(providerTypeToRegistry, providers[i..])
      {
        var p := providers[i];
        assert providers[i..][1..] == providers[i + 1..];
        if p.providerType in providerTypeToRegistry {
          return Err("found duplicated provider " + p.providerType + " in KernelRegistryManager");
        }
        if p.registry != null {
          providerTypeToRegistry := providerTypeToRegistry[p.providerType := p.registry];
        }
        i := i + 1;
      }
      return Ok(());
    }

    /** The registry passed in has priority over everything registered
        before it; a null registry is ignored. */
    method RegisterKernelRegistry(registry: KernelRegistry?)
      modifies this`customKernelRegistries
      ensures customKernelRegistries == Pushed(old(customKernelRegistries), registry)
      ensures old(Valid()) ==> Valid()
    {
      if registry == null {
        return;
      }
      ghost var before := customKernelRegistries;
      customKernelRegistries := [registry] + customKernelRegistries;
      assert customKernelRegistries[0] == registry;
      assert forall i :: 0 <= i < |before| ==> customKernelRegistries[i + 1] == before[i];
    }

    /** Every registry that may hold kernels of `providerType`, in search
        order; no null entries when the manager holds none. */
    method GetKernelRegistriesByProviderType(providerType: string) returns (result: seq<KernelRegistry?>)
      ensures result == SearchOrder(State(), providerType)
      ensures Valid() ==> NoNulls(result)
    {
      result := [];
      var i := 0;
      while i < |customKernelRegistries|
        invariant 0 <= i <= |customKernelRegistries|
        invariant result == customKernelRegistries[..i]
      {
        result := result + [customKernelRegistries[i]];
        i := i + 1;
      }
      if providerType in providerTypeToRegistry {
        result := result + [providerTypeToRegistry[providerType]];
      }
    }

    function GetKernelTypeStrResolver(): KernelTypeStrResolver
      reads this
    {
      kernelTypeStrResolver
    }

    method SetKernelTypeStrResolver(resolver: KernelTypeStrResolver)
      modifies this`kernelTypeStrResolver
      ensures GetKernelTypeStrResolver() == resolver
    {
      kernelTypeStrResolver := resolver;
    }
  }
}

/** The table of fused multi-head attention kernels: metas keyed by sequence
    length and head size, loaded per SM version into a function table with a
    module cache, and a factory that caches one table per data type, device
    and SM version. */
module FusedMha {
  import opened Wrappers

  const TWO_32: int := 0x1_0000_0000
  const TWO_48: int := 0x1_0000_0000_0000
  const TWO_16: int := 0x1_0000

  type uint32 = x: int | 0 <= x < 0x1_0000_0000
  type uint64 = x: int | 0 <= x < 0x1_0000_0000_0000_0000

  /** SM versions from the common header. */
  const SM_80: uint32 := 80
  const SM_86: uint32 := 86

  /** Kernels using at least this much shared memory need the opt-in limit. */
  const DEFAULT_SMEM_SIZE: uint32 := 48 * 1024

  /** The key of a sequence length `s` and head size `d`: `s` in the high
      32 bits, `d` in the low 32 bits. */
  function HashId(s: uint32, d: uint32): (r: uint64)
    ensures r / TWO_32 == s && r % TWO_32 == d
  {
    s * TWO_32 + d
  }

  /** Different (s, d) pairs never share a key. */
  lemma HashIdInjective(s1: uint32, d1: uint32, s2: uint32, d2: uint32)
    ensures HashId(s1, d1) == HashId(s2, d2) <==> s1 == s2 && d1 == d2
  {
    var _ := HashId(s1, d1);
    var _ := HashId(s2, d2);
  }

  /** A 32-bit unsigned value read as a 32-bit signed one (two's complement). */
  function Int32Of(x: uint32): (r: int)
    ensures -0x8000_0000 <= r < 0x8000_0000
    ensures r % TWO_32 == x
  {
    if x < 0x8000_0000 then x else x - TWO_32
  }

  /** A 32-bit signed value converted to 32-bit unsigned (wrap-around). */
  function ToUint32(x: int): (r: uint32)
    ensures -0x8000_0000 <= x < 0x8000_0000 ==> Int32Of(r) == x
  {
    x % TWO_32
  }

  /** One compiled kernel: its data type, sequence length, head size, SM
      version, the identity of its cubin image, its function name, the shared
      memory it needs and its threads per CTA. */
  datatype KernelMeta = KernelMeta(
    dataType: int, s: uint32, d: uint32, sm: uint32,
    cubin: int, funcName: string, sharedMemBytes: uint32, threadsPerCta: uint32)

  function HashOf(meta: KernelMeta): uint64 {
    HashId(meta.s, meta.d)
  }

  /** A request to raise a device function's dynamic shared memory limit:
      the function, as the cubin of its module and its name, and the size. */
  datatype AttributeRequest = AttributeRequest(cubin: int, funcName: string, sharedMemBytes: uint32)

  /** What the CUDA driver reports on the current device: the opt-in shared
      memory per block (None when the attribute query fails) and the requests
      to raise the dynamic shared memory limit that fail. */
  datatype DeviceEnv = DeviceEnv(maxSharedMemOptin: Option<int>, attributeRejects: set<AttributeRequest>)

  function RequestOf(meta: KernelMeta): AttributeRequest {
    AttributeRequest(meta.cubin, meta.funcName, meta.sharedMemBytes)
  }

  /** A loaded module, identified by the cubin it was loaded from. */
  datatype Module = Module(cubin: int)

  /** A device function: the module it was taken from and its name. */
  datatype DeviceFunction = DeviceFunction(owner: Module, name: string)

  /** An entry of the function table: the index of its meta and its function. */
  datatype KernelInfo = KernelInfo(metaInfoIndex: nat, deviceFunction: DeviceFunction)

  /** A kernel launch: the function, the grid (heads by batch), the threads
      per CTA and the dynamic shared memory. */
  datatype Launch = Launch(func: DeviceFunction, gridX: int, gridY: int, threads: uint32, sharedMemBytes: uint32)

  /** A meta that needs the opt-in shared memory limit is skipped unless the
      device reports one at least as large as its need, read as a signed
      32-bit value. */
  predicate FitsDevice(meta: KernelMeta, env: DeviceEnv) {
    meta.sharedMemBytes < DEFAULT_SMEM_SIZE ||
    (env.maxSharedMemOptin.Some? && env.maxSharedMemOptin.value >= Int32Of(meta.sharedMemBytes))
  }

  /** Raising the function's shared memory limit succeeds, when it is needed. */
  predicate AttributeSet(meta: KernelMeta, env: DeviceEnv) {
    meta.sharedMemBytes < DEFAULT_SMEM_SIZE || RequestOf(meta) !in env.attributeRejects
  }

  /** Meta `i` is loaded when its key is still free. */
  predicate Admitted(metas: seq<KernelMeta>, i: nat, dataType: int, smVersion: uint32, env: DeviceEnv)
    requires i < |metas|
  {
    metas[i].sm == smVersion && metas[i].dataType == dataType && FitsDevice(metas[i], env) && AttributeSet(metas[i], env)
  }

  /** The key-to-meta-index table after loading the metas from index `i` on
      into table `fs`: an admitted meta whose key is free takes it. */
  function LoadFrom(fs: map<uint64, nat>, metas: seq<KernelMeta>, dataType: int, smVersion: uint32,
                    env: DeviceEnv, i: nat): map<uint64, nat>
    decreases |metas| - i
  {
    if i >= |metas| then fs
    else if Admitted(metas, i, dataType, smVersion, env) && HashOf(metas[i]) !in fs then
      LoadFrom(fs[HashOf(metas[i]) := i], metas, dataType, smVersion, env, i + 1)
    else LoadFrom(fs, metas, dataType, smVersion, env, i + 1)
  }

  /** A meta that is not admitted, or whose key is taken, changes nothing. */
  lemma LoadFromSkip(fs: map<uint64, nat>, metas: seq<KernelMeta>, dataType: int, smVersion: uint32,
                     env: DeviceEnv, i: nat)
    requires i < |metas|
    requires !Admitted(metas, i, dataType, smVersion, env) || HashOf(metas[i]) in fs
    ensures LoadFrom(fs, metas, dataType, smVersion, env, i) == LoadFrom(fs, metas, dataType, smVersion, env, i + 1)
  {
  }

  /** Loading never overwrites an entry: every key already present keeps its
      meta. */
  lemma {:induction false} LoadFromKeeps(fs: map<uint64, nat>, metas: seq<KernelMeta>, dataType: int,
                                         smVersion: uint32, env: DeviceEnv, i: nat)
    ensures var r := LoadFrom(fs, metas, dataType, smVersion, env, i);
            forall k :: k in fs ==> k in r && r[k] == fs[k]
    decreases |metas| - i
  {
    if i < |metas| {
      if Admitted(metas, i, dataType, smVersion, env) && HashOf(metas[i]) !in fs {
        var fs1 := fs[HashOf(metas[i]) := i];
        LoadFromKeeps(fs1, metas, dataType, smVersion, env, i + 1);
        assert LoadFrom(fs, metas, dataType, smVersion, env, i) == LoadFrom(fs1, metas, dataType, smVersion, env, i + 1);
        assert forall k :: k in fs ==> k in fs1 && fs1[k] == fs[k];
      } else {
        LoadFromKeeps(fs, metas, dataType, smVersion, env, i + 1);
      }
    }
  }

  /** Every new entry names an admitted meta at or after `i` with that key,
      and no admitted meta between `i` and it has that key: the first one
      wins. */
  lemma {:induction false} LoadFromFirstWins(fs: map<uint64, nat>, metas: seq<KernelMeta>, dataType: int,
                                             smVersion: uint32, env: DeviceEnv, i: nat)
    ensures var r := LoadFrom(fs, metas, dataType, smVersion, env, i);
            forall k :: k in r && k !in fs ==>
              && i <= r[k] < |metas| && Admitted(metas, r[k], dataType, smVersion, env) && HashOf(metas[r[k]]) == k
              && forall j :: i <= j < r[k] && Admitted(metas, j, dataType, smVersion, env) ==> HashOf(metas[j]) != k
    decreases |metas| - i
  {
    if i < |metas| {
      var r := LoadFrom(fs, metas, dataType, smVersion, env, i);
      if Admitted(metas, i, dataType, smVersion, env) && HashOf(metas[i]) !in fs {
        var fs' := fs[HashOf(metas[i]) := i];
        LoadFromFirstWins(fs', metas, dataType, smVersion, env, i + 1);
        LoadFromKeeps(fs', metas, dataType, smVersion, env, i + 1);
      } else {
        LoadFromFirstWins(fs, metas, dataType, smVersion, env, i + 1);
        forall k | k in r && k !in fs && HashOf(metas[i]) == k
          ensures !Admitted(metas, i, dataType, smVersion, env)
        {
        }
      }
    }
  }

  /** Every admitted meta at or after `i` finds its key taken afterwards. */
  lemma {:induction false} LoadFromComplete(fs: map<uint64, nat>, metas: seq<KernelMeta>, dataType: int,
                                            smVersion: uint32, env: DeviceEnv, i: nat)
    ensures var r := LoadFrom(fs, metas, dataType, smVersion, env, i);
            forall j :: i <= j < |metas| && Admitted(metas, j, dataType, smVersion, env) ==> HashOf(metas[j]) in r
    decreases |metas| - i
  {
    if i < |metas| {
      var fs' := if Admitted(metas, i, dataType, smVersion, env) && HashOf(metas[i]) !in fs
                 then fs[HashOf(metas[i]) := i] else fs;
      assert LoadFrom(fs, metas, dataType, smVersion, env, i) == LoadFrom(fs', metas, dataType, smVersion, env, i + 1);
      assert Admitted(metas, i, dataType, smVersion, env) ==> HashOf(metas[i]) in fs';
      LoadFromComplete(fs', metas, dataType, smVersion, env, i + 1);
      LoadFromKeeps(fs', metas, dataType, smVersion, env, i + 1);
    }
  }

  /** The key-to-meta-index view of a function table. */
  ghost function IndexMap(functions: map<uint64, KernelInfo>): map<uint64, nat> {
    map k | k in functions :: functions[k].metaInfoIndex
  }

  /** The table after the no-argument load on an empty table: the kernels of
      the table's own SM, then, on SM 86, those of SM 80 for the keys still
      free. */
  function LoadAllFrom(metas: seq<KernelMeta>, dataType: int, sm: uint32, env: DeviceEnv): map<uint64, nat> {
    var own := LoadFrom(map[], metas, dataType, sm, env, 0);
    if sm == SM_86 then LoadFrom(own, metas, dataType, SM_80, env, 0) else own
  }

  /** On SM 86 the SM 86 kernels take precedence: every key an SM 86 kernel
      was loaded for keeps it, and the SM 80 kernels fill only the other keys. */
  lemma Sm86Preferred(metas: seq<KernelMeta>, dataType: int, env: DeviceEnv)
    ensures var own := LoadFrom(map[], metas, dataType, SM_86, env, 0);
            var all := LoadAllFrom(metas, dataType, SM_86, env);
            && (forall k :: k in own ==> k in all && all[k] == own[k] && all[k] < |metas| && metas[all[k]].sm == SM_86)
            && (forall k :: k in all && k !in own ==> all[k] < |metas| && metas[all[k]].sm == SM_80)
  {
    var own := LoadFrom(map[], metas, dataType, SM_86, env, 0);
    LoadFromFirstWins(map[], metas, dataType, SM_86, env, 0);
    LoadFromKeeps(own, metas, dataType, SM_80, env, 0);
    LoadFromFirstWins(own, metas, dataType, SM_80, env, 0);
  }

  /** A value snapshot of a kernel table's mutable state. */
  datatype Table = Table(modules: map<int, Module>, functions: map<uint64, KernelInfo>,
                         validSequences: set<int>, moduleLoads: seq<int>)

  /** The sequence length, as a signed 32-bit value, of the meta of `info`. */
  function SequenceOf(metas: seq<KernelMeta>, info: KernelInfo): int {
    if info.metaInfoIndex < |metas| then Int32Of(metas[info.metaInfoIndex].s) else 0
  }

  /** Entry `info` under `key` names a meta of `dataType` with that key, and
      the function of that meta in the module of its cubin. */
  ghost predicate EntryValid(metas: seq<KernelMeta>, dataType: int, modules: map<int, Module>,
                             key: uint64, info: KernelInfo)
  {
    var idx := info.metaInfoIndex;
    && idx < |metas| && HashOf(metas[idx]) == key && metas[idx].dataType == dataType
    && metas[idx].cubin in modules
    && info.deviceFunction == DeviceFunction(modules[metas[idx].cubin], metas[idx].funcName)
  }

  /** The module cache holds exactly the cubins loaded, each loaded once. */
  ghost predicate ModulesValid(modules: map<int, Module>, moduleLoads: seq<int>) {
    && NoDup(moduleLoads)
    && (forall c :: c in modules <==> c in moduleLoads)
    && (forall c :: c in modules ==> modules[c] == Module(c))
  }

  /** The valid sequence lengths are those of the loaded metas. */
  ghost predicate SequencesValid(metas: seq<KernelMeta>, functions: map<uint64, KernelInfo>, validSequences: set<int>) {
    forall x :: x in validSequences <==> exists k :: k in functions && SequenceOf(metas, functions[k]) == x
  }

  ghost predicate TableValid(metas: seq<KernelMeta>, dataType: int, t: Table) {
    && (forall k :: k in t.functions ==> EntryValid(metas, dataType, t.modules, k, t.functions[k]))
    && SequencesValid(metas, t.functions, t.validSequences)
    && ModulesValid(t.modules, t.moduleLoads)
  }

  /** Looking up a cubin, loading it when it is not cached, keeps the table valid. */
  lemma LoadModuleValid(metas: seq<KernelMeta>, dataType: int, t: Table, cubin: int)
    requires TableValid(metas, dataType, t)
    ensures cubin !in t.modules ==>
              TableValid(metas, dataType, t.(modules := t.modules[cubin := Module(cubin)],
                                             moduleLoads := t.moduleLoads + [cubin]))
  {
    if cubin !in t.modules {
      var m := t.modules[cubin := Module(cubin)];
      forall k | k in t.functions ensures EntryValid(metas, dataType, m, k, t.functions[k]) {
        assert EntryValid(metas, dataType, t.modules, k, t.functions[k]);
      }
    }
  }

  /** Adding a valid entry under a free key, with its sequence length, keeps
      the table valid. */
  lemma AddEntryValid(metas: seq<KernelMeta>, dataType: int, t: Table, key: uint64, info: KernelInfo)
    requires TableValid(metas, dataType, t) && key !in t.functions
    requires EntryValid(metas, dataType, t.modules, key, info)
    ensures TableValid(metas, dataType, t.(functions := t.functions[key := info],
                                           validSequences := t.validSequences + {SequenceOf(metas, info)}))
  {
    var fs := t.functions[key := info];
    var sq := SequenceOf(metas, info);
    assert SequenceOf(metas, fs[key]) == sq;
    forall x ensures x in t.validSequences + {sq} <==> exists k :: k in fs && SequenceOf(metas, fs[k]) == x {
      if x in t.validSequences && x != sq {
        var k :| k in t.functions && SequenceOf(metas, t.functions[k]) == x;
        assert k in fs && fs[k] == t.functions[k];
      }
      if exists k :: k in fs && SequenceOf(metas, fs[k]) == x {
        var k :| k in fs && SequenceOf(metas, fs[k]) == x;
        if k != key {
          assert k in t.functions && SequenceOf(metas, t.functions[k]) == x;
        }
      }
    }
  }

  lemma IndexMapAdd(functions: map<uint64, KernelInfo>, key: uint64, info: KernelInfo)
    ensures IndexMap(functions[key := info]) == IndexMap(functions)[key := info.metaInfoIndex]
  {
  }

  /** The function table of one data type and SM version. */
  class FusedMhaKernel {
    const dataType: int
    const metas: seq<KernelMeta>
    const sm: uint32
    var modules: map<int, Module>
    var functions: map<uint64, KernelInfo>
    var validSequences: set<int>
    /** The cubins loaded as modules, in load order. */
    ghost var moduleLoads: seq<int>

    ghost function State(): Table
      reads this
    {
      Table(modules, functions, validSequences, moduleLoads)
    }

    /** Every entry names the meta it was loaded from under that meta's key,
        with the function of that meta in the module of its cubin; the valid
        sequence lengths are those of the loaded metas; each cubin was loaded
        at most once, and the cache holds exactly the loaded ones. */
    ghost predicate Valid()
      reads this
    {
      TableValid(metas, dataType, State())
    }

    constructor (metas: seq<KernelMeta>, dataType: int, sm: uint32)
      ensures this.metas == metas && this.dataType == dataType && this.sm == sm
      ensures functions == map[] && modules == map[] && validSequences == {} && moduleLoads == []
      ensures Valid()
    {
      this.metas := metas;
      this.dataType := dataType;
      this.sm := sm;
      modules := map[];
      functions := map[];
      validSequences := {};
      moduleLoads := [];
    }

    /** Loads every meta of SM `smVersion` and the table's data type whose
        key is still free, skipping those the device cannot give enough
        shared memory. */
    method LoadXmmaKernelsFor(smVersion: uint32, env: DeviceEnv)
      requires Valid()
      modifies this`modules, this`functions, this`validSequences, this`moduleLoads
      ensures Valid()
      ensures IndexMap(functions) == LoadFrom(IndexMap(old(functions)), metas, dataType, smVersion, env, 0)
      ensures forall k :: k in old(functions) ==> k in functions && functions[k] == old(functions)[k]
      ensures old(moduleLoads) <= moduleLoads
      ensures forall c :: c in old(modules) ==> c in modules && modules[c] == old(modules)[c]
    {
      ghost var f0, m0, l0 := functions, modules, moduleLoads;
      for i := 0 to |metas|
        invariant Valid()
        invariant LoadFrom(IndexMap(functions), metas, dataType, smVersion, env, i) ==
                  LoadFrom(IndexMap(f0), metas, dataType, smVersion, env, 0)
        invariant forall k :: k in f0 ==> k in functions && functions[k] == f0[k]
        invariant l0 <= moduleLoads
        invariant forall c :: c in m0 ==> c in modules && modules[c] == m0[c]
      {
        LoadMeta(i, smVersion, env);
      }
    }

    /** One iteration of the load: meta `i` takes its key when it is of
        the SM and data type asked for, its key is free, and the device can
        give it the shared memory it needs. */
    method LoadMeta(i: nat, smVersion: uint32, env: DeviceEnv)
      requires Valid() && i < |metas|
      modifies this`modules, this`functions, this`validSequences, this`moduleLoads
      ensures Valid()
      ensures LoadFrom(IndexMap(functions), metas, dataType, smVersion, env, i + 1) ==
              LoadFrom(IndexMap(old(functions)), metas, dataType, smVersion, env, i)
      ensures forall k :: k in old(functions) ==> k in functions && functions[k] == old(functions)[k]
      ensures old(moduleLoads) <= moduleLoads
      ensures forall c :: c in old(modules) ==> c in modules && modules[c] == old(modules)[c]
    {
      var meta := metas[i];
      var key := HashOf(meta);
      ghost var fs := IndexMap(functions);
      assert key in functions <==> key in fs;
      if meta.sm == smVersion && meta.dataType == dataType && key !in functions {
        if meta.sharedMemBytes >= DEFAULT_SMEM_SIZE {
          if env.maxSharedMemOptin.None? || env.maxSharedMemOptin.value < Int32Of(meta.sharedMemBytes) {
            // not enough shared memory to launch the kernel
            LoadFromSkip(fs, metas, dataType, smVersion, env, i);
            return;
          }
        }
        var hmod := LoadModule(meta.cubin);
        var info := KernelInfo(i, DeviceFunction(hmod, meta.funcName));
        if meta.sharedMemBytes >= DEFAULT_SMEM_SIZE && RequestOf(meta) in env.attributeRejects {
          // the dynamic shared memory limit could not be raised
          LoadFromSkip(fs, metas, dataType, smVersion, env, i);
          return;
        }
        assert Admitted(metas, i, dataType, smVersion, env);
        AddFunction(key, info);
        assert IndexMap(functions) == fs[key := i];
      } else {
        LoadFromSkip(fs, metas, dataType, smVersion, env, i);
      }
    }

    /** The module of `cubin`: the cached one, or a newly loaded one. */
    method LoadModule(cubin: int) returns (hmod: Module)
      requires Valid()
      modifies this`modules, this`moduleLoads
      ensures Valid()
      ensures hmod == Module(cubin) && cubin in modules
      ensures forall c :: c in old(modules) ==> c in modules && modules[c] == old(modules)[c]
      ensures moduleLoads == if cubin in old(modules) then old(moduleLoads) else old(moduleLoads) + [cubin]
    {
      LoadModuleValid(metas, dataType, State(), cubin);
      if cubin in modules {
        hmod := modules[cubin];
      } else {
        hmod := Module(cubin);
        modules := modules[cubin := hmod];
        moduleLoads := moduleLoads + [cubin];
      }
    }

    /** Records `info` under the free key `key`, and its meta's sequence
        length as valid. */
    method AddFunction(key: uint64, info: KernelInfo)
      requires Valid() && key !in functions
      requires EntryValid(metas, dataType, modules, key, info)
      modifies this`functions, this`validSequences
      ensures Valid()
      ensures functions == old(functions)[key := info]
      ensures IndexMap(functions) == IndexMap(old(functions))[key := info.metaInfoIndex]
    {
      AddEntryValid(metas, dataType, State(), key, info);
      IndexMapAdd(functions, key, info);
      functions := functions[key := info];
      var s := Int32Of(metas[info.metaInfoIndex].s);
      if s !in validSequences {
        validSequences := validSequences + {s};
      }
      assert validSequences == old(validSequences) + {SequenceOf(metas, info)};
    }

    /** Loads the table once: nothing happens when it already holds
        functions; otherwise the kernels of the table's SM are loaded, and on
        SM 86 then those of SM 80 for the keys still free. */
    method LoadXmmaKernels(env: DeviceEnv)
      requires Valid()
      modifies this`modules, this`functions, this`validSequences, this`moduleLoads
      ensures Valid()
      ensures old(functions) != map[] ==> unchanged(this)
      ensures old(functions) == map[] ==> IndexMap(functions) == LoadAllFrom(metas, dataType, sm, env)
      ensures old(moduleLoads) <= moduleLoads
      ensures forall c :: c in old(modules) ==> c in modules && modules[c] == old(modules)[c]
    {
      if functions != map[] {
        return;
      }
      assert IndexMap(functions) == map[];
      LoadXmmaKernelsFor(sm, env);
      if sm == SM_86 {
        LoadXmmaKernelsFor(SM_80, env);
      }
    }

    /** Whether a kernel was loaded for sequence length `s`. */
    function IsValid(s: int): (b: bool)
      reads this
      ensures Valid() ==> (b <==> exists k :: k in functions && Int32Of(metas[functions[k].metaInfoIndex].s) == s)
    {
      s in validSequences
    }

    /** Launches the kernel of the parameters' sequence length and head size;
        it is an error when none was loaded. The launched function is the one
        of a meta with exactly that sequence length and head size. */
    method Run(s: int, d: int, h: int, b: int) returns (r: Result<Launch>)
      requires Valid()
      ensures r.Ok? <==> HashId(ToUint32(s), ToUint32(d)) in functions
      ensures r.Ok? ==>
                var idx := functions[HashId(ToUint32(s), ToUint32(d))].metaInfoIndex;
                && idx < |metas| && metas[idx].s == ToUint32(s) && metas[idx].d == ToUint32(d)
                && r.value == Launch(functions[HashId(ToUint32(s), ToUint32(d))].deviceFunction, h, b,
                                     metas[idx].threadsPerCta, metas[idx].sharedMemBytes)
    {
      var key := HashId(ToUint32(s), ToUint32(d));
      if key !in functions {
        return Err("fused attention kernel not found");
      }
      var info := functions[key];
      var meta := metas[info.metaInfoIndex];
      HashIdInjective(meta.s, meta.d, ToUint32(s), ToUint32(d));
      return Ok(Launch(info.deviceFunction, h, b, meta.threadsPerCta, meta.sharedMemBytes));
    }
  }

  /** The factory's key: the data type in bits 48 and up, the device id in
      bits 32 to 47 and the SM version in the low 32 bits; the device id and
      the data type must fit in 16 bits, and a failed device query is an
      error. */
  function FactoryHashId(dataType: int, device: Result<int>, sm: uint32): (r: Result<uint64>)
    ensures r.Ok? <==> device.Ok? && 0 <= device.value < TWO_16 && 0 <= dataType < TWO_16
    ensures r.Ok? ==> r.value / TWO_48 == dataType && (r.value / TWO_32) % TWO_16 == device.value
                      && r.value % TWO_32 == sm
  {
    if device.Err? then Err(device.message)
    else if !(0 <= device.value < TWO_16) then Err("device id does not fit in 16 bits")
    else if !(0 <= dataType < TWO_16) then Err("data type does not fit in 16 bits")
    else PackedKeyFields(dataType, device.value, sm); Ok(dataType * TWO_48 + device.value * TWO_32 + sm)
  }

  /** Bits 48 and up, 32 to 47 and 0 to 31 of the packed key hold the three
      fields. */
  lemma PackedKeyFields(a: int, b: int, c: uint32)
    requires 0 <= a < TWO_16 && 0 <= b < TWO_16
    ensures var r := a * TWO_48 + b * TWO_32 + c;
            && 0 <= r < 0x1_0000_0000_0000_0000
            && r / TWO_48 == a && (r / TWO_32) % TWO_16 == b && r % TWO_32 == c
  {
    var low := b * TWO_32 + c;
    assert 0 <= low < TWO_48;
    var r := a * TWO_48 + low;
    assert r / TWO_48 == a;
    assert r / TWO_32 == a * TWO_16 + b;
  }

  /** Distinct (data type, device, SM) triples get distinct factory keys. */
  lemma FactoryHashIdInjective(t1: int, dev1: int, sm1: uint32, t2: int, dev2: int, sm2: uint32)
    requires FactoryHashId(t1, Ok(dev1), sm1).Ok? && FactoryHashId(t2, Ok(dev2), sm2).Ok?
    ensures FactoryHashId(t1, Ok(dev1), sm1) == FactoryHashId(t2, Ok(dev2), sm2) <==>
            t1 == t2 && dev1 == dev2 && sm1 == sm2
  {
  }

  /** One kernel table per factory key, created and loaded on first use. */
  class FusedMhaKernelFactory {
    var kernels: map<uint64, FusedMhaKernel>

    /** Every cached table is valid, and its data type and SM are the ones
        its key encodes. */
    ghost predicate Valid()
      reads this, kernels.Values
    {
      forall k :: k in kernels ==>
        && kernels[k].Valid() && kernels[k].dataType == k / TWO_48 && kernels[k].sm == k % TWO_32
    }

    constructor ()
      ensures kernels == map[]
      ensures Valid()
    {
      kernels := map[];
    }

    /** The table of `dataType` and `sm` on the current device: the cached
        one when its key is present (whatever `metas` is then), otherwise a
        new table of `metas`, loaded and recorded under the key. */
    method GetXmmaKernels(metas: seq<KernelMeta>, dataType: int, sm: uint32, device: Result<int>, env: DeviceEnv)
      returns (r: Result<FusedMhaKernel>)
      requires Valid()
      modifies this`kernels
      ensures Valid()
      ensures r.Ok? ==> r.value in kernels.Values && r.value.Valid() && r.value.dataType == dataType && r.value.sm == sm
      ensures r.Ok? <==> FactoryHashId(dataType, device, sm).Ok?
      ensures r.Err? ==> kernels == old(kernels)
      ensures r.Ok? && FactoryHashId(dataType, device, sm).value in old(kernels) ==>
                r.value == old(kernels)[FactoryHashId(dataType, device, sm).value] && kernels == old(kernels)
      ensures r.Ok? && FactoryHashId(dataType, device, sm).value !in old(kernels) ==>
                && fresh(r.value)
                && kernels == old(kernels)[FactoryHashId(dataType, device, sm).value := r.value]
                && r.value.Valid() && r.value.metas == metas && r.value.dataType == dataType && r.value.sm == sm
                && IndexMap(r.value.functions) == LoadAllFrom(metas, dataType, sm, env)
    {
      var id := FactoryHashId(dataType, device, sm);
      if id.Err? {
        return Err(id.message);
      }
      if id.value !in kernels {
        var newKernel := new FusedMhaKernel(metas, dataType, sm);
        newKernel.LoadXmmaKernels(env);
        kernels := kernels[id.value := newKernel];
        assert kernels[id.value] == newKernel;
        return Ok(newKernel);
      }
      return Ok(kernels[id.value]);
    }
  }
}

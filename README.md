# A verified model of four pieces of ONNX Runtime bookkeeping

This project models four sequential parts of ONNX Runtime in Dafny, and proves their contracts:

- **Partial graph execution state** (`partial_execution.dfy`, module `PartialExecution`).
  - Training runs a graph in pieces, one program-counter window `[start_pc, end_pc)` at a time.
  - The state caches one *program region* per window. A region is a half-open range of step indices per logic stream, found by two forward scans of each stream's `step_pc`.
  - The state acquires the device stream collection lazily, once.
  - It creates the execution context on the first call and only rebinds feeds, fetches and logger afterwards.
- **Constant sharing** (`constant_sharing.dfy`, module `ConstantSharing`).
  - This graph optimizer pass replaces single-value constant initializers (rank 0, or rank 1 with one element) of the supported types with shared `ortshared_` initializers.
  - Equal values are interned in a constant store.
  - There is one shared initializer per pattern key, built from the value id, the data type field and the rank.
  - The pass rewires the consumers' input slots and keeps the consumer lists consistent.
- **Kernel registry manager** (`kernel_registry.dfy`, module `KernelRegistries`).
  - Custom kernel registries are searched before the registry of an execution provider type, the most recently registered first.
  - The manager also holds the kernel type string resolver.
- **Fused multi-head attention kernel table** (`fused_mha.dfy`, module `FusedMha`).
  - Kernels are keyed by sequence length and head size.
  - They are loaded per SM version, first match wins, through a module cache, and the valid sequence lengths are recorded.
  - On SM 86, missing kernels are taken from SM 80.
  - Launches look kernels up by their key.
  - A factory caches one table per data type, device and SM version.

`wrappers.dfy` holds `Option` (nullable pointers, missing entries) and `Result` (a status, or an `ORT_ENFORCE` that throws).

State the source updates in place is a `class`:
- `PartialGraphExecutionState`;
- `ExecutionContext`;
- `Graph`;
- `KernelRegistryManager`;
- `FusedMhaKernel` and `FusedMhaKernelFactory`.

Loops stay loops, with their invariants. Each class has a value snapshot (`GraphState`, `ManagerState`, `Table`) and a validity predicate over it. The methods are proved against reference functions on those values:
- `Resolve`/`ComputeRegion`;
- `PortsUpTo`/`FirstImplicitUse`;
- `AddProviders`/`SearchOrder`;
- `LoadFrom`/`LoadAllFrom`.

What the source promises is proved about those functions as lemmas.

The constant sharing pass is proved by a loop invariant, `PassProgress`. It says that, relative to the original graph:
- every input slot either is unchanged or names a fresh shared initializer that holds the same store value at the same rank as the initializer the slot named before (the store value of a FLOAT16 tensor is the float it widens to, so a slot may move between FLOAT and FLOAT16 tensors);
- every use of a rewritten initializer by a node on its consumer list has moved (`UsesRewired`);
- initializers the pass does not rewrite keep their tensor and consumers;
- the shared initializers are distinct per key, fresh and "ortshared_"-prefixed;
- the constant store has no duplicates, so no two shared initializers hold the same store value at the same rank (`PatternsDistinct`); `EqualValuesShared` puts these together: listed uses of two rewritable initializers with equal value and rank end up naming one shared initializer.

The pattern key's data type is the literal `-1` in the source (constant_sharing.cc line 173 sets it and nothing changes it). FLOAT16 values are widened to float before interning. So a FLOAT and a FLOAT16 scalar of equal value and rank share a key, which the model keeps as written (`Float16SharesKeyWithFloat`).

## Model

| member | source | states |
|---|---|---|
| PartialExecution.ScanFrom | onnxruntime/core/framework/partial_graph_execution_state.cc:25-34 | the scan from `cur` stops at or after `cur`, every index it skips has a pc below the bound, and the index it stops at (when inside the stream) has a pc at or above it |
| PartialExecution.StreamRange | onnxruntime/core/framework/partial_graph_execution_state.cc:24-35 | a stream's pair `(start, end)` satisfies `start <= end <= |step_pc|`; steps below `start` have pc below `start_pc`; steps in `[start, end)` have pc below `end_pc`; the stop positions are at or above the bounds; `start_pc >= end_pc` gives an empty range |
| PartialExecution.StreamRangeExact | onnxruntime/core/framework/partial_graph_execution_state.cc:25-34 | for a sorted `step_pc`, step `k` is in `[start, end)` if and only if its pc lies in `[start_pc, end_pc)` |
| PartialExecution.ComputeRegionShape | onnxruntime/core/framework/partial_graph_execution_state.cc:20-36 | a new region carries the requested counters and one pair per stream in plan order, each within its stream, all empty when `start_pc >= end_pc` |
| PartialExecution.TwoStreamExample | onnxruntime/core/framework/partial_graph_execution_state.cc:24-36 | the ranges computed for a two-stream plan over three pc windows, including an empty window |
| PartialExecution.FindRegion | onnxruntime/core/framework/partial_graph_execution_state.cc:11-14 | the first cached region whose `start_pc`/`end_pc` equal the counters, and None exactly when no cached region matches |
| PartialExecution.Resolve | onnxruntime/core/framework/partial_graph_execution_state.cc:11-38 | the region returned covers the counters, and the cache is either unchanged or grown by exactly that region at its end |
| PartialExecution.ResolveIdempotent | onnxruntime/core/framework/partial_graph_execution_state.cc:11-38 | after one lookup the range is cached, and a second lookup with the same counters returns the same region and leaves the cache as the first left it |
| PartialExecution.ResolveMatchesComputation | onnxruntime/core/framework/partial_graph_execution_state.cc:9-38 | on a cache whose regions were all computed from the plan, the region returned equals the one computed from scratch and the cache stays that way |
| PartialExecution.ValidStreamCount | onnxruntime/core/framework/partial_graph_execution_state.cc:68-72 | the number of valid streams is at most the number of stream slots |
| PartialExecution.ValidStreamCountIsCardinality | onnxruntime/core/framework/partial_graph_execution_state.cc:68-72 | the count equals the number of slots holding a stream with at least one step |
| PartialExecution.DeviceStreamCollection.constructor | onnxruntime/core/framework/partial_graph_execution_state.cc:46 | a collection records how many device streams it holds |
| PartialExecution.SessionState.constructor | onnxruntime/core/framework/partial_graph_execution_state.cc:18 | the session holds the execution plan the state reads |
| PartialExecution.SessionState.AcquireDeviceStreamCollection | onnxruntime/core/framework/partial_graph_execution_state.cc:46 | a new collection with one device stream per logic stream of the plan |
| PartialExecution.ExecutionContext.constructor | onnxruntime/core/framework/partial_graph_execution_state.cc:74-87 | the context holds exactly the arguments it was created with |
| PartialExecution.ExecutionContext.UpdateFeeds | onnxruntime/core/framework/partial_graph_execution_state.cc:89 | the feed indices and feeds become the given ones, nothing else changes |
| PartialExecution.ExecutionContext.UpdateFetches | onnxruntime/core/framework/partial_graph_execution_state.cc:90 | the fetch indices and fetches become the given ones, nothing else changes |
| PartialExecution.ExecutionContext.SetLogger | onnxruntime/core/framework/partial_graph_execution_state.cc:91 | the logger becomes the given one, nothing else changes |
| PartialExecution.PartialGraphExecutionState.constructor | onnxruntime/core/framework/partial_graph_execution_state.cc:45-65 | a new state holds the two counters, no cached region, no stream collection and no context; the constructor is in the header, which is not part of this model, and the null start is read off the null checks at lines 45 and 65 |
| PartialExecution.PartialGraphExecutionState.GetProgramRegions | onnxruntime/core/framework/partial_graph_execution_state.cc:9-38 | on a hit, the first matching cached region is returned and the cache is unchanged; on a miss, the region computed by the two scans is appended and returned |
| PartialExecution.PartialGraphExecutionState.GetDeviceStreamCollection | onnxruntime/core/framework/partial_graph_execution_state.cc:44-57 | the collection is acquired only while absent, at most once over the life of the state, and the same collection is returned afterwards |
| PartialExecution.PartialGraphExecutionState.GetExecutionContext | onnxruntime/core/framework/partial_graph_execution_state.cc:59-95 | the first call creates a context with the valid-stream count, the plan's notification owners and barrier count, and single-threaded execution; later calls return the same context; after every call its feeds, fetches and logger are the given ones |
| ConstantSharing.IsSupportedDataType | onnxruntime/core/optimizer/constant_sharing.cc:15-26 | true exactly for FLOAT, INT32, INT64, FLOAT16 and DOUBLE |
| ConstantSharing.IsValidSingleValueShape | onnxruntime/core/optimizer/constant_sharing.cc:28-34 | false for a missing shape; otherwise true exactly for rank 0, or rank 1 whose one dimension is the known value 1 |
| ConstantSharing.SharedInitializerMeansPrefixed | onnxruntime/core/optimizer/constant_sharing.cc:36-39 | a name is a shared initializer name if and only if it is "ortshared_" followed by something |
| ConstantSharing.StartsWithTransitive | onnxruntime/core/optimizer/constant_sharing.cc:36-39 | a name that starts with a name starting with the prefix starts with the prefix |
| ConstantSharing.ScalarOf | onnxruntime/core/optimizer/constant_sharing.cc:100-130 | the store value of a tensor: defined exactly for the supported types, with FLOAT and FLOAT16 read as a float, DOUBLE as a double, INT32 and INT64 as their integers |
| ConstantSharing.GetOrAddValueIntoConstantStore | onnxruntime/core/optimizer/constant_sharing.cc:121-138 | the id names the value in the new store; existing entries are kept; a present value gives its first position and an unchanged store; an absent one is appended at the old length |
| ConstantSharing.Float16SharesKeyWithFloat | onnxruntime/core/optimizer/constant_sharing.cc:126-130 | a FLOAT16 tensor and a FLOAT tensor holding the same float give the same store value |
| ConstantSharing.KeyName | onnxruntime/core/optimizer/constant_sharing.cc:197-199 | the printed pattern key starts with "ortshared_" |
| ConstantSharing.FreshName | onnxruntime/core/optimizer/constant_sharing.cc:205 | the generated node arg name is unused and starts with the pattern key |
| ConstantSharing.Without | onnxruntime/core/optimizer/constant_sharing.cc:85 | removing consumers keeps exactly the others, never lengthens the list and keeps it duplicate-free |
| ConstantSharing.WithoutNothing | onnxruntime/core/optimizer/constant_sharing.cc:85 | removing no consumer leaves the list as it is |
| ConstantSharing.WithoutTwice | onnxruntime/core/optimizer/constant_sharing.cc:85 | removing two sets of consumers one after the other removes their union |
| ConstantSharing.Graph.GetConstantInitializer | onnxruntime/core/optimizer/constant_sharing.cc:175-177 | a tensor is returned exactly for an initializer no graph input can override, and it is that initializer |
| ConstantSharing.Graph.ReplaceNodeInput | onnxruntime/core/optimizer/constant_sharing.cc:82-84 | one input slot of one node names the new arg, nothing else changes |
| ConstantSharing.Graph.RemoveConsumerNode | onnxruntime/core/optimizer/constant_sharing.cc:85 | the node leaves the consumer list of the arg, nothing else changes |
| ConstantSharing.Graph.AddConsumerNode | onnxruntime/core/optimizer/constant_sharing.cc:88-91 | the node is appended to the consumer list of the arg, nothing else changes |
| ConstantSharing.Graph.RemoveInitializedTensor | onnxruntime/core/optimizer/constant_sharing.cc:95-97 | the initializer is removed, nothing else changes |
| ConstantSharing.Graph.AddInitializer | onnxruntime/core/optimizer/constant_sharing.cc:204-207 | the tensor is added as an initializer and a node arg under the given name |
| ConstantSharing.PortsUpTo | onnxruntime/core/optimizer/constant_sharing.cc:61-65 | the recorded ports are exactly the input indices naming the arg, in ascending order |
| ConstantSharing.PortsUpToFrame | onnxruntime/core/optimizer/constant_sharing.cc:61-65 | the ports depend only on which slots name the arg |
| ConstantSharing.FirstImplicitUse | onnxruntime/core/optimizer/constant_sharing.cc:47-57 | the position of the first consumer using the arg as an implicit input (the list length when none does), with no earlier consumer using it |
| ConstantSharing.FirstImplicitUseFrame | onnxruntime/core/optimizer/constant_sharing.cc:47-57 | the position depends only on the consumers' implicit inputs |
| ConstantSharing.FirstImplicitUseAt | onnxruntime/core/optimizer/constant_sharing.cc:47-57 | a consumer using the arg implicitly with no earlier one doing so is the first implicit use |
| ConstantSharing.FirstImplicitUseNone | onnxruntime/core/optimizer/constant_sharing.cc:47-57 | when no consumer uses the arg implicitly, the scan runs to the end of the list |
| ConstantSharing.NotInEarlierPrefix | onnxruntime/core/optimizer/constant_sharing.cc:47 | in a duplicate-free consumer list a consumer does not occur before its own position |
| ConstantSharing.ExtendStep | onnxruntime/core/optimizer/constant_sharing.cc:63 | appending a port to a consumer's entry equals recording its ports with that port added |
| ConstantSharing.PortMapStep | onnxruntime/core/optimizer/constant_sharing.cc:47-66 | recording one more consumer's ports extends the port map of the consumers scanned so far |
| ConstantSharing.UsesAsImplicitInput | onnxruntime/core/optimizer/constant_sharing.cc:48-53 | true exactly when the arg is among the node's implicit inputs |
| ConstantSharing.CollectInputPorts | onnxruntime/core/optimizer/constant_sharing.cc:61-65 | the consumer's entry holds its ports naming the arg, other entries are unchanged |
| ConstantSharing.PrepareInputPortsToReplace | onnxruntime/core/optimizer/constant_sharing.cc:41-69 | true exactly when some consumer uses the arg implicitly; the map holds exactly the consumers before the first such one that use the arg, each with all its ports naming the arg in ascending order |
| ConstantSharing.ConsumerListValid | onnxruntime/core/optimizer/constant_sharing.cc:43 | a consumer list in a well-formed graph is duplicate-free and names existing nodes |
| ConstantSharing.ScanConsumers | onnxruntime/core/optimizer/constant_sharing.cc:47-66 | the consumer loop finds a subgraph use exactly at the first implicit use and leaves the port map of the consumers before it |
| ConstantSharing.ReplacePorts | onnxruntime/core/optimizer/constant_sharing.cc:82-84 | replacing ports keeps the number of inputs |
| ConstantSharing.RewireNode | onnxruntime/core/optimizer/constant_sharing.cc:82-84 | the node's recorded ports name the shared arg, every other node is unchanged |
| ConstantSharing.ReplacePortsNone | onnxruntime/core/optimizer/constant_sharing.cc:82-84 | no recorded port leaves the inputs unchanged |
| ConstantSharing.ReplacePortsStep | onnxruntime/core/optimizer/constant_sharing.cc:82-84 | replacing one more port updates exactly that slot |
| ConstantSharing.MoveConsumer | onnxruntime/core/optimizer/constant_sharing.cc:85-91 | the node leaves the origin's consumers and joins the shared arg's consumers at the end unless already there; no other list changes |
| ConstantSharing.RewiredNothing | onnxruntime/core/optimizer/constant_sharing.cc:77-92 | before the loop nothing is rewired |
| ConstantSharing.MoveKeepsWellFormed | onnxruntime/core/optimizer/constant_sharing.cc:85-91 | moving a consumer keeps every consumer list duplicate-free and naming existing nodes |
| ConstantSharing.RewireStep | onnxruntime/core/optimizer/constant_sharing.cc:77-92 | one iteration of the replacement loop extends the rewired set by its node |
| ConstantSharing.RewiredNodesGrow | onnxruntime/core/optimizer/constant_sharing.cc:79-84 | rewiring one more node keeps the rewired nodes rewired and the others as they were |
| ConstantSharing.SharedListGrows | onnxruntime/core/optimizer/constant_sharing.cc:88-91 | the shared arg's consumer list gains the node only at its end, at most once |
| ConstantSharing.RewireConsumers | onnxruntime/core/optimizer/constant_sharing.cc:77-92 | every node in the map is rewired and moved to the shared arg's consumers; no other node, list or initializer changes; the graph stays well-formed |
| ConstantSharing.ReplaceInputsToUseSharedInitializer | onnxruntime/core/optimizer/constant_sharing.cc:72-98 | every recorded port names the shared arg, each node moved from the origin's consumers to the shared arg's exactly once, and the origin initializer removed if and only if its consumer list ends up empty |
| ConstantSharing.PortMapEmpty | onnxruntime/core/optimizer/constant_sharing.cc:185-189 | the port map is empty exactly when no consumer before the first implicit use names the arg among its inputs |
| ConstantSharing.RewiredByPortMap | onnxruntime/core/optimizer/constant_sharing.cc:77-92 | rewiring the nodes of the port map moves every changed slot from the origin to the shared arg |
| ConstantSharing.GetOrCreateSharedArg | onnxruntime/core/optimizer/constant_sharing.cc:201-209 | a known key gives its recorded shared arg with the graph unchanged; a new key adds a copy of the tensor under a fresh "ortshared_" name and records it |
| ConstantSharing.StepFrameHolds | onnxruntime/core/optimizer/constant_sharing.cc:201-212 | a sharing step changes only slots from the origin to the shared arg, those two consumer lists, the origin initializer and the new shared one |
| ConstantSharing.ReplacedKeepsFrame | onnxruntime/core/optimizer/constant_sharing.cc:201-212 | the same frame, from the port map of the candidate |
| ConstantSharing.ShareConstantOutcome | onnxruntime/core/optimizer/constant_sharing.cc:191-212 | interning, keying and replacing gives a complete sharing step |
| ConstantSharing.ShareConstant | onnxruntime/core/optimizer/constant_sharing.cc:191-212 | the value is interned, the key is its id, the literal data type -1 and the rank, and the uses move to the key's shared initializer, a fresh copy of the original when the key was new; a duplicate-free store stays duplicate-free |
| ConstantSharing.ShareInitializer | onnxruntime/core/optimizer/constant_sharing.cc:166-214 | a candidate is rewritten exactly when it has a valid single-value shape, is a constant initializer of a supported type, has no subgraph use and has at least one explicit use; otherwise the graph and the pass state are unchanged |
| ConstantSharing.PassStart | onnxruntime/core/optimizer/constant_sharing.cc:142-166 | the main loop's invariant holds on the original graph with nothing handled |
| ConstantSharing.PortsUnaffected | onnxruntime/core/optimizer/constant_sharing.cc:166-215 | handling other candidates does not change which slots name a candidate not yet handled |
| ConstantSharing.ShareableUnaffected | onnxruntime/core/optimizer/constant_sharing.cc:166-215 | an earlier iteration never changes whether a later candidate passes the checks |
| ConstantSharing.ShareableFrame | onnxruntime/core/optimizer/constant_sharing.cc:166-189 | the checks read only the candidate's shape, tensor, overridability and consumer list, and its consumers' uses of it: equal in two states, the checks pass in both or in neither |
| ConstantSharing.UsesUnaffected | onnxruntime/core/optimizer/constant_sharing.cc:166-215 | an earlier iteration never changes a later candidate's implicit uses or ports |
| ConstantSharing.PassStep | onnxruntime/core/optimizer/constant_sharing.cc:166-215 | one iteration keeps the main loop's invariant |
| ConstantSharing.StepKeepsProgress | onnxruntime/core/optimizer/constant_sharing.cc:166-215 | a rewriting iteration keeps the main loop's invariant |
| ConstantSharing.KeepsPatterns | onnxruntime/core/optimizer/constant_sharing.cc:197-209 | the pattern map stays one fresh shared initializer per key, each holding its key's value and rank |
| ConstantSharing.KeepsFresh | onnxruntime/core/optimizer/constant_sharing.cc:201-209 | shared initializers stay fresh, distinct per key and the only new initializers |
| ConstantSharing.FreshKept | onnxruntime/core/optimizer/constant_sharing.cc:201-202 | a reused key keeps the shared initializers fresh |
| ConstantSharing.FreshAdded | onnxruntime/core/optimizer/constant_sharing.cc:201-209 | a new key adds one fresh shared initializer |
| ConstantSharing.RecordedAdded | onnxruntime/core/optimizer/constant_sharing.cc:201-209 | after a new key is recorded, every key, the new one included, has data type -1 and names an "ortshared_" initializer and node arg unused in the original graph |
| ConstantSharing.DistinctAdded | onnxruntime/core/optimizer/constant_sharing.cc:201-209 | recording a name no key holds keeps one name per key |
| ConstantSharing.AddedCovered | onnxruntime/core/optimizer/constant_sharing.cc:201-209 | after a new key is recorded, every initializer and node arg is an original one or a recorded shared one |
| ConstantSharing.KeepsHoldStore | onnxruntime/core/optimizer/constant_sharing.cc:191-209 | each shared initializer holds the store entry of its key's value id at its key's rank |
| ConstantSharing.SharedTarget | onnxruntime/core/optimizer/constant_sharing.cc:191-212 | the shared initializer of a rewriting step holds the candidate's original value at its rank, and the recorded shared initializers are all kept with it among them |
| ConstantSharing.KeepsSlots | onnxruntime/core/optimizer/constant_sharing.cc:211-212 | every slot is as in the original graph or names a shared initializer with the value and rank of the rewritten initializer it named |
| ConstantSharing.UntouchedStep | onnxruntime/core/optimizer/constant_sharing.cc:166-215 | initializers not rewritten, and their consumer lists, stay as in the original graph |
| ConstantSharing.SlotsStep | onnxruntime/core/optimizer/constant_sharing.cc:211-212 | the slots moved by an iteration name a shared initializer holding the same value at the same rank |
| ConstantSharing.SlotsSharedMono | onnxruntime/core/optimizer/constant_sharing.cc:166-215 | the slot property for a set of handled candidates holds for any larger set |
| ConstantSharing.CollectCandidates | onnxruntime/core/optimizer/constant_sharing.cc:151-160 | the candidates are exactly the initializers that are not "ortshared_", are constant and are not excluded, without repetition |
| ConstantSharing.ShareCandidate | onnxruntime/core/optimizer/constant_sharing.cc:166-215 | one iteration rewrites exactly the rewritable candidates and keeps the loop invariant |
| ConstantSharing.PassEnd | onnxruntime/core/optimizer/constant_sharing.cc:166-218 | when all candidates are handled, the loop invariant gives the pass's outcome |
| ConstantSharing.ApplyImpl | onnxruntime/core/optimizer/constant_sharing.cc:142-218 | the graph stays well-formed; `modified` becomes true exactly when some initializer is rewritable; initializers not rewritable keep their tensor and consumers; every slot is as before or names a fresh "ortshared_" initializer with the same store value and rank as the one it named; every use of a rewritable initializer by a node on its consumer list is rewired; one shared initializer per key, and no two of them hold the same store value at the same rank |
| ConstantSharing.CheckCandidate | onnxruntime/core/optimizer/constant_sharing.cc:166-189 | the checks pass exactly when the candidate is shareable, and the port map then lists every explicit use by its consumers |
| ConstantSharing.PortMapMovesAll | onnxruntime/core/optimizer/constant_sharing.cc:191-212 | rewiring the port map moves every use of the candidate by a node on its consumer list to the shared initializer |
| ConstantSharing.UsesRewiredStep | onnxruntime/core/optimizer/constant_sharing.cc:166-215 | one iteration moves every listed use of the new candidate when it is rewritable, and moves no earlier rewired use back |
| ConstantSharing.UsesRewiredAll | onnxruntime/core/optimizer/constant_sharing.cc:142-218 | once every rewritable initializer is handled, all their listed uses are rewired |
| ConstantSharing.DistinctByStore | onnxruntime/core/optimizer/constant_sharing.cc:191-209 | with a duplicate-free store and keys with data type -1, two shared initializers of the same rank and value have the same key |
| ConstantSharing.EqualValuesShareOne | onnxruntime/core/optimizer/constant_sharing.cc:195-212 | two rewired slots whose original initializers hold the same store value at the same rank name the same shared initializer |
| ConstantSharing.EqualValuesShared | onnxruntime/core/optimizer/constant_sharing.cc:142-218 | after the pass, listed uses of two rewritable initializers with the same store value and rank name one and the same shared initializer, which holds that value at that rank |
| KernelRegistries.SearchOrder | onnxruntime/core/framework/kernel_registry_manager.h:53-61 | every custom registry in list order, then the provider type's registry when the type is known; the length is the custom count plus one or zero |
| KernelRegistries.AddProvidersEntries | onnxruntime/core/framework/kernel_registry_manager.h:34-35 | assumed behaviour of kernel_registry_manager.cc, which is not part of this model: registration keeps every existing entry, adds only non-null registries taken from the providers, and without a duplicated type records every provider's registry |
| KernelRegistries.AddProvidersValid | onnxruntime/core/framework/kernel_registry_manager.h:50-51 | assumed behaviour of kernel_registry_manager.cc, which is not part of this model: registration never stores a null registry, as the header promises of the stored registries |
| KernelRegistries.PriorityOrder | onnxruntime/core/framework/kernel_registry_manager.h:38-45 | after RegisterKernels(providers), RegisterKernelRegistry(A) and RegisterKernelRegistry(B), the search order is B, then A, then what the providers gave, a null A or B left out |
| KernelRegistries.ProviderRegistryLast | onnxruntime/core/framework/kernel_registry_manager.h:23-27 | a provider's registry is searched after every custom registry, last; for registries added by `RegisterKernels` this rests on its assumed behaviour |
| KernelRegistries.KernelRegistryManager.constructor | onnxruntime/core/framework/kernel_registry_manager.h:32 | a new manager has no registries and an empty resolver |
| KernelRegistries.KernelRegistryManager.RegisterKernels | onnxruntime/core/framework/kernel_registry_manager.h:34-35 | assumed behaviour of kernel_registry_manager.cc, which is not part of this model: the provider map becomes the registration result of `AddProviders`, the status is OK exactly when no provider type is already registered, and a manager free of null registries stays so |
| KernelRegistries.KernelRegistryManager.RegisterKernelRegistry | onnxruntime/core/framework/kernel_registry_manager.h:38-45 | assumed behaviour of kernel_registry_manager.cc, which is not part of this model: a non-null registry is put in front of all custom registries and a null one is ignored, so a manager free of null registries stays so |
| KernelRegistries.KernelRegistryManager.GetKernelRegistriesByProviderType | onnxruntime/core/framework/kernel_registry_manager.h:47-61 | the result is the search order of the type, the manager is unchanged, and no entry is null when the manager holds none |
| KernelRegistries.KernelRegistryManager.SetKernelTypeStrResolver | onnxruntime/core/framework/kernel_registry_manager.h:85-91 | the resolver read back is the one set |
| FusedMha.HashId | onnxruntime/contrib_ops/cuda/bert/tensorrt_fused_multihead_attention/fused_multihead_attention.h:39-41 | the key holds the sequence length in its high 32 bits and the head size in its low 32 bits |
| FusedMha.HashIdInjective | onnxruntime/contrib_ops/cuda/bert/tensorrt_fused_multihead_attention/fused_multihead_attention.h:39-41 | two keys are equal if and only if their sequence lengths and head sizes are |
| FusedMha.Int32Of | onnxruntime/contrib_ops/cuda/bert/tensorrt_fused_multihead_attention/fused_multihead_attention.h:64 | the signed reading of a 32-bit value lies in the int32 range and agrees with it modulo 2^32 |
| FusedMha.ToUint32 | onnxruntime/contrib_ops/cuda/bert/tensorrt_fused_multihead_attention/fused_multihead_attention.h:125 | converting an int32 parameter to 32 bits loses nothing |
| FusedMha.LoadFromSkip | onnxruntime/contrib_ops/cuda/bert/tensorrt_fused_multihead_attention/fused_multihead_attention.h:54-93 | a meta of another SM or data type, with a taken key, or refused by the device changes nothing |
| FusedMha.LoadFromKeeps | onnxruntime/contrib_ops/cuda/bert/tensorrt_fused_multihead_attention/fused_multihead_attention.h:54-56 | loading never overwrites an entry |
| FusedMha.LoadFromFirstWins | onnxruntime/contrib_ops/cuda/bert/tensorrt_fused_multihead_attention/fused_multihead_attention.h:50-104 | each new entry comes from an admitted meta with that key, the first such meta in order |
| FusedMha.LoadFromComplete | onnxruntime/contrib_ops/cuda/bert/tensorrt_fused_multihead_attention/fused_multihead_attention.h:50-104 | every admitted meta finds its key taken after loading |
| FusedMha.Sm86Preferred | onnxruntime/contrib_ops/cuda/bert/tensorrt_fused_multihead_attention/fused_multihead_attention.h:106-118 | on SM 86, every key of an SM 86 kernel keeps it, and the SM 80 kernels only fill the other keys |
| FusedMha.LoadModuleValid | onnxruntime/contrib_ops/cuda/bert/tensorrt_fused_multihead_attention/fused_multihead_attention.h:72-79 | loading an uncached cubin keeps the table valid |
| FusedMha.AddEntryValid | onnxruntime/contrib_ops/cuda/bert/tensorrt_fused_multihead_attention/fused_multihead_attention.h:94-101 | adding an entry under a free key and its sequence length keeps the table valid |
| FusedMha.IndexMapAdd | onnxruntime/contrib_ops/cuda/bert/tensorrt_fused_multihead_attention/fused_multihead_attention.h:81-94 | a new entry adds its meta index under its key |
| FusedMha.FusedMhaKernel.constructor | onnxruntime/contrib_ops/cuda/bert/tensorrt_fused_multihead_attention/fused_multihead_attention.h:46-48 | a new table holds the metas, data type and SM, and nothing is loaded |
| FusedMha.FusedMhaKernel.LoadXmmaKernelsFor | onnxruntime/contrib_ops/cuda/bert/tensorrt_fused_multihead_attention/fused_multihead_attention.h:50-104 | the table gains exactly the first-wins load of the metas of that SM and data type that the device admits; existing entries and cached modules are kept and the load log only grows; the valid sequences and the module cache stay consistent |
| FusedMha.FusedMhaKernel.LoadMeta | onnxruntime/contrib_ops/cuda/bert/tensorrt_fused_multihead_attention/fused_multihead_attention.h:51-103 | one iteration of the load, with both shared-memory skips, matches one step of `LoadFrom`; cached modules are kept and the load log only grows |
| FusedMha.FusedMhaKernel.LoadModule | onnxruntime/contrib_ops/cuda/bert/tensorrt_fused_multihead_attention/fused_multihead_attention.h:72-79 | the module of the cubin, loaded only when not cached, with existing cache entries kept |
| FusedMha.FusedMhaKernel.AddFunction | onnxruntime/contrib_ops/cuda/bert/tensorrt_fused_multihead_attention/fused_multihead_attention.h:94-101 | the entry is inserted under its free key and its sequence length made valid |
| FusedMha.FusedMhaKernel.LoadXmmaKernels | onnxruntime/contrib_ops/cuda/bert/tensorrt_fused_multihead_attention/fused_multihead_attention.h:106-118 | nothing changes when functions are present; otherwise the table is the SM's own load followed, on SM 86, by the SM 80 load; cached modules are kept and the load log only grows |
| FusedMha.FusedMhaKernel.IsValid | onnxruntime/contrib_ops/cuda/bert/tensorrt_fused_multihead_attention/fused_multihead_attention.h:120-122 | true exactly when a kernel of that sequence length is loaded |
| FusedMha.FusedMhaKernel.Run | onnxruntime/contrib_ops/cuda/bert/tensorrt_fused_multihead_attention/fused_multihead_attention.h:124-135 | an error exactly when no kernel has the key of the parameters; otherwise a launch of the kernel of a meta of that sequence length and head size, over heads by batch, with the meta's threads and shared memory |
| FusedMha.FactoryHashId | onnxruntime/contrib_ops/cuda/bert/tensorrt_fused_multihead_attention/fused_multihead_attention.h:182-191 | an error exactly when the device query fails or the device id or data type exceed 16 bits; otherwise the key holds the data type above bit 48, the device id in bits 32 to 47 and the SM below |
| FusedMha.PackedKeyFields | onnxruntime/contrib_ops/cuda/bert/tensorrt_fused_multihead_attention/fused_multihead_attention.h:190 | the packed fields fit 64 bits and can be read back |
| FusedMha.FactoryHashIdInjective | onnxruntime/contrib_ops/cuda/bert/tensorrt_fused_multihead_attention/fused_multihead_attention.h:182-191 | two factory keys are equal exactly when their data types, devices and SM versions are |
| FusedMha.FusedMhaKernelFactory.constructor | onnxruntime/contrib_ops/cuda/bert/tensorrt_fused_multihead_attention/fused_multihead_attention.h:180 | a new factory caches no table |
| FusedMha.FusedMhaKernelFactory.GetXmmaKernels | onnxruntime/contrib_ops/cuda/bert/tensorrt_fused_multihead_attention/fused_multihead_attention.h:158-172 | the cache stays valid (each table valid, with the data type and SM its key encodes), and a returned table is cached, valid and of the data type and SM asked for; a cached key returns the cached table with the cache unchanged; a new key caches and returns a fresh table loaded by the no-argument load; a key error changes nothing |

## Left out

- Logging, `printf` and `LOGS` output are not modelled.
- CUDA driver calls are not modelled; they are parameters instead.
  - `cudaGetDevice` is a `Result<int>` device argument.
  - `cudaDeviceGetAttribute` (optional opt-in shared memory) and `cuFuncSetAttribute` (the set of refused requests, each a function's cubin and name with the size asked for) are a `DeviceEnv`.
  - A loaded module is identified by its cubin.
  - A device function is its module and name.
  - A launch is returned as a `Launch` value, not performed.
  - `cuErrCheck` failures of `cuModuleLoadData`, `cuModuleGetFunction` and `cuLaunchKernel` are not modelled.
- The factory's `std::mutex` (concurrency) is not modelled, nor is its singleton `Get`.
- `FusedMha.FusedMhaKernel.Run`: a missing key is an `Err` result instead of a thrown `ORT_ENFORCE`.
- `hashID(meta)` is virtual in the source. The model uses the base definition; overrides in other headers are not part of this model.
- `FusedMha.FusedMhaKernelFactory.GetXmmaKernels`: on a cache hit the meta list passed in is ignored, as in the source. On a hit the contract gives the cached table's identity, its validity and its data type and SM, but not which metas or device it was loaded from.
- The execution frame's `UpdateFeeds` and `UpdateFetches` and the context's `SetLogger` are modelled as field assignments. Their internals, including the initialized tensors passed to `UpdateFetches`, are not shown in the source.
- The commented-out recycling of the device stream collection is not modelled. The session's `AcquireDeviceStreamCollection` is modelled only by the size of the collection it returns.
- `PartialExecution.ValidStreamCount`: the count is unbounded. The source's `int32_t valid_streams` cannot overflow for any realistic number of streams.
- A region is computed only when every stream is present, as the source dereferences each stream on a cache miss. A null stream is allowed only in the valid-stream count.
- Floating point is not modelled.
  - Float and double payloads in the constant store are opaque tokens compared by equality.
  - `math::halfToFloat` is the identity on those tokens, so a FLOAT16 tensor holds the token of the float it widens to.
  - The `std::variant` store compares the alternative first; the tagged `ScalarValue` does the same.
  - As a result, interning compares floats by token equality, not by IEEE `==`: a NaN token matches itself, though NaN never compares equal in the source, and +0.0 and -0.0 are different tokens, though they compare equal there.
- `ConstantSharing.FreshName`: `GenerateNodeArgName` is modelled as any name derived from the key that is unused in the graph (the key, extended with `_` until unused). Its real suffix scheme is not modelled.
- The pattern key is the triple it is printed from, not the string. `KeyName` shows the printed form begins with `ortshared_`.
- Tensor copying and renaming, and the internals of `graph_utils::AddInitializer`, are modelled as adding the same tensor under the new name, with the original's shape.
- Hash-map iteration orders are not modelled. The order of `GetAllInitializedTensors` is an input sequence of `ApplyImpl`, and the port map is consumed in an arbitrary order.
- A node's consumer set (an `unordered_set` in the graph) is a duplicate-free sequence.
- `ConstantSharing.ApplyImpl`: the graph's consumer lists are not required to list every node that uses an arg. The pass follows those lists, as the source does, so the rewiring guarantee (`UsesRewired`) is about nodes on the original consumer list of the rewritten initializer.
- `IsConstantInitializer` and `GetConstantInitializer(name, true)` are one predicate: an initializer that no graph input can override. Outer-scope lookups, for subgraphs, are not modelled.
- Node args are identified by name, and node args without a shape are a `None` shape.
- `ORT_ENFORCE(false)` in the type dispatch of `ApplyImpl` is not modelled: it cannot be reached after `IsSupportedDataType`.
- kernel_registry_manager.cc is not part of this model, and the header says only that `RegisterKernels` registers the providers' kernels. The model assumes this behaviour for it:
  - providers are registered in order;
  - a provider without a registry is skipped;
  - a provider type already registered is an error.
- The header declares `RegisterKernelRegistry` without a body. The model assumes that its definition in kernel_registry_manager.cc puts a non-null registry in front of the custom registries and ignores a null one, which is what the header's promise that search results hold no nullptr needs.
- `KernelRegistries.KernelRegistryManager.RegisterKernels`, `KernelRegistries.KernelRegistryManager.RegisterKernelRegistry`, `KernelRegistries.AddProvidersEntries`, `KernelRegistries.AddProvidersValid`, `KernelRegistries.PriorityOrder` and `KernelRegistries.ProviderRegistryLast` rest on the assumed behaviour above.
- `SearchKernelRegistry`, `HasImplementationOf`, `SearchKernelRegistriesByHash`, `CreateKernel` and `EnsureKernelTypeStrResolvesForNodeOpSchema` are not modelled; their bodies are not part of this model.
- `KernelRegistries.KernelRegistryManager.SetKernelTypeStrResolver`: the resolver is an opaque map. The incremental population done in full builds is not modelled.
- onnxruntime_cxx_inline.h (C API wrappers), activation_op_test.cc (floating-point reference activations) and the XNNPACK `matmul.h` and `resize.h` declarations are not part of this model.

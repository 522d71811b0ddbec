/** The constant-sharing graph rewrite: single-value constant initializers of
    the same kind, value and rank are replaced by one shared initializer whose
    name starts with "ortshared_".
    Models onnxruntime/core/optimizer/constant_sharing.cc. */
module ConstantSharing {
  import opened Wrappers

  // ---------------------------------------------------------------------------
  // Pure predicates
  // ---------------------------------------------------------------------------

  /** ONNX TensorProto.DataType codes used by the pass. */
  const FLOAT: int := 1
  const INT32: int := 6
  const INT64: int := 7
  const FLOAT16: int := 10
  const DOUBLE: int := 11

  const SupportedDataTypes: seq<int> := [FLOAT, FLOAT16, DOUBLE, INT32, INT64]

  /** The ONNX codes the pass accepts: FLOAT, FLOAT16, DOUBLE, INT32, INT64. */
  function IsSupportedDataType(dataType: int): (b: bool)
    ensures b <==> dataType == 1 || dataType == 6 || dataType == 7 || dataType == 10 || dataType == 11
  {
    dataType in SupportedDataTypes
  }

  datatype Dim = DimValue(value: int) | DimParam(param: string) | DimUnset
  datatype TensorShape = TensorShape(dims: seq<Dim>)

  /** The number of elements of a shape whose dimensions are all known. */
  function KnownElementCount(dims: seq<Dim>): Option<int> {
    if dims == [] then Some(1)
    else match dims[0]
      case DimValue(v) =>
        (match KnownElementCount(dims[1..])
         case Some(n) => Some(v * n)
         case None => None)
      case _ => None
  }

  /** A null shape is rejected; otherwise the shape must be a scalar or a
      one-element vector of known size: exactly the shapes of rank at most one
      that are known to hold a single element. */
  function IsValidSingleValueShape(shape: Option<TensorShape>): (b: bool)
    ensures b <==> shape.Some? && |shape.value.dims| <= 1 && KnownElementCount(shape.value.dims) == Some(1)
  {
    if shape.None? then false
    else
      var dims := shape.value.dims;
      |dims| == 0 || (|dims| == 1 && dims[0].DimValue? && dims[0].value == 1)
  }

  const SharedInitializerPrefix: string := "ortshared_"

  predicate StartsWith(s: string, prefix: string) {
    |prefix| <= |s| && s[..|prefix|] == prefix
  }

  predicate IsSharedInitializer(name: string) {
    StartsWith(name, SharedInitializerPrefix)
  }

  /** A name is a shared initializer exactly when it is the prefix followed by
      something. */
  lemma SharedInitializerMeansPrefixed(name: string)
    ensures IsSharedInitializer(name) <==>
              exists rest: string {:trigger SharedInitializerPrefix + rest} :: name == SharedInitializerPrefix + rest
  {
    if IsSharedInitializer(name) {
      var rest := name[|SharedInitializerPrefix|..];
      assert name == SharedInitializerPrefix + rest;
    }
  }

  lemma StartsWithTransitive(s: string, t: string, prefix: string)
    requires StartsWith(s, t) && StartsWith(t, prefix)
    ensures StartsWith(s, prefix)
  {
    assert s[..|prefix|] == s[..|t|][..|prefix|];
  }

  // ---------------------------------------------------------------------------
  // The constant store
  // ---------------------------------------------------------------------------

  /** A tensor's first element: an integer for INT32/INT64, and an opaque bit
      token for FLOAT, DOUBLE and FLOAT16. A FLOAT16 token is the token of the
      float it widens to. */
  datatype TensorProto = TensorProto(dataType: int, raw: int)

  /** `std::variant<int32_t, int64_t, float, double>`; equality compares the
      alternative first, then the payload. */
  datatype ScalarValue = I32(i: int) | I64(i: int) | F32(bits: int) | F64(bits: int)

  /** The dispatch on the data type: FLOAT16 is widened to a float. Every
      supported type is dispatched, and nothing else is. */
  function ScalarOf(t: TensorProto): (r: Option<ScalarValue>)
    ensures r.Some? <==> IsSupportedDataType(t.dataType)
    ensures t.dataType == FLOAT || t.dataType == FLOAT16 ==> r == Some(F32(t.raw))
    ensures t.dataType == DOUBLE ==> r == Some(F64(t.raw))
    ensures t.dataType == INT32 ==> r == Some(I32(t.raw))
    ensures t.dataType == INT64 ==> r == Some(I64(t.raw))
  {
    if t.dataType == FLOAT then Some(F32(t.raw))
    else if t.dataType == DOUBLE then Some(F64(t.raw))
    else if t.dataType == INT32 then Some(I32(t.raw))
    else if t.dataType == INT64 then Some(I64(t.raw))
    else if t.dataType == FLOAT16 then Some(F32(t.raw))
    else None
  }

  /** Interns `value`: its first position if present (store unchanged),
      otherwise a new last entry. */
  method GetOrAddValueIntoConstantStore(value: ScalarValue, store: seq<ScalarValue>)
    returns (id: nat, newStore: seq<ScalarValue>)
    ensures id < |newStore| && newStore[id] == value
    ensures |store| <= |newStore| && newStore[..|store|] == store
    ensures value in store ==> newStore == store && forall j :: 0 <= j < id ==> store[j] != value
    ensures value !in store ==> newStore == store + [value] && id == |store|
    ensures NoDup(store) ==> NoDup(newStore)
  {
    var i := 0;
    while i < |store| && store[i] != value
      invariant 0 <= i <= |store|
      invariant forall j :: 0 <= j < i ==> store[j] != value
    {
      i := i + 1;
    }
    if i == |store| {
      newStore := store + [value];
      id := |store|;
    } else {
      newStore := store;
      id := i;
    }
  }

  // ---------------------------------------------------------------------------
  // Pattern keys and generated names
  // ---------------------------------------------------------------------------

  /** The key "ortshared_<valueId>_<dataType>_<rank>", kept as the triple it is
      printed from. */
  datatype PatternKey = PatternKey(valueId: nat, dataType: int, rank: nat)

  function DigitChar(d: nat): char
    requires d < 10
  {
    "0123456789"[d]
  }

  function NatToString(n: nat): string
    decreases n
  {
    if n < 10 then [DigitChar(n)] else NatToString(n / 10) + [DigitChar(n % 10)]
  }

  function IntToString(i: int): string {
    if i < 0 then "-" + NatToString(-i) else NatToString(i)
  }

  function KeyName(key: PatternKey): (r: string)
    ensures IsSharedInitializer(r)
  {
    SharedInitializerPrefix + NatToString(key.valueId) + "_" + IntToString(key.dataType) + "_" + NatToString(key.rank)
  }

  /** A node-arg name derived from `base` that is not in `used`. */
  function FreshName(used: set<string>, base: string): (r: string)
    ensures r !in used
    ensures StartsWith(r, base)
    decreases |used|
  {
    if base !in used then base
    else
      var r := FreshName(used - {base}, base + "_");
      StartsWithTransitive(r, base + "_", base);
      r
  }

  /** FLOAT16 values are widened before interning and the key's data type is
      the literal -1, so a FLOAT and a FLOAT16 scalar with the same value and
      rank get the same pattern key. */
  lemma Float16SharesKeyWithFloat(token: int)
    ensures ScalarOf(TensorProto(FLOAT16, token)) == ScalarOf(TensorProto(FLOAT, token))
  {
  }

  // ---------------------------------------------------------------------------
  // The graph
  // ---------------------------------------------------------------------------

  type NodeId = nat
  type ArgName = string

  datatype Node = Node(inputs: seq<ArgName>, implicitInputs: seq<ArgName>)

  function ConsumersIn(consumers: map<ArgName, seq<NodeId>>, name: ArgName): seq<NodeId> {
    if name in consumers then consumers[name] else []
  }

  /** `cs` without the nodes in `drop`, order kept. */
  function Without(cs: seq<NodeId>, drop: set<NodeId>): (r: seq<NodeId>)
    ensures forall x :: x in r <==> x in cs && x !in drop
    ensures |r| <= |cs|
    ensures NoDup(cs) ==> NoDup(r)
  {
    if cs == [] then []
    else (if cs[0] in drop then [] else [cs[0]]) + Without(cs[1..], drop)
  }

  lemma {:induction false} WithoutNothing(cs: seq<NodeId>)
    ensures Without(cs, {}) == cs
  {
    if cs != [] {
      WithoutNothing(cs[1..]);
      assert cs == [cs[0]] + cs[1..];
    }
  }

  lemma {:induction false} WithoutTwice(cs: seq<NodeId>, a: set<NodeId>, b: set<NodeId>)
    ensures Without(Without(cs, a), b) == Without(cs, a + b)
  {
    if cs != [] {
      WithoutTwice(cs[1..], a, b);
      var rest := Without(cs[1..], a);
      if cs[0] in a {
        assert Without(cs, a) == rest;
      } else {
        assert Without(cs, a) == [cs[0]] + rest;
        assert ([cs[0]] + rest)[1..] == rest;
      }
    }
  }

  /** A value snapshot of the graph's state. */
  datatype GraphState = GraphState(
    nodes: map<NodeId, Node>,
    consumers: map<ArgName, seq<NodeId>>,
    initializers: map<ArgName, TensorProto>,
    overridable: set<ArgName>,
    args: map<ArgName, Option<TensorShape>>)

  /** Consumer lists are duplicate-free (a set in the graph) and name existing nodes. */
  ghost predicate WellFormed(s: GraphState) {
    forall a :: a in s.consumers ==>
      NoDup(s.consumers[a]) && forall c :: c in s.consumers[a] ==> c in s.nodes
  }

  function UsedNamesIn(s: GraphState): set<ArgName> {
    s.args.Keys + s.initializers.Keys + s.consumers.Keys
  }

  /** The graph the pass rewrites: nodes by index, consumer lists per node arg,
      initialized tensors, the initializers a graph input may override (these
      are not constant), and the node args with their (possibly null) shapes. */
  class Graph {
    var nodes: map<NodeId, Node>
    var consumers: map<ArgName, seq<NodeId>>
    var initializers: map<ArgName, TensorProto>
    var overridable: set<ArgName>
    var args: map<ArgName, Option<TensorShape>>

    ghost function State(): GraphState
      reads this
    {
      GraphState(nodes, consumers, initializers, overridable, args)
    }

    ghost predicate Valid()
      reads this
    {
      WellFormed(State())
    }

    function ConsumerNodes(name: ArgName): seq<NodeId>
      reads this
    {
      ConsumersIn(consumers, name)
    }

    function GetConstantInitializer(name: ArgName): (r: Option<TensorProto>)
      reads this
      ensures r.Some? <==> name in initializers && name !in overridable
      ensures r.Some? ==> r.value == initializers[name]
    {
      if name in initializers && name !in overridable then Some(initializers[name]) else None
    }

    function UsedNames(): set<ArgName>
      reads this
    {
      args.Keys + initializers.Keys + consumers.Keys
    }

    method ReplaceNodeInput(id: NodeId, index: nat, arg: ArgName)
      requires id in nodes && index < |nodes[id].inputs|
      modifies this`nodes
      ensures nodes == old(nodes)[id := old(nodes)[id].(inputs := old(nodes)[id].inputs[index := arg])]
    {
      nodes := nodes[id := nodes[id].(inputs := nodes[id].inputs[index := arg])];
    }

    method RemoveConsumerNode(name: ArgName, id: NodeId)
      modifies this`consumers
      ensures consumers == old(consumers)[name := Without(old(ConsumerNodes(name)), {id})]
    {
      consumers := consumers[name := Without(ConsumerNodes(name), {id})];
    }

    method AddConsumerNode(name: ArgName, id: NodeId)
      modifies this`consumers
      ensures consumers == old(consumers)[name := old(ConsumerNodes(name)) + [id]]
    {
      consumers := consumers[name := ConsumerNodes(name) + [id]];
    }

    method RemoveInitializedTensor(name: ArgName)
      modifies this`initializers
      ensures initializers == old(initializers) - {name}
    {
      initializers := initializers - {name};
    }

    method AddInitializer(name: ArgName, tensor: TensorProto, shape: Option<TensorShape>)
      modifies this`initializers, this`args
      ensures initializers == old(initializers)[name := tensor]
      ensures args == old(args)[name := shape]
    {
      initializers := initializers[name := tensor];
      args := args[name := shape];
    }
  }

  // ---------------------------------------------------------------------------
  // Collecting input ports
  // ---------------------------------------------------------------------------

  /** The indices below `n` at which `inputs` names `arg`, ascending. */
  function PortsUpTo(inputs: seq<ArgName>, arg: ArgName, n: nat): (r: seq<nat>)
    requires n <= |inputs|
    ensures forall k: nat :: k in r <==> k < n && inputs[k] == arg
    ensures forall i, j :: 0 <= i < j < |r| ==> r[i] < r[j]
    decreases n
  {
    if n == 0 then []
    else
      var prev := PortsUpTo(inputs, arg, n - 1);
      assert forall i :: 0 <= i < |prev| ==> prev[i] < n - 1 by {
        forall i | 0 <= i < |prev| ensures prev[i] < n - 1 {
          assert prev[i] in prev;
        }
      }
      prev + (if inputs[n - 1] == arg then [n - 1] else [])
  }

  function PortsOf(inputs: seq<ArgName>, arg: ArgName): seq<nat> {
    PortsUpTo(inputs, arg, |inputs|)
  }

  /** The ports only depend on which slots hold `arg`. */
  lemma {:induction false} PortsUpToFrame(a: seq<ArgName>, b: seq<ArgName>, arg: ArgName, n: nat)
    requires n <= |a| && n <= |b|
    requires forall k :: 0 <= k < n ==> (a[k] == arg <==> b[k] == arg)
    ensures PortsUpTo(a, arg, n) == PortsUpTo(b, arg, n)
  {
    if n > 0 {
      PortsUpToFrame(a, b, arg, n - 1);
    }
  }

  /** Index of the first consumer that uses `arg` as an implicit (subgraph)
      input, or |cs| when none does. */
  function FirstImplicitUse(nodes: map<NodeId, Node>, cs: seq<NodeId>, arg: ArgName): (r: nat)
    requires forall c :: c in cs ==> c in nodes
    ensures r <= |cs|
    ensures forall j :: 0 <= j < r ==> arg !in nodes[cs[j]].implicitInputs
    ensures r < |cs| ==> arg in nodes[cs[r]].implicitInputs
  {
    if cs == [] then 0
    else if arg in nodes[cs[0]].implicitInputs then 0
    else 1 + FirstImplicitUse(nodes, cs[1..], arg)
  }

  lemma {:induction false} FirstImplicitUseFrame(a: map<NodeId, Node>, b: map<NodeId, Node>, cs: seq<NodeId>, arg: ArgName)
    requires forall c :: c in cs ==> c in a && c in b && a[c].implicitInputs == b[c].implicitInputs
    ensures FirstImplicitUse(a, cs, arg) == FirstImplicitUse(b, cs, arg)
  {
    if cs != [] {
      FirstImplicitUseFrame(a, b, cs[1..], arg);
    }
  }

  /** `ports` maps each of the first `stop` consumers that names `arg` among
      its explicit inputs to all those input indices, ascending. */
  ghost predicate PortMapOf(ports: map<NodeId, seq<nat>>, nodes: map<NodeId, Node>,
                            cs: seq<NodeId>, arg: ArgName, stop: nat)
    requires stop <= |cs|
    requires forall c :: c in cs ==> c in nodes
  {
    && (forall c :: c in ports <==> c in cs[..stop] && PortsOf(nodes[c].inputs, arg) != [])
    && (forall c :: c in ports ==> ports[c] == PortsOf(nodes[c].inputs, arg))
  }

  lemma FirstImplicitUseNone(nodes: map<NodeId, Node>, cs: seq<NodeId>, arg: ArgName)
    requires forall c :: c in cs ==> c in nodes
    requires forall k :: 0 <= k < |cs| ==> arg !in nodes[cs[k]].implicitInputs
    ensures FirstImplicitUse(nodes, cs, arg) == |cs|
  {
  }

  lemma FirstImplicitUseAt(nodes: map<NodeId, Node>, cs: seq<NodeId>, arg: ArgName, j: nat)
    requires forall c :: c in cs ==> c in nodes
    requires j < |cs| && arg in nodes[cs[j]].implicitInputs
    requires forall k :: 0 <= k < j ==> arg !in nodes[cs[k]].implicitInputs
    ensures FirstImplicitUse(nodes, cs, arg) == j
  {
  }

  lemma NotInEarlierPrefix<T>(cs: seq<T>, j: nat)
    requires NoDup(cs) && j < |cs|
    ensures cs[j] !in cs[..j]
  {
  }

  function Extend(m: map<NodeId, seq<nat>>, c: NodeId, p: seq<nat>): map<NodeId, seq<nat>> {
    if p == [] then m else m[c := p]
  }

  lemma ExtendStep(before: map<NodeId, seq<nat>>, c: NodeId, p: seq<nat>, k: nat)
    requires c !in before
    ensures var m := Extend(before, c, p);
            m[c := (if c in m then m[c] else []) + [k]] == Extend(before, c, p + [k])
  {
  }

  lemma PortMapStep(ports: map<NodeId, seq<nat>>, before: map<NodeId, seq<nat>>, nodes: map<NodeId, Node>,
                    cs: seq<NodeId>, arg: ArgName, j: nat)
    requires j < |cs|
    requires forall c :: c in cs ==> c in nodes
    requires PortMapOf(before, nodes, cs, arg, j)
    requires ports == Extend(before, cs[j], PortsOf(nodes[cs[j]].inputs, arg))
    ensures PortMapOf(ports, nodes, cs, arg, j + 1)
  {
    assert cs[..j + 1] == cs[..j] + [cs[j]];
  }

  /** Whether `node` uses `arg` as an implicit (subgraph) input. */
  method UsesAsImplicitInput(node: Node, arg: ArgName) returns (found: bool)
    ensures found <==> arg in node.implicitInputs
  {
    found := false;
    var i := 0;
    while i < |node.implicitInputs|
      invariant 0 <= i <= |node.implicitInputs|
      invariant arg !in node.implicitInputs[..i]
    {
      if node.implicitInputs[i] == arg {
        found := true;
        return;
      }
      assert node.implicitInputs[..i + 1] == node.implicitInputs[..i] + [node.implicitInputs[i]];
      i := i + 1;
    }
    assert node.implicitInputs[..i] == node.implicitInputs;
  }

  /** Appends to the entry of `c` every input index of `node` that is `arg`;
      the entry is created by the first such index. */
  method CollectInputPorts(ports: map<NodeId, seq<nat>>, c: NodeId, node: Node, arg: ArgName)
    returns (result: map<NodeId, seq<nat>>)
    requires c !in ports
    ensures result == Extend(ports, c, PortsOf(node.inputs, arg))
  {
    result := ports;
    var p := 0;
    while p < |node.inputs|
      invariant 0 <= p <= |node.inputs|
      invariant result == Extend(ports, c, PortsUpTo(node.inputs, arg, p))
    {
      ghost var upTo := PortsUpTo(node.inputs, arg, p);
      if node.inputs[p] == arg {
        assert PortsUpTo(node.inputs, arg, p + 1) == upTo + [p];
        ExtendStep(ports, c, upTo, p);
        result := result[c := (if c in result then result[c] else []) + [p]];
      } else {
        assert PortsUpTo(node.inputs, arg, p + 1) == upTo + [] == upTo;
      }
      p := p + 1;
    }
  }

  /** Scans the consumers of `origin` in order: reports a subgraph (implicit)
      use, stopping at that consumer without recording its ports, and records
      for every consumer before it the indices of its inputs that are `origin`. */
  method PrepareInputPortsToReplace(g: Graph, origin: ArgName)
    returns (foundSubgraphUsage: bool, ports: map<NodeId, seq<nat>>)
    requires g.Valid()
    ensures forall c :: c in g.ConsumerNodes(origin) ==> c in g.nodes
    ensures foundSubgraphUsage <==>
              FirstImplicitUse(g.nodes, g.ConsumerNodes(origin), origin) < |g.ConsumerNodes(origin)|
    ensures PortMapOf(ports, g.nodes, g.ConsumerNodes(origin), origin,
                      FirstImplicitUse(g.nodes, g.ConsumerNodes(origin), origin))
  {
    var cs := g.ConsumerNodes(origin);
    var nodes := g.nodes;
    ConsumerListValid(g.State(), origin);
    foundSubgraphUsage, ports := ScanConsumers(nodes, cs, origin);
  }

  /** The consumer list of any name in a well-formed state is duplicate-free
      and names existing nodes. */
  lemma ConsumerListValid(s: GraphState, name: ArgName)
    requires WellFormed(s)
    ensures NoDup(ConsumersIn(s.consumers, name))
    ensures forall c :: c in ConsumersIn(s.consumers, name) ==> c in s.nodes
  {
  }

  /** The loop of PrepareInputPortsToReplace over the consumer list `cs`. */
  method ScanConsumers(nodes: map<NodeId, Node>, cs: seq<NodeId>, origin: ArgName)
    returns (foundSubgraphUsage: bool, ports: map<NodeId, seq<nat>>)
    requires NoDup(cs) && forall c :: c in cs ==> c in nodes
    ensures foundSubgraphUsage <==> FirstImplicitUse(nodes, cs, origin) < |cs|
    ensures PortMapOf(ports, nodes, cs, origin, FirstImplicitUse(nodes, cs, origin))
  {
    ports := map[];
    foundSubgraphUsage := false;
    var j := 0;
    while j < |cs|
      invariant 0 <= j <= |cs|
      invariant forall k :: 0 <= k < j ==> origin !in nodes[cs[k]].implicitInputs
      invariant PortMapOf(ports, nodes, cs, origin, j)
    {
      var c := cs[j];
      var node := nodes[c];
      foundSubgraphUsage := UsesAsImplicitInput(node, origin);
      if foundSubgraphUsage {
        FirstImplicitUseAt(nodes, cs, origin, j);
        return;
      }
      ghost var before := ports;
      NotInEarlierPrefix(cs, j);
      ports := CollectInputPorts(ports, c, node, origin);
      PortMapStep(ports, before, nodes, cs, origin, j);
      j := j + 1;
    }
    FirstImplicitUseNone(nodes, cs, origin);
  }

  // ---------------------------------------------------------------------------
  // Rewiring consumers
  // ---------------------------------------------------------------------------

  function ReplacePorts(inputs: seq<ArgName>, ports: seq<nat>, shared: ArgName): (r: seq<ArgName>)
    ensures |r| == |inputs|
  {
    seq(|inputs|, k requires 0 <= k < |inputs| => if k in ports then shared else inputs[k])
  }

  function Rewired(node: Node, ports: seq<nat>, shared: ArgName): Node {
    node.(inputs := ReplacePorts(node.inputs, ports, shared))
  }

  /** Points the given input slots of node `c` at `shared`, one at a time. */
  method RewireNode(g: Graph, c: NodeId, ps: seq<nat>, shared: ArgName)
    requires c in g.nodes && forall p :: p in ps ==> p < |g.nodes[c].inputs|
    modifies g`nodes
    ensures g.nodes == old(g.nodes)[c := Rewired(old(g.nodes[c]), ps, shared)]
  {
    ReplacePortsNone(old(g.nodes[c]).inputs, shared);
    assert ps[..0] == [];
    for i := 0 to |ps|
      invariant c in g.nodes
      invariant g.nodes == old(g.nodes)[c := Rewired(old(g.nodes[c]), ps[..i], shared)]
    {
      assert ps[i] in ps;
      ReplacePortsStep(old(g.nodes[c]).inputs, ps, i, shared);
      g.ReplaceNodeInput(c, ps[i], shared);
    }
    assert ps[..|ps|] == ps;
  }

  lemma ReplacePortsNone(inputs: seq<ArgName>, shared: ArgName)
    ensures ReplacePorts(inputs, [], shared) == inputs
  {
  }

  lemma ReplacePortsStep(inputs: seq<ArgName>, ps: seq<nat>, i: nat, shared: ArgName)
    requires i < |ps| && ps[i] < |inputs|
    ensures ReplacePorts(inputs, ps[..i + 1], shared) == ReplacePorts(inputs, ps[..i], shared)[ps[i] := shared]
  {
    assert forall k :: k in ps[..i + 1] <==> k in ps[..i] || k == ps[i];
  }

  /** Node `c` left the consumers of `origin` and joined those of `shared`
      unless it was already there; nothing else changed. */
  ghost predicate ConsumerMoved(s: GraphState, t: GraphState, c: NodeId, origin: ArgName, shared: ArgName) {
    var sh := ConsumersIn(s.consumers, shared);
    && t.nodes == s.nodes && t.initializers == s.initializers && t.args == s.args && t.overridable == s.overridable
    && ConsumersIn(t.consumers, origin) == Without(ConsumersIn(s.consumers, origin), {c})
    && ConsumersIn(t.consumers, shared) == (if c in sh then sh else sh + [c])
    && (forall a :: a != origin && a != shared ==> ConsumersIn(t.consumers, a) == ConsumersIn(s.consumers, a))
    && s.consumers.Keys <= t.consumers.Keys
  }

  /** Moves node `c` from the consumers of `origin` to those of `shared`,
      where it is added only if not already there. */
  method MoveConsumer(g: Graph, c: NodeId, origin: ArgName, shared: ArgName)
    requires origin != shared
    modifies g`consumers
    ensures ConsumerMoved(old(g.State()), g.State(), c, origin, shared)
  {
    g.RemoveConsumerNode(origin, c);
    if c !in g.ConsumerNodes(shared) {
      g.AddConsumerNode(shared, c);
    }
  }

  /** The nodes in `done` are rewired and moved, the others untouched; the
      consumer list of `shared` only grew at its end. */
  ghost predicate RewiredSoFar(s: GraphState, t: GraphState, ports: map<NodeId, seq<nat>>, done: set<NodeId>,
                               origin: ArgName, shared: ArgName)
    requires done <= ports.Keys
  {
    var sh0, sh1 := ConsumersIn(s.consumers, shared), ConsumersIn(t.consumers, shared);
    && t.nodes.Keys == s.nodes.Keys
    && (forall c :: c in t.nodes ==>
          t.nodes[c] == if c in done then Rewired(s.nodes[c], ports[c], shared) else s.nodes[c])
    && ConsumersIn(t.consumers, origin) == Without(ConsumersIn(s.consumers, origin), done)
    && (forall c :: c in sh1 <==> c in sh0 || c in done)
    && |sh0| <= |sh1| && sh1[..|sh0|] == sh0
    && (forall a :: a != origin && a != shared ==> ConsumersIn(t.consumers, a) == ConsumersIn(s.consumers, a))
    && s.consumers.Keys <= t.consumers.Keys
    && t.initializers == s.initializers && t.args == s.args && t.overridable == s.overridable
  }

  lemma RewiredNothing(s: GraphState, ports: map<NodeId, seq<nat>>, origin: ArgName, shared: ArgName)
    ensures RewiredSoFar(s, s, ports, {}, origin, shared)
  {
    WithoutNothing(ConsumersIn(s.consumers, origin));
  }

  lemma MoveKeepsWellFormed(t1: GraphState, t2: GraphState, c: NodeId, origin: ArgName, shared: ArgName)
    requires origin != shared && c in t1.nodes
    requires WellFormed(t1)
    requires ConsumerMoved(t1, t2, c, origin, shared)
    ensures WellFormed(t2)
  {
    forall a | a in t2.consumers
      ensures NoDup(t2.consumers[a]) && forall x :: x in t2.consumers[a] ==> x in t2.nodes
    {
      assert t2.consumers[a] == ConsumersIn(t2.consumers, a);
      assert forall x :: x in ConsumersIn(t1.consumers, a) ==> x in t1.nodes;
      assert NoDup(ConsumersIn(t1.consumers, a));
    }
  }

  lemma RewireStep(s: GraphState, t: GraphState, t1: GraphState, t2: GraphState, ports: map<NodeId, seq<nat>>,
                   done: set<NodeId>, c: NodeId, origin: ArgName, shared: ArgName)
    requires done <= ports.Keys && c in ports && c !in done && c in s.nodes
    requires origin != shared
    requires RewiredSoFar(s, t, ports, done, origin, shared)
    requires t1.nodes == t.nodes[c := Rewired(t.nodes[c], ports[c], shared)]
    requires t1.consumers == t.consumers && t1.initializers == t.initializers
    requires t1.args == t.args && t1.overridable == t.overridable
    requires ConsumerMoved(t1, t2, c, origin, shared)
    ensures RewiredSoFar(s, t2, ports, done + {c}, origin, shared)
  {
    RewiredNodesGrow(s.nodes, t.nodes, t1.nodes, ports, done, c, shared);
    WithoutTwice(ConsumersIn(s.consumers, origin), done, {c});
    SharedListGrows(ConsumersIn(s.consumers, shared), ConsumersIn(t.consumers, shared),
                    ConsumersIn(t2.consumers, shared), done, c);
  }

  /** Rewiring node `c` extends the set of rewired nodes by `c`. */
  lemma RewiredNodesGrow(n0: map<NodeId, Node>, n1: map<NodeId, Node>, n2: map<NodeId, Node>,
                         ports: map<NodeId, seq<nat>>, done: set<NodeId>, c: NodeId, shared: ArgName)
    requires done <= ports.Keys && c in ports && c !in done && c in n0
    requires n1.Keys == n0.Keys
    requires forall x :: x in n1 ==> n1[x] == if x in done then Rewired(n0[x], ports[x], shared) else n0[x]
    requires n2 == n1[c := Rewired(n1[c], ports[c], shared)]
    ensures n2.Keys == n0.Keys
    ensures forall x :: x in n2 ==> n2[x] == if x in done + {c} then Rewired(n0[x], ports[x], shared) else n0[x]
  {
  }

  /** Adding `c` to the consumer list of `shared` unless present keeps the
      original list as a prefix and adds `c` to its members. */
  lemma SharedListGrows(sh0: seq<NodeId>, sh1: seq<NodeId>, sh2: seq<NodeId>, done: set<NodeId>, c: NodeId)
    requires forall x :: x in sh1 <==> x in sh0 || x in done
    requires |sh0| <= |sh1| && sh1[..|sh0|] == sh0
    requires sh2 == if c in sh1 then sh1 else sh1 + [c]
    ensures forall x :: x in sh2 <==> x in sh0 || x in done + {c}
    ensures |sh0| <= |sh2| && sh2[..|sh0|] == sh0
  {
    if c !in sh1 {
      assert sh2[..|sh0|] == sh1[..|sh0|];
    }
  }

  /** The loop of ReplaceInputsToUseSharedInitializer: every node in `ports`
      gets its recorded input slots pointed at `shared` and is moved from the
      consumers of `origin` to those of `shared`. */
  method RewireConsumers(g: Graph, ports: map<NodeId, seq<nat>>, origin: ArgName, shared: ArgName)
    requires g.Valid()
    requires origin != shared
    requires forall c :: c in ports ==> c in g.nodes && forall p :: p in ports[c] ==> p < |g.nodes[c].inputs|
    modifies g`nodes, g`consumers
    ensures g.Valid()
    ensures RewiredSoFar(old(g.State()), g.State(), ports, ports.Keys, origin, shared)
  {
    ghost var s := g.State();
    var todo := ports.Keys;
    ghost var done: set<NodeId> := {};
    RewiredNothing(s, ports, origin, shared);
    while todo != {}
      invariant todo + done == ports.Keys && todo !! done
      invariant g.Valid()
      invariant RewiredSoFar(s, g.State(), ports, done, origin, shared)
      decreases todo
    {
      var c :| c in todo;
      ghost var t := g.State();
      assert g.nodes[c] == s.nodes[c];
      RewireNode(g, c, ports[c], shared);
      ghost var t1 := g.State();
      MoveConsumer(g, c, origin, shared);
      MoveKeepsWellFormed(t1, g.State(), c, origin, shared);
      RewireStep(s, t, t1, g.State(), ports, done, c, origin, shared);
      todo := todo - {c};
      done := done + {c};
    }
  }

  /** The state after rewiring: every node in `ports` has its recorded slots
      pointed at `shared` and nothing else changed in it; each such node left
      the consumers of `origin` and is among those of `shared`, which grew at
      the end only; other consumer lists are unchanged; the initializer
      `origin` is gone exactly when its consumer list became empty. */
  ghost predicate InputsReplaced(s: GraphState, t: GraphState, ports: map<NodeId, seq<nat>>,
                                 origin: ArgName, shared: ArgName)
  {
    && RewiredSoFar(s, t.(initializers := s.initializers), ports, ports.Keys, origin, shared)
    && WellFormed(t)
    && t.initializers == (if ConsumersIn(t.consumers, origin) == [] then s.initializers - {origin}
                          else s.initializers)
  }

  /** Points every recorded port at `shared`, moves each rewired node from the
      consumer list of `origin` to that of `shared` (adding it at most once),
      and drops the origin initializer when no consumer is left. */
  method ReplaceInputsToUseSharedInitializer(g: Graph, ports: map<NodeId, seq<nat>>,
                                             origin: ArgName, shared: ArgName)
    requires g.Valid()
    requires origin != shared
    requires forall c :: c in ports ==> c in g.nodes && forall p :: p in ports[c] ==> p < |g.nodes[c].inputs|
    modifies g`nodes, g`consumers, g`initializers
    ensures InputsReplaced(old(g.State()), g.State(), ports, origin, shared)
  {
    RewireConsumers(g, ports, origin, shared);
    ghost var t1 := g.State();
    if g.ConsumerNodes(origin) == [] {
      g.RemoveInitializedTensor(origin);
    }
    assert t1 == g.State().(initializers := old(g.initializers));
  }

  // ---------------------------------------------------------------------------
  // The pass
  // ---------------------------------------------------------------------------

  /** The checks made on one candidate against the current graph: a node arg
      with a valid single-value shape, a constant initializer of a supported
      type, no subgraph use among its consumers, and at least one explicit use. */
  ghost predicate Shareable(s: GraphState, name: ArgName) {
    var cs := ConsumersIn(s.consumers, name);
    && name in s.args && IsValidSingleValueShape(s.args[name])
    && name in s.initializers && name !in s.overridable
    && IsSupportedDataType(s.initializers[name].dataType)
    && (forall c :: c in cs ==> c in s.nodes)
    && FirstImplicitUse(s.nodes, cs, name) == |cs|
    && exists j :: 0 <= j < |cs| && PortsOf(s.nodes[cs[j]].inputs, name) != []
  }

  /** The filter applied when the candidates are collected. */
  predicate Candidate(s: GraphState, excluded: set<ArgName>, name: ArgName) {
    !IsSharedInitializer(name) && name in s.initializers && name !in s.overridable && name !in excluded
  }

  /** The initializers the pass rewrites. */
  ghost predicate Rewritable(s: GraphState, excluded: set<ArgName>, name: ArgName) {
    Candidate(s, excluded, name) && Shareable(s, name)
  }

  /** Node `target` of state `t` holds the same dispatched scalar, at the same
      rank, as node arg `origin` of state `s`. */
  ghost predicate SharesValue(t: GraphState, target: ArgName, s: GraphState, origin: ArgName) {
    && target in t.initializers && origin in s.initializers
    && ScalarOf(t.initializers[target]) == ScalarOf(s.initializers[origin])
    && target in t.args && origin in s.args && t.args[target].Some? && s.args[origin].Some?
    && |t.args[target].value.dims| == |s.args[origin].value.dims|
  }

  /** Same nodes with the same implicit inputs and input counts, and every
      input slot either kept or moved from `from` to `to`. */
  ghost predicate SlotsRewired(before: map<NodeId, Node>, after: map<NodeId, Node>, from: ArgName, to: ArgName) {
    && after.Keys == before.Keys
    && forall c :: c in after ==>
         && after[c].implicitInputs == before[c].implicitInputs
         && |after[c].inputs| == |before[c].inputs|
         && forall k :: 0 <= k < |after[c].inputs| ==>
              after[c].inputs[k] == before[c].inputs[k] || (before[c].inputs[k] == from && after[c].inputs[k] == to)
  }

  lemma PortMapEmpty(ports: map<NodeId, seq<nat>>, nodes: map<NodeId, Node>, cs: seq<NodeId>, arg: ArgName, stop: nat)
    requires stop <= |cs|
    requires forall c :: c in cs ==> c in nodes
    requires PortMapOf(ports, nodes, cs, arg, stop)
    ensures |ports| == 0 <==> forall j :: 0 <= j < stop ==> PortsOf(nodes[cs[j]].inputs, arg) == []
  {
    if |ports| != 0 {
      var c :| c in ports;
      var j :| 0 <= j < stop && cs[..stop][j] == c;
      assert cs[j] == c;
    } else {
      forall j | 0 <= j < stop ensures PortsOf(nodes[cs[j]].inputs, arg) == [] {
        assert cs[j] == cs[..stop][j];
        assert cs[j] !in ports;
      }
    }
  }

  lemma RewiredByPortMap(ports: map<NodeId, seq<nat>>, before: map<NodeId, Node>, after: map<NodeId, Node>,
                         cs: seq<NodeId>, origin: ArgName, stop: nat, shared: ArgName)
    requires stop <= |cs|
    requires forall c :: c in cs ==> c in before
    requires PortMapOf(ports, before, cs, origin, stop)
    requires after.Keys == before.Keys
    requires forall c :: c in after ==>
               after[c] == if c in ports then Rewired(before[c], ports[c], shared) else before[c]
    ensures SlotsRewired(before, after, origin, shared)
  {
  }

  /** `shared` is the recorded initializer of `key`, with nothing changed, or a
      fresh "ortshared_" name now holding `tensor` with shape `shape`. */
  ghost predicate SharedArgFor(s: GraphState, t: GraphState, patterns: map<PatternKey, ArgName>, key: PatternKey,
                               tensor: TensorProto, shape: Option<TensorShape>,
                               newPatterns: map<PatternKey, ArgName>, shared: ArgName)
  {
    && key in newPatterns && newPatterns[key] == shared
    && t.nodes == s.nodes && t.consumers == s.consumers && t.overridable == s.overridable
    && (key in patterns ==> newPatterns == patterns && t == s)
    && (key !in patterns ==>
          && newPatterns == patterns[key := shared]
          && shared !in UsedNamesIn(s) && IsSharedInitializer(shared)
          && t.initializers == s.initializers[shared := tensor]
          && t.args == s.args[shared := shape])
  }

  /** The shared initializer of `key`: the recorded one, or a copy of `tensor`
      added under a fresh name derived from the key. */
  method GetOrCreateSharedArg(g: Graph, patterns: map<PatternKey, ArgName>, key: PatternKey,
                              tensor: TensorProto, shape: Option<TensorShape>)
    returns (newPatterns: map<PatternKey, ArgName>, shared: ArgName)
    modifies g`initializers, g`args
    ensures SharedArgFor(old(g.State()), g.State(), patterns, key, tensor, shape, newPatterns, shared)
  {
    newPatterns := patterns;
    if key !in patterns {
      var sharedName := FreshName(g.UsedNames(), KeyName(key));
      StartsWithTransitive(sharedName, KeyName(key), SharedInitializerPrefix);
      g.AddInitializer(sharedName, tensor, shape);
      newPatterns := patterns[key := sharedName];
    }
    shared := newPatterns[key];
  }

  /** What one sharing step may change: slots moved from `name` to `shared`,
      the consumer lists of those two, the initializer `name` (removed) and the
      initializer and node arg `shared` (added). */
  ghost predicate StepFrame(s: GraphState, t: GraphState, name: ArgName, shared: ArgName) {
    && SlotsRewired(s.nodes, t.nodes, name, shared)
    && (forall a :: a != name && a != shared ==> ConsumersIn(t.consumers, a) == ConsumersIn(s.consumers, a))
    && (forall n :: n != name && n in s.initializers ==> n in t.initializers && t.initializers[n] == s.initializers[n])
    && (forall n :: n in t.initializers ==> n in s.initializers || n == shared)
    && (forall n :: n in s.args ==> n in t.args && t.args[n] == s.args[n])
    && (forall n :: n in t.args ==> n in s.args || n == shared)
    && UsedNamesIn(s) <= UsedNamesIn(t)
    && t.overridable == s.overridable
  }

  lemma StepFrameHolds(s: GraphState, s1: GraphState, t: GraphState, name: ArgName, shared: ArgName)
    requires name in s.args && name != shared
    requires s1.nodes == s.nodes && s1.consumers == s.consumers && s1.overridable == s.overridable
    requires (s1.initializers == s.initializers && s1.args == s.args) ||
             (shared !in UsedNamesIn(s) && s1.initializers.Keys == s.initializers.Keys + {shared} &&
              (forall n :: n in s.initializers ==> s1.initializers[n] == s.initializers[n]) &&
              shared in s1.args && s1.args == s.args[shared := s1.args[shared]])
    requires SlotsRewired(s1.nodes, t.nodes, name, shared)
    requires forall a :: a != name && a != shared ==> ConsumersIn(t.consumers, a) == ConsumersIn(s1.consumers, a)
    requires s1.consumers.Keys <= t.consumers.Keys
    requires t.initializers == s1.initializers || t.initializers == s1.initializers - {name}
    requires t.args == s1.args && t.overridable == s1.overridable
    ensures StepFrame(s, t, name, shared)
  {
  }

  lemma ReplacedKeepsFrame(s: GraphState, s1: GraphState, t: GraphState, ports: map<NodeId, seq<nat>>,
                           cs: seq<NodeId>, name: ArgName, shared: ArgName)
    requires name in s.args && name != shared
    requires cs == ConsumersIn(s.consumers, name)
    requires forall c :: c in cs ==> c in s.nodes
    requires PortMapOf(ports, s.nodes, cs, name, |cs|)
    requires s1.nodes == s.nodes && s1.consumers == s.consumers && s1.overridable == s.overridable
    requires (s1.initializers == s.initializers && s1.args == s.args) ||
             (shared !in UsedNamesIn(s) && s1.initializers.Keys == s.initializers.Keys + {shared} &&
              (forall n :: n in s.initializers ==> s1.initializers[n] == s.initializers[n]) &&
              shared in s1.args && s1.args == s.args[shared := s1.args[shared]])
    requires forall c :: c in ports ==> c in s1.nodes
    requires InputsReplaced(s1, t, ports, name, shared)
    ensures StepFrame(s, t, name, shared)
  {
    RewiredByPortMap(ports, s1.nodes, t.nodes, cs, name, |cs|, shared);
    StepFrameHolds(s, s1, t, name, shared);
  }

  /** The outcome of one sharing step from state `s` to state `t`: either
      nothing changed, or `name` was interned under `key` (data type -1, its
      value's id in the store, its rank) and its uses moved to `shared`, a
      fresh "ortshared_" copy of it when the key was new. */
  ghost predicate SharedStep(s: GraphState, t: GraphState, name: ArgName,
                             store: seq<ScalarValue>, patterns: map<PatternKey, ArgName>, replaced: bool,
                             newStore: seq<ScalarValue>, newPatterns: map<PatternKey, ArgName>,
                             key: PatternKey, shared: ArgName)
  {
    && WellFormed(t)
    && StepFrame(s, t, name, shared)
    && |store| <= |newStore| && newStore[..|store|] == store
    && (!replaced ==> t == s && newStore == store && newPatterns == patterns)
    && (replaced ==>
          && shared != name
          && key in newPatterns && newPatterns[key] == shared
          && key.dataType == -1
          && key.valueId < |newStore|
          && name in s.initializers && ScalarOf(s.initializers[name]) == Some(newStore[key.valueId])
          && name in s.args && s.args[name].Some? && key.rank == |s.args[name].value.dims|)
    && (newPatterns == patterns ||
          (&& key !in patterns && newPatterns == patterns[key := shared]
           && shared !in UsedNamesIn(s) && IsSharedInitializer(shared)
           && shared in t.initializers && name in s.initializers && t.initializers[shared] == s.initializers[name]
           && shared in t.args && name in s.args && t.args[shared] == s.args[name]))
  }

  lemma ShareConstantOutcome(s: GraphState, s1: GraphState, t: GraphState, ports: map<NodeId, seq<nat>>,
                             cs: seq<NodeId>, name: ArgName,
                             store: seq<ScalarValue>, patterns: map<PatternKey, ArgName>,
                             newStore: seq<ScalarValue>, newPatterns: map<PatternKey, ArgName>,
                             key: PatternKey, shared: ArgName)
    requires name !in patterns.Values
    requires name in s.initializers && ScalarOf(s.initializers[name]).Some?
    requires name in s.args && s.args[name].Some?
    requires cs == ConsumersIn(s.consumers, name)
    requires forall c :: c in cs ==> c in s.nodes
    requires PortMapOf(ports, s.nodes, cs, name, |cs|)
    requires key.valueId < |newStore| && newStore[key.valueId] == ScalarOf(s.initializers[name]).value
    requires |store| <= |newStore| && newStore[..|store|] == store
    requires key.dataType == -1 && key.rank == |s.args[name].value.dims|
    requires SharedArgFor(s, s1, patterns, key, s.initializers[name], s.args[name], newPatterns, shared)
    requires forall c :: c in ports ==> c in s1.nodes
    requires shared != name
    requires InputsReplaced(s1, t, ports, name, shared)
    ensures SharedStep(s, t, name, store, patterns, true, newStore, newPatterns, key, shared)
  {
    ReplacedKeepsFrame(s, s1, t, ports, cs, name, shared);
  }

  /** Every slot of a node on the consumer list of `name` that named `name`
      in `s` names `shared` in `t`. */
  ghost predicate AllUsesMoved(s: GraphState, t: GraphState, name: ArgName, shared: ArgName) {
    forall c, k :: (&& c in ConsumersIn(s.consumers, name) && c in s.nodes && c in t.nodes
                    && 0 <= k < |s.nodes[c].inputs| && k < |t.nodes[c].inputs| && s.nodes[c].inputs[k] == name)
                   ==> t.nodes[c].inputs[k] == shared
  }

  /** The port map covers all the consumers, so rewiring it moves every use. */
  lemma PortMapMovesAll(s: GraphState, s1: GraphState, t: GraphState, ports: map<NodeId, seq<nat>>,
                        name: ArgName, shared: ArgName)
    requires s1.nodes == s.nodes && s1.consumers == s.consumers
    requires forall c :: c in ConsumersIn(s.consumers, name) ==> c in s.nodes
    requires PortMapOf(ports, s.nodes, ConsumersIn(s.consumers, name), name, |ConsumersIn(s.consumers, name)|)
    requires InputsReplaced(s1, t, ports, name, shared)
    ensures AllUsesMoved(s, t, name, shared)
  {
    var cs := ConsumersIn(s.consumers, name);
    assert cs[..|cs|] == cs;
    forall c, k | (&& c in cs && c in s.nodes && c in t.nodes
                   && 0 <= k < |s.nodes[c].inputs| && k < |t.nodes[c].inputs| && s.nodes[c].inputs[k] == name)
      ensures t.nodes[c].inputs[k] == shared
    {
      assert k in PortsOf(s.nodes[c].inputs, name);
      assert c in ports;
      assert t.nodes[c] == Rewired(s.nodes[c], ports[c], shared);
    }
  }

  /** The part of a sharing step after the checks passed: intern the value,
      build the key, get or create the shared initializer and rewire. */
  method ShareConstant(g: Graph, name: ArgName, ports: map<NodeId, seq<nat>>,
                       store: seq<ScalarValue>, patterns: map<PatternKey, ArgName>)
    returns (newStore: seq<ScalarValue>, newPatterns: map<PatternKey, ArgName>, key: PatternKey, shared: ArgName)
    requires g.Valid()
    requires name !in patterns.Values
    requires name in g.initializers && ScalarOf(g.initializers[name]).Some?
    requires name in g.args && g.args[name].Some?
    requires forall c :: c in g.ConsumerNodes(name) ==> c in g.nodes
    requires PortMapOf(ports, g.nodes, g.ConsumerNodes(name), name, |g.ConsumerNodes(name)|)
    modifies g`nodes, g`consumers, g`initializers, g`args
    ensures SharedStep(old(g.State()), g.State(), name, store, patterns, true, newStore, newPatterns, key, shared)
    ensures NoDup(store) ==> NoDup(newStore)
    ensures AllUsesMoved(old(g.State()), g.State(), name, shared)
  {
    ghost var s := g.State();
    var cs := g.ConsumerNodes(name);
    var tensor := g.initializers[name];
    var value := ScalarOf(tensor).value;
    var valueId;
    valueId, newStore := GetOrAddValueIntoConstantStore(value, store);
    var shape := g.args[name];
    var dataType := -1;
    key := PatternKey(valueId, dataType, |shape.value.dims|);
    newPatterns, shared := GetOrCreateSharedArg(g, patterns, key, tensor, shape);
    ghost var s1 := g.State();
    ReplaceInputsToUseSharedInitializer(g, ports, name, shared);
    ShareConstantOutcome(s, s1, g.State(), ports, cs, name, store, patterns, newStore, newPatterns, key, shared);
    PortMapMovesAll(s, s1, g.State(), ports, name, shared);
  }

  /** The checks of one iteration of the pass's main loop, in source order:
      a node arg with a valid single-value shape, a constant initializer of a
      supported type, no subgraph use and at least one explicit use. When they
      pass, `ports` holds every consumer's ports naming `name`. */
  method CheckCandidate(g: Graph, name: ArgName) returns (ok: bool, ports: map<NodeId, seq<nat>>)
    requires g.Valid()
    ensures ok <==> Shareable(g.State(), name)
    ensures ok ==> forall c :: c in g.ConsumerNodes(name) ==> c in g.nodes
    ensures ok ==> PortMapOf(ports, g.nodes, g.ConsumerNodes(name), name, |g.ConsumerNodes(name)|)
  {
    ok, ports := false, map[];
    if name !in g.args || !IsValidSingleValueShape(g.args[name]) {
      return;
    }
    var tensor := g.GetConstantInitializer(name);
    if tensor.None? || !IsSupportedDataType(tensor.value.dataType) {
      return;
    }
    var found;
    found, ports := PrepareInputPortsToReplace(g, name);
    var cs := g.ConsumerNodes(name);
    PortMapEmpty(ports, g.nodes, cs, name, FirstImplicitUse(g.nodes, cs, name));
    ok := !found && |ports| != 0;
  }

  /** One iteration of the pass's main loop: shares initializer `name` when it
      passes the checks, creating or reusing the shared initializer of its
      pattern key. `key` and `shared` name the pattern used when `replaced`. */
  method ShareInitializer(g: Graph, name: ArgName, store: seq<ScalarValue>, patterns: map<PatternKey, ArgName>)
    returns (replaced: bool, newStore: seq<ScalarValue>, newPatterns: map<PatternKey, ArgName>,
             ghost key: PatternKey, ghost shared: ArgName)
    requires g.Valid()
    requires name !in patterns.Values
    modifies g`nodes, g`consumers, g`initializers, g`args
    ensures replaced <==> Shareable(old(g.State()), name)
    ensures SharedStep(old(g.State()), g.State(), name, store, patterns, replaced, newStore, newPatterns, key, shared)
    ensures NoDup(store) ==> NoDup(newStore)
    ensures replaced ==> AllUsesMoved(old(g.State()), g.State(), name, shared)
  {
    newStore, newPatterns, replaced := store, patterns, false;
    key, shared := PatternKey(0, -1, 0), name;
    var ok, ports := CheckCandidate(g, name);
    if !ok {
      return;
    }
    var k, a;
    newStore, newPatterns, k, a := ShareConstant(g, name, ports, store, patterns);
    key, shared := k, a;
    replaced := true;
  }

  /** The shared initializers recorded so far: one per key, each with data
      type -1 in its key, an "ortshared_" name unused in the original graph `s0`,
      present as an initializer and node arg; new initializers and node args
      are shared ones only. */
  ghost predicate PatternsFresh(s0: GraphState, t: GraphState, patterns: map<PatternKey, ArgName>) {
    && (forall k :: k in patterns ==>
          && k.dataType == -1 && IsSharedInitializer(patterns[k]) && patterns[k] !in UsedNamesIn(s0)
          && patterns[k] in t.initializers && patterns[k] in t.args)
    && (forall k1, k2 :: k1 in patterns && k2 in patterns && k1 != k2 ==> patterns[k1] != patterns[k2])
    && t.initializers.Keys <= s0.initializers.Keys + patterns.Values
    && (forall n :: n in t.args ==> n in s0.args || n in patterns.Values)
  }

  /** Each shared initializer holds the store entry of its key's value id, at
      its key's rank. */
  ghost predicate PatternsHoldStore(t: GraphState, patterns: map<PatternKey, ArgName>, store: seq<ScalarValue>) {
    forall k :: k in patterns ==>
      && patterns[k] in t.initializers && patterns[k] in t.args && t.args[patterns[k]].Some?
      && k.valueId < |store| && ScalarOf(t.initializers[patterns[k]]) == Some(store[k.valueId])
      && |t.args[patterns[k]].value.dims| == k.rank
  }

  /** Initializer `n` and its consumer list are as in `s0`. */
  ghost predicate Untouched(s0: GraphState, t: GraphState, n: ArgName) {
    && ConsumersIn(t.consumers, n) == ConsumersIn(s0.consumers, n)
    && (n in t.initializers <==> n in s0.initializers)
    && (n in s0.initializers ==> t.initializers[n] == s0.initializers[n])
  }

  /** Every input slot is as in `s0`, or named a rewritable initializer among
      `done` and now names a shared initializer with the same value and rank. */
  ghost predicate SlotsShared(s0: GraphState, t: GraphState, excluded: set<ArgName>, done: set<ArgName>,
                              patterns: map<PatternKey, ArgName>) {
    && t.nodes.Keys == s0.nodes.Keys
    && forall c :: c in t.nodes ==>
         && t.nodes[c].implicitInputs == s0.nodes[c].implicitInputs
         && |t.nodes[c].inputs| == |s0.nodes[c].inputs|
         && forall k :: 0 <= k < |t.nodes[c].inputs| ==>
              t.nodes[c].inputs[k] == s0.nodes[c].inputs[k] ||
              (&& s0.nodes[c].inputs[k] in done && Rewritable(s0, excluded, s0.nodes[c].inputs[k])
               && t.nodes[c].inputs[k] in patterns.Values
               && SharesValue(t, t.nodes[c].inputs[k], s0, s0.nodes[c].inputs[k]))
  }

  /** Every input slot of a node on the original consumer list of a rewritable
      initializer among `done` that named it no longer does. */
  ghost predicate UsesRewired(s0: GraphState, t: GraphState, excluded: set<ArgName>, done: set<ArgName>) {
    forall c, k :: (&& c in s0.nodes && c in t.nodes && 0 <= k < |s0.nodes[c].inputs| && k < |t.nodes[c].inputs|
                    && s0.nodes[c].inputs[k] in done && Rewritable(s0, excluded, s0.nodes[c].inputs[k])
                    && c in ConsumersIn(s0.consumers, s0.nodes[c].inputs[k]))
                   ==> t.nodes[c].inputs[k] != s0.nodes[c].inputs[k]
  }

  /** One step keeps `UsesRewired`: the uses of the new candidate all moved,
      and the earlier ones can only have moved to a fresh shared name. */
  lemma UsesRewiredStep(s0: GraphState, t: GraphState, t2: GraphState, excluded: set<ArgName>, done: set<ArgName>,
                        patterns: map<PatternKey, ArgName>, name: ArgName, replaced: bool, shared: ArgName)
    requires UsesRewired(s0, t, excluded, done) && SlotsShared(s0, t, excluded, done, patterns)
    requires name !in done && ConsumersIn(t.consumers, name) == ConsumersIn(s0.consumers, name)
    requires replaced <==> Rewritable(s0, excluded, name)
    requires !replaced ==> t2 == t
    requires replaced ==> AllUsesMoved(t, t2, name, shared) && shared != name && shared !in UsedNamesIn(s0)
    requires SlotsRewired(t.nodes, t2.nodes, name, shared)
    ensures UsesRewired(s0, t2, excluded, done + {name})
  {
    forall c, k | (&& c in s0.nodes && c in t2.nodes && 0 <= k < |s0.nodes[c].inputs| && k < |t2.nodes[c].inputs|
                   && s0.nodes[c].inputs[k] in done + {name} && Rewritable(s0, excluded, s0.nodes[c].inputs[k])
                   && c in ConsumersIn(s0.consumers, s0.nodes[c].inputs[k]))
      ensures t2.nodes[c].inputs[k] != s0.nodes[c].inputs[k]
    {
      var n := s0.nodes[c].inputs[k];
      assert n in UsedNamesIn(s0);
      if n == name {
        assert t.nodes[c].inputs[k] == name;
      }
    }
  }

  /** The invariant of the main loop, `done` being the candidates handled. */
  ghost predicate PassProgress(s0: GraphState, t: GraphState, excluded: set<ArgName>, done: set<ArgName>,
                               patterns: map<PatternKey, ArgName>, store: seq<ScalarValue>) {
    && WellFormed(t)
    && t.overridable == s0.overridable
    && (forall n :: n in s0.args ==> n in t.args && t.args[n] == s0.args[n])
    && UsedNamesIn(s0) <= UsedNamesIn(t)
    && (forall n :: n in UsedNamesIn(s0) && (n !in done || !Rewritable(s0, excluded, n)) ==> Untouched(s0, t, n))
    && SlotsShared(s0, t, excluded, done, patterns)
    && PatternsFresh(s0, t, patterns)
    && PatternsHoldStore(t, patterns, store)
  }

  lemma PassStart(s0: GraphState, excluded: set<ArgName>)
    requires WellFormed(s0)
    ensures PassProgress(s0, s0, excluded, {}, map[], [])
  {
  }

  /** Where a slot differs from the original it names a shared initializer,
      so the slots naming an original, unhandled initializer are unchanged. */
  lemma PortsUnaffected(s0: GraphState, t: GraphState, excluded: set<ArgName>, done: set<ArgName>,
                        patterns: map<PatternKey, ArgName>, name: ArgName, c: NodeId)
    requires SlotsShared(s0, t, excluded, done, patterns) && PatternsFresh(s0, t, patterns)
    requires name in UsedNamesIn(s0) && name !in done && c in s0.nodes
    ensures PortsOf(t.nodes[c].inputs, name) == PortsOf(s0.nodes[c].inputs, name)
  {
    var a, b := t.nodes[c].inputs, s0.nodes[c].inputs;
    forall k | 0 <= k < |a| ensures a[k] == name <==> b[k] == name {
      if a[k] != b[k] {
        assert a[k] in patterns.Values;
        assert a[k] !in UsedNamesIn(s0);
      }
    }
    PortsUpToFrame(a, b, name, |a|);
  }

  /** A candidate not yet handled sees the graph as it was originally. */
  lemma ShareableUnaffected(s0: GraphState, t: GraphState, excluded: set<ArgName>, done: set<ArgName>,
                            patterns: map<PatternKey, ArgName>, store: seq<ScalarValue>, name: ArgName)
    requires PassProgress(s0, t, excluded, done, patterns, store)
    requires name in s0.initializers && name !in done
    ensures Shareable(t, name) <==> Shareable(s0, name)
  {
    assert name in UsedNamesIn(s0);
    assert Untouched(s0, t, name);
    var cs := ConsumersIn(s0.consumers, name);
    assert cs == ConsumersIn(t.consumers, name);
    assert t.nodes.Keys == s0.nodes.Keys;
    if forall c :: c in cs ==> c in s0.nodes {
      UsesUnaffected(s0, t, excluded, done, patterns, name, cs);
    }
    ShareableFrame(s0, t, name);
    ShareableFrame(t, s0, name);
  }

  /** `Shareable` only reads the candidate's shape, tensor and consumer list,
      and each consumer's uses of it. */
  lemma ShareableFrame(s: GraphState, t: GraphState, name: ArgName)
    requires ConsumersIn(t.consumers, name) == ConsumersIn(s.consumers, name)
    requires (name in t.args <==> name in s.args) && (name in s.args ==> t.args[name] == s.args[name])
    requires (name in t.initializers <==> name in s.initializers)
    requires name in s.initializers ==> t.initializers[name] == s.initializers[name]
    requires t.overridable == s.overridable && t.nodes.Keys == s.nodes.Keys
    requires var cs := ConsumersIn(s.consumers, name);
             (forall c :: c in cs ==> c in s.nodes) ==>
               && FirstImplicitUse(t.nodes, cs, name) == FirstImplicitUse(s.nodes, cs, name)
               && forall j :: 0 <= j < |cs| ==> PortsOf(t.nodes[cs[j]].inputs, name) == PortsOf(s.nodes[cs[j]].inputs, name)
    ensures Shareable(s, name) ==> Shareable(t, name)
  {
    var cs := ConsumersIn(s.consumers, name);
    if Shareable(s, name) {
      var j :| 0 <= j < |cs| && PortsOf(s.nodes[cs[j]].inputs, name) != [];
      assert PortsOf(t.nodes[cs[j]].inputs, name) != [];
    }
  }

  /** The consumers' uses of an unhandled original name are as in `s0`. */
  lemma UsesUnaffected(s0: GraphState, t: GraphState, excluded: set<ArgName>, done: set<ArgName>,
                       patterns: map<PatternKey, ArgName>, name: ArgName, cs: seq<NodeId>)
    requires SlotsShared(s0, t, excluded, done, patterns) && PatternsFresh(s0, t, patterns)
    requires name in UsedNamesIn(s0) && name !in done
    requires forall c :: c in cs ==> c in s0.nodes
    ensures FirstImplicitUse(t.nodes, cs, name) == FirstImplicitUse(s0.nodes, cs, name)
    ensures forall j :: 0 <= j < |cs| ==> PortsOf(t.nodes[cs[j]].inputs, name) == PortsOf(s0.nodes[cs[j]].inputs, name)
  {
    FirstImplicitUseFrame(s0.nodes, t.nodes, cs, name);
    forall j | 0 <= j < |cs|
      ensures PortsOf(t.nodes[cs[j]].inputs, name) == PortsOf(s0.nodes[cs[j]].inputs, name)
    {
      PortsUnaffected(s0, t, excluded, done, patterns, name, cs[j]);
    }
  }

  lemma PassStep(s0: GraphState, t: GraphState, t2: GraphState, excluded: set<ArgName>, done: set<ArgName>,
                 name: ArgName, store: seq<ScalarValue>, patterns: map<PatternKey, ArgName>, replaced: bool,
                 newStore: seq<ScalarValue>, newPatterns: map<PatternKey, ArgName>,
                 key: PatternKey, shared: ArgName)
    requires PassProgress(s0, t, excluded, done, patterns, store)
    requires Candidate(s0, excluded, name) && name !in done
    requires replaced <==> Rewritable(s0, excluded, name)
    requires SharedStep(t, t2, name, store, patterns, replaced, newStore, newPatterns, key, shared)
    ensures PassProgress(s0, t2, excluded, done + {name}, newPatterns, newStore)
  {
    assert name in UsedNamesIn(s0);
    assert Untouched(s0, t, name);
    if replaced {
      StepKeepsProgress(s0, t, t2, excluded, done, name, store, patterns, newStore, newPatterns, key, shared);
    }
  }

  lemma StepKeepsProgress(s0: GraphState, t: GraphState, t2: GraphState, excluded: set<ArgName>, done: set<ArgName>,
                          name: ArgName, store: seq<ScalarValue>, patterns: map<PatternKey, ArgName>,
                          newStore: seq<ScalarValue>, newPatterns: map<PatternKey, ArgName>,
                          key: PatternKey, shared: ArgName)
    requires PassProgress(s0, t, excluded, done, patterns, store)
    requires Candidate(s0, excluded, name) && name !in done
    requires Rewritable(s0, excluded, name)
    requires Untouched(s0, t, name)
    requires SharedStep(t, t2, name, store, patterns, true, newStore, newPatterns, key, shared)
    ensures PassProgress(s0, t2, excluded, done + {name}, newPatterns, newStore)
  {
    assert shared in newPatterns.Values;
    assert shared !in UsedNamesIn(s0);
    KeepsPatterns(s0, t, t2, name, store, patterns, newStore, newPatterns, key, shared);
    KeepsSlots(s0, t, t2, excluded, done, name, store, patterns, newStore, newPatterns, key, shared);
  }

  lemma KeepsPatterns(s0: GraphState, t: GraphState, t2: GraphState,
                      name: ArgName, store: seq<ScalarValue>, patterns: map<PatternKey, ArgName>,
                      newStore: seq<ScalarValue>, newPatterns: map<PatternKey, ArgName>,
                      key: PatternKey, shared: ArgName)
    requires PatternsFresh(s0, t, patterns) && PatternsHoldStore(t, patterns, store)
    requires name in s0.initializers && UsedNamesIn(s0) <= UsedNamesIn(t)
    requires SharedStep(t, t2, name, store, patterns, true, newStore, newPatterns, key, shared)
    ensures PatternsFresh(s0, t2, newPatterns) && PatternsHoldStore(t2, newPatterns, newStore)
  {
    forall k | k in patterns
      ensures patterns[k] != name
    {
      assert patterns[k] !in UsedNamesIn(s0);
    }
    KeepsFresh(s0, t, t2, name, patterns, newPatterns, key, shared);
    KeepsHoldStore(t, t2, name, store, patterns, newStore, newPatterns, key, shared);
  }

  lemma KeepsFresh(s0: GraphState, t: GraphState, t2: GraphState,
                   name: ArgName, patterns: map<PatternKey, ArgName>, newPatterns: map<PatternKey, ArgName>,
                   key: PatternKey, shared: ArgName)
    requires PatternsFresh(s0, t, patterns)
    requires UsedNamesIn(s0) <= UsedNamesIn(t)
    requires forall k :: k in patterns ==> patterns[k] != name
    requires forall n :: n != name && n in t.initializers ==> n in t2.initializers
    requires forall n :: n in t2.initializers ==> n in t.initializers || n == shared
    requires forall n :: n in t.args ==> n in t2.args
    requires forall n :: n in t2.args ==> n in t.args || n == shared
    requires key.dataType == -1 && key in newPatterns && newPatterns[key] == shared
    requires newPatterns == patterns ||
             (&& key !in patterns && newPatterns == patterns[key := shared]
              && shared !in UsedNamesIn(t) && IsSharedInitializer(shared)
              && shared in t2.initializers && shared in t2.args)
    ensures PatternsFresh(s0, t2, newPatterns)
  {
    if newPatterns == patterns {
      FreshKept(s0, t, t2, name, patterns, key);
    } else {
      FreshAdded(s0, t, t2, name, patterns, key, shared);
    }
  }

  /** A step that reuses the recorded shared initializer keeps the record fresh. */
  lemma FreshKept(s0: GraphState, t: GraphState, t2: GraphState,
                  name: ArgName, patterns: map<PatternKey, ArgName>, key: PatternKey)
    requires PatternsFresh(s0, t, patterns)
    requires key in patterns
    requires forall k :: k in patterns ==> patterns[k] != name
    requires forall n :: n != name && n in t.initializers ==> n in t2.initializers
    requires forall n :: n in t2.initializers ==> n in t.initializers || n == patterns[key]
    requires forall n :: n in t.args ==> n in t2.args
    requires forall n :: n in t2.args ==> n in t.args || n == patterns[key]
    ensures PatternsFresh(s0, t2, patterns)
  {
    assert patterns[key] in patterns.Values;
  }

  /** A step that records a new shared initializer under a new key keeps the
      record fresh. */
  lemma FreshAdded(s0: GraphState, t: GraphState, t2: GraphState,
                   name: ArgName, patterns: map<PatternKey, ArgName>, key: PatternKey, shared: ArgName)
    requires PatternsFresh(s0, t, patterns)
    requires UsedNamesIn(s0) <= UsedNamesIn(t)
    requires forall k :: k in patterns ==> patterns[k] != name
    requires forall n :: n != name && n in t.initializers ==> n in t2.initializers
    requires forall n :: n in t2.initializers ==> n in t.initializers || n == shared
    requires forall n :: n in t.args ==> n in t2.args
    requires forall n :: n in t2.args ==> n in t.args || n == shared
    requires key.dataType == -1 && key !in patterns
    requires shared !in UsedNamesIn(t) && IsSharedInitializer(shared)
    requires shared in t2.initializers && shared in t2.args
    ensures PatternsFresh(s0, t2, patterns[key := shared])
  {
    forall k | k in patterns ensures patterns[k] != shared {
      assert patterns[k] in t.initializers;
    }
    RecordedAdded(s0, t, t2, name, patterns, patterns[key := shared], key, shared);
    DistinctAdded(patterns, patterns[key := shared], key, shared);
    AddedCovered(s0, t, t2, patterns, key, shared);
  }

  /** Each recorded shared initializer, the new one included, keeps its
      per-key facts. */
  lemma RecordedAdded(s0: GraphState, t: GraphState, t2: GraphState,
                      name: ArgName, patterns: map<PatternKey, ArgName>, np: map<PatternKey, ArgName>,
                      key: PatternKey, shared: ArgName)
    requires PatternsFresh(s0, t, patterns)
    requires UsedNamesIn(s0) <= UsedNamesIn(t)
    requires forall k :: k in patterns ==> patterns[k] != name
    requires forall n :: n != name && n in t.initializers ==> n in t2.initializers
    requires forall n :: n in t.args ==> n in t2.args
    requires key.dataType == -1
    requires shared !in UsedNamesIn(t) && IsSharedInitializer(shared)
    requires shared in t2.initializers && shared in t2.args
    requires np == patterns[key := shared]
    ensures forall k :: k in np ==>
              && k.dataType == -1 && IsSharedInitializer(np[k]) && np[k] !in UsedNamesIn(s0)
              && np[k] in t2.initializers && np[k] in t2.args
  {
    forall k | k in np
      ensures && k.dataType == -1 && IsSharedInitializer(np[k]) && np[k] !in UsedNamesIn(s0)
              && np[k] in t2.initializers && np[k] in t2.args
    {
      if k != key {
        assert np[k] == patterns[k] && patterns[k] != name;
      }
    }
  }

  /** A name not yet recorded keeps the record one name per key. */
  lemma DistinctAdded(patterns: map<PatternKey, ArgName>, np: map<PatternKey, ArgName>, key: PatternKey, shared: ArgName)
    requires np == patterns[key := shared]
    requires forall k1, k2 :: k1 in patterns && k2 in patterns && k1 != k2 ==> patterns[k1] != patterns[k2]
    requires forall k :: k in patterns ==> patterns[k] != shared
    ensures forall k1, k2 :: k1 in np && k2 in np && k1 != k2 ==> np[k1] != np[k2]
  {
    forall k1, k2 | k1 in np && k2 in np && k1 != k2 ensures np[k1] != np[k2] {
      if k1 != key && k2 != key {
        assert np[k1] == patterns[k1] && np[k2] == patterns[k2];
      }
    }
  }

  /** After the step, every initializer and node arg is an original one or a
      recorded shared one. */
  lemma AddedCovered(s0: GraphState, t: GraphState, t2: GraphState,
                     patterns: map<PatternKey, ArgName>, key: PatternKey, shared: ArgName)
    requires key !in patterns
    requires t.initializers.Keys <= s0.initializers.Keys + patterns.Values
    requires forall n :: n in t.args ==> n in s0.args || n in patterns.Values
    requires forall n :: n in t2.initializers ==> n in t.initializers || n == shared
    requires forall n :: n in t2.args ==> n in t.args || n == shared
    ensures t2.initializers.Keys <= s0.initializers.Keys + patterns[key := shared].Values
    ensures forall n :: n in t2.args ==> n in s0.args || n in patterns[key := shared].Values
  {
    var np := patterns[key := shared];
    forall n | n in t2.initializers ensures n in s0.initializers || n in np.Values {
      if n == shared {
        assert np[key] == n;
      } else if n !in s0.initializers {
        var k :| k in patterns && patterns[k] == n;
        assert np[k] == n;
      }
    }
    forall n | n in t2.args ensures n in s0.args || n in np.Values {
      if n == shared {
        assert np[key] == n;
      } else if n !in s0.args {
        var k :| k in patterns && patterns[k] == n;
        assert np[k] == n;
      }
    }
  }

  lemma KeepsHoldStore(t: GraphState, t2: GraphState,
                       name: ArgName, store: seq<ScalarValue>, patterns: map<PatternKey, ArgName>,
                       newStore: seq<ScalarValue>, newPatterns: map<PatternKey, ArgName>,
                       key: PatternKey, shared: ArgName)
    requires PatternsHoldStore(t, patterns, store)
    requires forall k :: k in patterns ==> patterns[k] != name
    requires SharedStep(t, t2, name, store, patterns, true, newStore, newPatterns, key, shared)
    ensures PatternsHoldStore(t2, newPatterns, newStore)
  {
    forall k | k in newPatterns
      ensures k.valueId < |newStore| && (k in patterns ==> store[k.valueId] == newStore[k.valueId])
    {
      if k in patterns {
        assert newStore[..|store|][k.valueId] == newStore[k.valueId];
      }
    }
  }

  lemma KeepsSlots(s0: GraphState, t: GraphState, t2: GraphState, excluded: set<ArgName>, done: set<ArgName>,
                   name: ArgName, store: seq<ScalarValue>, patterns: map<PatternKey, ArgName>,
                   newStore: seq<ScalarValue>, newPatterns: map<PatternKey, ArgName>,
                   key: PatternKey, shared: ArgName)
    requires PassProgress(s0, t, excluded, done, patterns, store)
    requires Rewritable(s0, excluded, name) && name !in done
    requires Untouched(s0, t, name)
    requires SharedStep(t, t2, name, store, patterns, true, newStore, newPatterns, key, shared)
    requires PatternsFresh(s0, t2, newPatterns) && PatternsHoldStore(t2, newPatterns, newStore)
    ensures PassProgress(s0, t2, excluded, done + {name}, newPatterns, newStore)
  {
    assert name in UsedNamesIn(s0);
    SharedTarget(s0, t, t2, name, store, patterns, newStore, newPatterns, key, shared);
    SlotsStep(s0, t, t2, excluded, done, name, patterns, newPatterns, shared);
    UntouchedStep(s0, t, t2, excluded, done, name, shared);
  }

  /** The shared initializer of a step holds the candidate's original value
      at its rank and joins the recorded ones, which are all kept. */
  lemma SharedTarget(s0: GraphState, t: GraphState, t2: GraphState,
                     name: ArgName, store: seq<ScalarValue>, patterns: map<PatternKey, ArgName>,
                     newStore: seq<ScalarValue>, newPatterns: map<PatternKey, ArgName>,
                     key: PatternKey, shared: ArgName)
    requires Untouched(s0, t, name) && name in s0.initializers
    requires forall n :: n in s0.args ==> n in t.args && t.args[n] == s0.args[n]
    requires SharedStep(t, t2, name, store, patterns, true, newStore, newPatterns, key, shared)
    requires PatternsFresh(s0, t2, newPatterns) && PatternsHoldStore(t2, newPatterns, newStore)
    ensures SharesValue(t2, shared, s0, name)
    ensures patterns.Values <= newPatterns.Values && shared in newPatterns.Values
  {
    assert ScalarOf(s0.initializers[name]) == Some(newStore[key.valueId]);
    assert ScalarOf(t2.initializers[shared]) == Some(newStore[key.valueId]);
    if newPatterns != patterns {
      forall n | n in patterns.Values ensures n in newPatterns.Values {
        var k :| k in patterns && patterns[k] == n;
        assert newPatterns[k] == n;
      }
    }
    assert newPatterns[key] == shared;
  }

  /** The step on `name` leaves every other original name untouched. */
  lemma UntouchedStep(s0: GraphState, t: GraphState, t2: GraphState, excluded: set<ArgName>, done: set<ArgName>,
                      name: ArgName, shared: ArgName)
    requires forall n :: n in UsedNamesIn(s0) && (n !in done || !Rewritable(s0, excluded, n)) ==> Untouched(s0, t, n)
    requires Rewritable(s0, excluded, name) && shared !in UsedNamesIn(s0)
    requires StepFrame(t, t2, name, shared)
    ensures forall n :: n in UsedNamesIn(s0) && (n !in done + {name} || !Rewritable(s0, excluded, n)) ==>
              Untouched(s0, t2, n)
  {
    forall n | n in UsedNamesIn(s0) && (n !in done + {name} || !Rewritable(s0, excluded, n))
      ensures Untouched(s0, t2, n)
    {
      assert n != name;
      assert n != shared;
      assert Untouched(s0, t, n);
    }
  }

  /** Moving the slots of `name` to `shared` extends the shared slots by `name`. */
  lemma SlotsStep(s0: GraphState, t: GraphState, t2: GraphState, excluded: set<ArgName>, done: set<ArgName>,
                  name: ArgName, patterns: map<PatternKey, ArgName>, newPatterns: map<PatternKey, ArgName>,
                  shared: ArgName)
    requires SlotsShared(s0, t, excluded, done, patterns) && PatternsFresh(s0, t, patterns)
    requires Rewritable(s0, excluded, name) && name in UsedNamesIn(s0)
    requires SlotsRewired(t.nodes, t2.nodes, name, shared)
    requires forall n :: n != name && n in t.initializers ==> n in t2.initializers && t2.initializers[n] == t.initializers[n]
    requires forall n :: n in t.args ==> n in t2.args && t2.args[n] == t.args[n]
    requires SharesValue(t2, shared, s0, name)
    requires patterns.Values <= newPatterns.Values && shared in newPatterns.Values
    ensures SlotsShared(s0, t2, excluded, done + {name}, newPatterns)
  {
    forall c | c in t2.nodes
      ensures forall k :: 0 <= k < |t2.nodes[c].inputs| ==>
                t2.nodes[c].inputs[k] == s0.nodes[c].inputs[k] ||
                (&& s0.nodes[c].inputs[k] in done + {name} && Rewritable(s0, excluded, s0.nodes[c].inputs[k])
                 && t2.nodes[c].inputs[k] in newPatterns.Values
                 && SharesValue(t2, t2.nodes[c].inputs[k], s0, s0.nodes[c].inputs[k]))
    {
      forall k | 0 <= k < |t2.nodes[c].inputs|
        ensures t2.nodes[c].inputs[k] == s0.nodes[c].inputs[k] ||
                (&& s0.nodes[c].inputs[k] in done + {name} && Rewritable(s0, excluded, s0.nodes[c].inputs[k])
                 && t2.nodes[c].inputs[k] in newPatterns.Values
                 && SharesValue(t2, t2.nodes[c].inputs[k], s0, s0.nodes[c].inputs[k]))
      {
        var x0, x1, x2 := s0.nodes[c].inputs[k], t.nodes[c].inputs[k], t2.nodes[c].inputs[k];
        if x2 != x0 {
          if x1 == x0 {
            // moved in this step
            assert x1 == name && x2 == shared;
          } else {
            assert x1 in patterns.Values;
            assert x1 != name by { assert x1 !in UsedNamesIn(s0); }
            assert x2 == x1;
            assert SharesValue(t, x1, s0, x0);
            assert SharesValue(t2, x2, s0, x0);
          }
        }
      }
    }
  }

  lemma SlotsSharedMono(s0: GraphState, t: GraphState, excluded: set<ArgName>, d1: set<ArgName>, d2: set<ArgName>,
                        patterns: map<PatternKey, ArgName>)
    requires SlotsShared(s0, t, excluded, d1, patterns) && d1 <= d2
    ensures SlotsShared(s0, t, excluded, d2, patterns)
  {
  }

  /** No two shared initializers of the pattern map hold the same value at
      the same rank, and each holds its key's rank: one shared initializer
      per value and rank. */
  ghost predicate PatternsDistinct(t: GraphState, patterns: map<PatternKey, ArgName>) {
    && (forall k :: k in patterns ==>
          patterns[k] in t.initializers && patterns[k] in t.args && t.args[patterns[k]].Some?
          && |t.args[patterns[k]].value.dims| == k.rank)
    && (forall k1, k2 ::
          (&& k1 in patterns && k2 in patterns && patterns[k1] in t.initializers
           && patterns[k2] in t.initializers && k1.rank == k2.rank
           && ScalarOf(t.initializers[patterns[k1]]) == ScalarOf(t.initializers[patterns[k2]])) ==> k1 == k2)
  }

  /** Interning without duplicates makes the pattern map distinct: equal
      values get equal ids, and a key is the id, -1 and the rank. */
  lemma DistinctByStore(t: GraphState, patterns: map<PatternKey, ArgName>, store: seq<ScalarValue>)
    requires PatternsHoldStore(t, patterns, store) && NoDup(store)
    requires forall k :: k in patterns ==> k.dataType == -1
    ensures PatternsDistinct(t, patterns)
  {
    forall k1, k2 | k1 in patterns && k2 in patterns && patterns[k1] in t.initializers
                    && patterns[k2] in t.initializers && k1.rank == k2.rank
                    && ScalarOf(t.initializers[patterns[k1]]) == ScalarOf(t.initializers[patterns[k2]])
      ensures k1 == k2
    {
      assert store[k1.valueId] == store[k2.valueId];
      assert k1.valueId == k2.valueId;
    }
  }

  /** De-duplication: two rewritten input slots whose original initializers
      hold the same value at the same rank name the same shared initializer. */
  lemma EqualValuesShareOne(s0: GraphState, t: GraphState, excluded: set<ArgName>, done: set<ArgName>,
                            patterns: map<PatternKey, ArgName>, c1: NodeId, k1: nat, c2: NodeId, k2: nat)
    requires SlotsShared(s0, t, excluded, done, patterns) && PatternsDistinct(t, patterns)
    requires c1 in s0.nodes && k1 < |s0.nodes[c1].inputs| && c2 in s0.nodes && k2 < |s0.nodes[c2].inputs|
    requires t.nodes[c1].inputs[k1] != s0.nodes[c1].inputs[k1]
    requires t.nodes[c2].inputs[k2] != s0.nodes[c2].inputs[k2]
    requires SharesValue(s0, s0.nodes[c1].inputs[k1], s0, s0.nodes[c2].inputs[k2])
    ensures t.nodes[c1].inputs[k1] == t.nodes[c2].inputs[k2]
  {
    var a1, a2 := t.nodes[c1].inputs[k1], t.nodes[c2].inputs[k2];
    var o1, o2 := s0.nodes[c1].inputs[k1], s0.nodes[c2].inputs[k2];
    assert a1 in patterns.Values && SharesValue(t, a1, s0, o1);
    assert a2 in patterns.Values && SharesValue(t, a2, s0, o2);
    var q1 :| q1 in patterns && patterns[q1] == a1;
    var q2 :| q2 in patterns && patterns[q2] == a2;
    assert q1 == q2;
  }

  /** The pass's outcome, read at two uses: uses, by listed consumers, of two
      rewritable initializers holding the same value at the same rank end up
      naming one shared initializer, with that value and rank. */
  lemma EqualValuesShared(s0: GraphState, t: GraphState, excluded: set<ArgName>,
                          patterns: map<PatternKey, ArgName>, c1: NodeId, k1: nat, c2: NodeId, k2: nat)
    requires SlotsShared(s0, t, excluded, s0.initializers.Keys, patterns) && PatternsDistinct(t, patterns)
    requires UsesRewired(s0, t, excluded, s0.initializers.Keys)
    requires c1 in s0.nodes && k1 < |s0.nodes[c1].inputs| && c2 in s0.nodes && k2 < |s0.nodes[c2].inputs|
    requires Rewritable(s0, excluded, s0.nodes[c1].inputs[k1]) && Rewritable(s0, excluded, s0.nodes[c2].inputs[k2])
    requires c1 in ConsumersIn(s0.consumers, s0.nodes[c1].inputs[k1])
    requires c2 in ConsumersIn(s0.consumers, s0.nodes[c2].inputs[k2])
    requires SharesValue(s0, s0.nodes[c1].inputs[k1], s0, s0.nodes[c2].inputs[k2])
    ensures t.nodes[c1].inputs[k1] == t.nodes[c2].inputs[k2]
    ensures t.nodes[c1].inputs[k1] in patterns.Values
    ensures SharesValue(t, t.nodes[c1].inputs[k1], s0, s0.nodes[c1].inputs[k1])
  {
    assert t.nodes[c1].inputs[k1] != s0.nodes[c1].inputs[k1];
    assert t.nodes[c2].inputs[k2] != s0.nodes[c2].inputs[k2];
    EqualValuesShareOne(s0, t, excluded, s0.initializers.Keys, patterns, c1, k1, c2, k2);
  }

  /** The first loop of the pass: the initializers in `order` that are not
      already shared, are constant and are not excluded, in that order. */
  method CollectCandidates(g: Graph, excluded: set<ArgName>, order: seq<ArgName>) returns (names: seq<ArgName>)
    requires NoDup(order)
    ensures NoDup(names)
    ensures forall n :: n in names <==> n in order && Candidate(g.State(), excluded, n)
  {
    names := [];
    for i := 0 to |order|
      invariant NoDup(names)
      invariant forall n :: n in names <==> n in order[..i] && Candidate(g.State(), excluded, n)
    {
      var n := order[i];
      assert order[..i + 1] == order[..i] + [n];
      if IsSharedInitializer(n) || g.GetConstantInitializer(n).None? || n in excluded {
        continue;
      }
      NotInEarlierPrefix(order, i);
      names := names + [n];
    }
    assert order[..|order|] == order;
  }

  /** One candidate of the main loop, which keeps the loop invariant: the
      candidate is shared exactly when it is rewritable in the original graph. */
  method ShareCandidate(g: Graph, ghost s0: GraphState, ghost excluded: set<ArgName>, ghost done: set<ArgName>,
                        name: ArgName, store: seq<ScalarValue>, patterns: map<PatternKey, ArgName>)
    returns (replaced: bool, newStore: seq<ScalarValue>, newPatterns: map<PatternKey, ArgName>)
    requires PassProgress(s0, g.State(), excluded, done, patterns, store)
    requires Candidate(s0, excluded, name) && name !in done
    modifies g`nodes, g`consumers, g`initializers, g`args
    ensures replaced <==> Rewritable(s0, excluded, name)
    ensures PassProgress(s0, g.State(), excluded, done + {name}, newPatterns, newStore)
    ensures NoDup(store) ==> NoDup(newStore)
    ensures UsesRewired(s0, old(g.State()), excluded, done) ==> UsesRewired(s0, g.State(), excluded, done + {name})
  {
    ghost var t := g.State();
    assert name in UsedNamesIn(s0);
    ShareableUnaffected(s0, t, excluded, done, patterns, store, name);
    assert name !in patterns.Values;
    ghost var key, shared;
    replaced, newStore, newPatterns, key, shared := ShareInitializer(g, name, store, patterns);
    PassStep(s0, t, g.State(), excluded, done, name, store, patterns, replaced, newStore, newPatterns, key, shared);
    if UsesRewired(s0, t, excluded, done) {
      assert replaced ==> shared in newPatterns.Values;
      UsesRewiredStep(s0, t, g.State(), excluded, done, patterns, name, replaced, shared);
    }
  }

  lemma PassEnd(s0: GraphState, t: GraphState, excluded: set<ArgName>, done: set<ArgName>,
                names: seq<ArgName>, patterns: map<PatternKey, ArgName>, store: seq<ScalarValue>)
    requires PassProgress(s0, t, excluded, done, patterns, store)
    requires done <= s0.initializers.Keys
    requires done == set i | 0 <= i < |names| :: names[i]
    requires forall n :: n in names <==> Candidate(s0, excluded, n)
    ensures WellFormed(t)
    ensures (exists i :: 0 <= i < |names| && Rewritable(s0, excluded, names[i])) <==>
            (exists n :: n in s0.initializers && Rewritable(s0, excluded, n))
    ensures forall n :: n in s0.initializers && !Rewritable(s0, excluded, n) ==> Untouched(s0, t, n)
    ensures SlotsShared(s0, t, excluded, s0.initializers.Keys, patterns)
    ensures PatternsFresh(s0, t, patterns)
    ensures forall n :: n in s0.initializers && Rewritable(s0, excluded, n) ==> n in done
  {
    SlotsSharedMono(s0, t, excluded, done, s0.initializers.Keys, patterns);
    forall n | n in s0.initializers && Rewritable(s0, excluded, n) ensures n in done {
      assert n in names;
    }
    if exists n :: n in s0.initializers && Rewritable(s0, excluded, n) {
      var n :| n in s0.initializers && Rewritable(s0, excluded, n);
      assert n in names;
      var i :| 0 <= i < |names| && names[i] == n;
      assert Rewritable(s0, excluded, names[i]);
    }
  }

  /** Once every rewritable initializer is handled, `UsesRewired` holds for
      all the original initializers. */
  lemma UsesRewiredAll(s0: GraphState, t: GraphState, excluded: set<ArgName>, done: set<ArgName>)
    requires UsesRewired(s0, t, excluded, done)
    requires forall n :: n in s0.initializers && Rewritable(s0, excluded, n) ==> n in done
    ensures UsesRewired(s0, t, excluded, s0.initializers.Keys)
  {
  }

  /** The pass. `order` is the iteration order of the initialized-tensor map:
      the candidates are collected in that order, then each is shared in turn.
      `patterns` is the pattern-key map built along the way. */
  method ApplyImpl(g: Graph, excluded: set<ArgName>, order: seq<ArgName>, modifiedIn: bool)
    returns (modified: bool, ghost patterns: map<PatternKey, ArgName>)
    requires g.Valid()
    requires NoDup(order) && forall n :: n in order <==> n in g.initializers
    modifies g`nodes, g`consumers, g`initializers, g`args
    ensures g.Valid()
    ensures modified <==>
              modifiedIn || exists n :: n in old(g.initializers) && Rewritable(old(g.State()), excluded, n)
    ensures forall n :: n in old(g.initializers) && !Rewritable(old(g.State()), excluded, n) ==>
              Untouched(old(g.State()), g.State(), n)
    ensures SlotsShared(old(g.State()), g.State(), excluded, old(g.initializers.Keys), patterns)
    ensures PatternsFresh(old(g.State()), g.State(), patterns)
    ensures PatternsDistinct(g.State(), patterns)
    ensures UsesRewired(old(g.State()), g.State(), excluded, old(g.initializers.Keys))
  {
    ghost var s0 := g.State();
    var names := CollectCandidates(g, excluded, order);
    var store: seq<ScalarValue> := [];
    var pmap: map<PatternKey, ArgName> := map[];
    ghost var done: set<ArgName> := {};
    modified := modifiedIn;
    PassStart(s0, excluded);
    for j := 0 to |names|
      invariant PassProgress(s0, g.State(), excluded, done, pmap, store)
      invariant done <= s0.initializers.Keys
      invariant done == set i | 0 <= i < j :: names[i]
      invariant modified <==> modifiedIn || exists i :: 0 <= i < j && Rewritable(s0, excluded, names[i])
      invariant NoDup(store)
      invariant UsesRewired(s0, g.State(), excluded, done)
    {
      assert names[j] !in done;
      var replaced, newStore, newPatterns := ShareCandidate(g, s0, excluded, done, names[j], store, pmap);
      store, pmap := newStore, newPatterns;
      done := done + {names[j]};
      modified := modified || replaced;
    }
    patterns := pmap;
    PassEnd(s0, g.State(), excluded, done, names, pmap, store);
    DistinctByStore(g.State(), pmap, store);
    UsesRewiredAll(s0, g.State(), excluded, done);
  }
}

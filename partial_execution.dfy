/** The state that a partial (resumable) run of an execution plan keeps between
    resumptions: the cache of program regions, the lazily acquired device stream
    collection, and the execution context that is created once and then rebound.
    Models onnxruntime/core/framework/partial_graph_execution_state.cc. */
module PartialExecution {
  import opened Wrappers

  /** One logic stream of an execution plan: the program counter of each step
      (`step_pc`) and the number of steps it holds (`steps_`). */
  datatype LogicStream = LogicStream(stepPc: seq<nat>, stepCount: nat)

  /** The finalized execution plan. A stream slot may hold a null stream. */
  datatype ExecutionPlan = ExecutionPlan(
    streams: seq<Option<LogicStream>>,
    notificationOwners: seq<nat>,
    numBarriers: nat)

  /** A half-open program-counter range and, for each stream of the plan in
      plan order, the half-open range of step indices it selects. */
  datatype ProgramRegion = ProgramRegion(startPc: nat, endPc: nat, streamPcRange: seq<(nat, nat)>)

  /** Region computation dereferences every stream without a null check. */
  predicate AllStreamsPresent(plan: ExecutionPlan) {
    forall i :: 0 <= i < |plan.streams| ==> plan.streams[i].Some?
  }

  ghost predicate Sorted(pcs: seq<nat>) {
    forall i, j :: 0 <= i <= j < |pcs| ==> pcs[i] <= pcs[j]
  }

  // ---------------------------------------------------------------------------
  // Region computation
  // ---------------------------------------------------------------------------

  /** Where a forward scan that starts at `cur` and skips steps whose pc is
      below `bound` stops: the first such index whose pc reaches `bound`, or the
      end of the stream. */
  function ScanFrom(pcs: seq<nat>, cur: nat, bound: nat): (r: nat)
    requires cur <= |pcs|
    ensures cur <= r <= |pcs|
    ensures forall k :: cur <= k < r ==> pcs[k] < bound
    ensures r < |pcs| ==> pcs[r] >= bound
    decreases |pcs| - cur
  {
    if cur < |pcs| && pcs[cur] < bound then ScanFrom(pcs, cur + 1, bound) else cur
  }

  /** The (start, end) pair that the two scans of one stream produce. */
  function StreamRange(pcs: seq<nat>, startPc: nat, endPc: nat): (r: (nat, nat))
    ensures r.0 <= r.1 <= |pcs|
    ensures forall k :: 0 <= k < r.0 ==> pcs[k] < startPc
    ensures forall k :: r.0 <= k < r.1 ==> pcs[k] < endPc
    ensures r.0 < |pcs| ==> pcs[r.0] >= startPc
    ensures r.1 < |pcs| ==> pcs[r.1] >= endPc
    ensures startPc >= endPc ==> r.0 == r.1
  {
    var start := ScanFrom(pcs, 0, startPc);
    (start, ScanFrom(pcs, start, endPc))
  }

  /** On a sorted stream the selected index range is exactly the set of steps
      whose pc lies in [startPc, endPc). */
  lemma StreamRangeExact(pcs: seq<nat>, startPc: nat, endPc: nat, k: nat)
    requires Sorted(pcs)
    requires k < |pcs|
    ensures StreamRange(pcs, startPc, endPc).0 <= k < StreamRange(pcs, startPc, endPc).1
            <==> startPc <= pcs[k] < endPc
  {
    var r := StreamRange(pcs, startPc, endPc);
    if r.0 <= k < r.1 {
      assert pcs[r.0] <= pcs[k];
    } else if k >= r.1 {
      assert pcs[r.1] <= pcs[k];
    }
  }

  /** The region the source builds on a cache miss. */
  function ComputeRegion(plan: ExecutionPlan, startPc: nat, endPc: nat): ProgramRegion
    requires AllStreamsPresent(plan)
  {
    ProgramRegion(startPc, endPc,
      seq(|plan.streams|, i requires 0 <= i < |plan.streams| =>
        StreamRange(plan.streams[i].value.stepPc, startPc, endPc)))
  }

  /** A computed region has one pair per stream, in plan order, each pair within
      its stream, and selects nothing at all when the pc range is empty. */
  lemma ComputeRegionShape(plan: ExecutionPlan, startPc: nat, endPc: nat)
    requires AllStreamsPresent(plan)
    ensures var r := ComputeRegion(plan, startPc, endPc);
      && r.startPc == startPc && r.endPc == endPc
      && |r.streamPcRange| == |plan.streams|
      && (forall i :: 0 <= i < |plan.streams| ==>
            r.streamPcRange[i].0 <= r.streamPcRange[i].1 <= |plan.streams[i].value.stepPc|)
      && (startPc >= endPc ==>
            forall i :: 0 <= i < |plan.streams| ==> r.streamPcRange[i].0 == r.streamPcRange[i].1)
  {
    var r := ComputeRegion(plan, startPc, endPc);
    forall i | 0 <= i < |plan.streams|
      ensures r.streamPcRange[i].0 <= r.streamPcRange[i].1 <= |plan.streams[i].value.stepPc|
      ensures startPc >= endPc ==> r.streamPcRange[i].0 == r.streamPcRange[i].1
    {
      var _ := StreamRange(plan.streams[i].value.stepPc, startPc, endPc);
    }
  }

  /** A two-stream example: stream A at pcs [0,2,4,6] and
      stream B at pcs [1,3,5]. */
  lemma TwoStreamExample()
    ensures var plan := ExecutionPlan([Some(LogicStream([0, 2, 4, 6], 4)), Some(LogicStream([1, 3, 5], 3))], [], 0);
      && ComputeRegion(plan, 0, 4).streamPcRange == [(0, 2), (0, 2)]
      && ComputeRegion(plan, 4, 10).streamPcRange == [(2, 4), (2, 3)]
      && ComputeRegion(plan, 2, 2).streamPcRange == [(1, 1), (1, 1)]
  {
    var a: seq<nat> := [0, 2, 4, 6];
    var b: seq<nat> := [1, 3, 5];
    assert ScanFrom(a, 0, 0) == 0;
    assert ScanFrom(a, 2, 4) == 2;
    assert ScanFrom(a, 1, 4) == 2;
    assert ScanFrom(a, 0, 4) == 2;
    assert ScanFrom(b, 2, 4) == 2;
    assert ScanFrom(b, 1, 4) == 2;
    assert ScanFrom(b, 0, 0) == 0;
    assert ScanFrom(b, 0, 4) == 2;
    assert ScanFrom(a, 3, 10) == 4;
    assert ScanFrom(a, 2, 10) == 4;
    assert ScanFrom(b, 2, 10) == 3;
    assert ScanFrom(a, 1, 2) == 1;
    assert ScanFrom(a, 0, 2) == 1;
    assert ScanFrom(b, 0, 2) == 1;
  }

  // ---------------------------------------------------------------------------
  // The region cache
  // ---------------------------------------------------------------------------

  predicate Covers(region: ProgramRegion, startPc: nat, endPc: nat) {
    region.startPc == startPc && region.endPc == endPc
  }

  /** The position `std::find_if` reports: the first cached region for exactly
      this pc range, if any. */
  function FindRegion(regions: seq<ProgramRegion>, startPc: nat, endPc: nat): (r: Option<nat>)
    ensures r.Some? ==> r.value < |regions| && Covers(regions[r.value], startPc, endPc)
    ensures r.Some? ==> forall j :: 0 <= j < r.value ==> !Covers(regions[j], startPc, endPc)
    ensures r.None? <==> forall j :: 0 <= j < |regions| ==> !Covers(regions[j], startPc, endPc)
  {
    if |regions| == 0 then None
    else if Covers(regions[0], startPc, endPc) then Some(0)
    else match FindRegion(regions[1..], startPc, endPc)
      case None => None
      case Some(i) => Some(i + 1)
  }

  /** The cache after a lookup, and the region returned. */
  function Resolve(regions: seq<ProgramRegion>, plan: ExecutionPlan, startPc: nat, endPc: nat)
    : (res: (seq<ProgramRegion>, ProgramRegion))
    requires FindRegion(regions, startPc, endPc).None? ==> AllStreamsPresent(plan)
    ensures Covers(res.1, startPc, endPc)
    ensures res.0 == regions || res.0 == regions + [res.1]
    ensures res.1 in res.0
  {
    match FindRegion(regions, startPc, endPc)
    case Some(i) => (regions, regions[i])
    case None =>
      var region := ComputeRegion(plan, startPc, endPc);
      (regions + [region], region)
  }

  /** Resolving the same pc range twice returns the same region, and the second
      lookup is a hit that leaves the cache as the first one left it: the cache
      grows by at most one entry per distinct range. */
  lemma ResolveIdempotent(regions: seq<ProgramRegion>, plan: ExecutionPlan, startPc: nat, endPc: nat)
    requires FindRegion(regions, startPc, endPc).None? ==> AllStreamsPresent(plan)
    ensures FindRegion(Resolve(regions, plan, startPc, endPc).0, startPc, endPc).Some?
    ensures Resolve(Resolve(regions, plan, startPc, endPc).0, plan, startPc, endPc)
            == Resolve(regions, plan, startPc, endPc)
  {
    var (regions1, r1) := Resolve(regions, plan, startPc, endPc);
    var found := FindRegion(regions1, startPc, endPc);
    if FindRegion(regions, startPc, endPc).None? {
      assert Covers(regions1[|regions|], startPc, endPc);
      assert found.Some?;
      assert found.value == |regions|;
    } else {
      assert found == FindRegion(regions, startPc, endPc);
    }
  }

  /** Every cached region is what a fresh computation on this plan gives. */
  ghost predicate CacheConsistent(regions: seq<ProgramRegion>, plan: ExecutionPlan) {
    && AllStreamsPresent(plan)
    && forall i :: 0 <= i < |regions| ==>
         regions[i] == ComputeRegion(plan, regions[i].startPc, regions[i].endPc)
  }

  /** Cache correctness: whatever ranges were resolved before and in whatever
      order, the region returned equals the one computed from scratch, and the
      cache stays consistent. */
  lemma ResolveMatchesComputation(regions: seq<ProgramRegion>, plan: ExecutionPlan, startPc: nat, endPc: nat)
    requires CacheConsistent(regions, plan)
    ensures Resolve(regions, plan, startPc, endPc).1 == ComputeRegion(plan, startPc, endPc)
    ensures CacheConsistent(Resolve(regions, plan, startPc, endPc).0, plan)
  {
    var (regions1, r1) := Resolve(regions, plan, startPc, endPc);
    match FindRegion(regions, startPc, endPc)
    case Some(i) =>
      assert r1 == regions[i];
    case None =>
      forall i | 0 <= i < |regions1|
        ensures regions1[i] == ComputeRegion(plan, regions1[i].startPc, regions1[i].endPc)
      {
        if i < |regions| {
          assert regions1[i] == regions[i];
        }
      }
  }

  // ---------------------------------------------------------------------------
  // Valid streams
  // ---------------------------------------------------------------------------

  /** A stream counts for the execution context when it is non-null and has steps. */
  predicate IsValidStream(s: Option<LogicStream>) {
    s.Some? && s.value.stepCount > 0
  }

  function ValidStreamCount(streams: seq<Option<LogicStream>>): (n: nat)
    ensures n <= |streams|
  {
    if streams == [] then 0
    else ValidStreamCount(streams[..|streams| - 1]) + (if IsValidStream(streams[|streams| - 1]) then 1 else 0)
  }

  /** The count is the number of stream slots that are valid. */
  lemma {:induction false} ValidStreamCountIsCardinality(streams: seq<Option<LogicStream>>)
    ensures ValidStreamCount(streams) == |set i | 0 <= i < |streams| && IsValidStream(streams[i])|
  {
    if streams != [] {
      var n := |streams| - 1;
      var prefix := streams[..n];
      ValidStreamCountIsCardinality(prefix);
      var before := set i | 0 <= i < |prefix| && IsValidStream(prefix[i]);
      var all := set i | 0 <= i < |streams| && IsValidStream(streams[i]);
      if IsValidStream(streams[n]) {
        assert all == before + {n};
      } else {
        assert all == before;
      }
    }
  }

  // ---------------------------------------------------------------------------
  // Collaborators, as far as the state needs them
  // ---------------------------------------------------------------------------

  /** An opaque tensor value bound as a feed or a fetch. */
  datatype OrtValue = OrtValue(id: nat)
  /** An opaque logger reference. */
  datatype Logger = Logger(id: nat)
  /** An opaque custom allocator for one fetch. */
  datatype CustomAllocator = CustomAllocator(id: nat)

  /** The device streams a partial run executes on. */
  class DeviceStreamCollection {
    const numStreams: nat

    constructor (numStreams: nat)
      ensures this.numStreams == numStreams
    {
      this.numStreams := numStreams;
    }
  }

  /** The read-only part of the session that the state consults. */
  class SessionState {
    const plan: ExecutionPlan

    constructor (plan: ExecutionPlan)
      ensures this.plan == plan
    {
      this.plan := plan;
    }

    /** Hands out a device stream collection with one device stream per logic
        stream. */
    method AcquireDeviceStreamCollection() returns (c: DeviceStreamCollection)
      ensures fresh(c) && c.numStreams == |plan.streams|
    {
      c := new DeviceStreamCollection(|plan.streams|);
    }
  }

  /** The live execution context. What it is seeded with on creation is
      constant; feeds, fetches and the logger are rebound on every resume. */
  class ExecutionContext {
    const validStreams: nat
    const notificationOwners: seq<nat>
    const fetchAllocators: map<nat, CustomAllocator>
    const numBarriers: nat
    const deviceStreams: DeviceStreamCollection
    const singleThreaded: bool
    var feedIdxs: seq<int>
    var feeds: seq<OrtValue>
    var fetchIdxs: seq<int>
    var fetches: seq<OrtValue>
    var logger: Logger

    constructor (validStreams: nat, notificationOwners: seq<nat>,
                 feedIdxs: seq<int>, feeds: seq<OrtValue>,
                 fetchIdxs: seq<int>, fetches: seq<OrtValue>,
                 fetchAllocators: map<nat, CustomAllocator>, numBarriers: nat,
                 logger: Logger, deviceStreams: DeviceStreamCollection, singleThreaded: bool)
      ensures this.validStreams == validStreams && this.notificationOwners == notificationOwners
      ensures this.feedIdxs == feedIdxs && this.feeds == feeds
      ensures this.fetchIdxs == fetchIdxs && this.fetches == fetches
      ensures this.fetchAllocators == fetchAllocators && this.numBarriers == numBarriers
      ensures this.logger == logger && this.deviceStreams == deviceStreams
      ensures this.singleThreaded == singleThreaded
    {
      this.validStreams := validStreams;
      this.notificationOwners := notificationOwners;
      this.feedIdxs := feedIdxs;
      this.feeds := feeds;
      this.fetchIdxs := fetchIdxs;
      this.fetches := fetches;
      this.fetchAllocators := fetchAllocators;
      this.numBarriers := numBarriers;
      this.logger := logger;
      this.deviceStreams := deviceStreams;
      this.singleThreaded := singleThreaded;
    }

    /** The execution frame's feed rebinding. */
    method UpdateFeeds(idxs: seq<int>, values: seq<OrtValue>)
      modifies this`feedIdxs, this`feeds
      ensures feedIdxs == idxs && feeds == values
    {
      feedIdxs, feeds := idxs, values;
    }

    /** The execution frame's fetch rebinding. */
    method UpdateFetches(idxs: seq<int>, values: seq<OrtValue>)
      modifies this`fetchIdxs, this`fetches
      ensures fetchIdxs == idxs && fetches == values
    {
      fetchIdxs, fetches := idxs, values;
    }

    method SetLogger(l: Logger)
      modifies this`logger
      ensures logger == l
    {
      logger := l;
    }
  }

  // ---------------------------------------------------------------------------
  // The partial graph execution state
  // ---------------------------------------------------------------------------

  class PartialGraphExecutionState {
    var pcStart: nat
    var pcEnd: nat
    var regions: seq<ProgramRegion>
    var streams: Option<DeviceStreamCollection>
    var ctx: Option<ExecutionContext>
    /** How many times a device stream collection was acquired. */
    ghost var acquisitions: nat

    ghost predicate Valid()
      reads this
    {
      acquisitions == (if streams.Some? then 1 else 0)
    }

    ghost function ContextFrame(): set<object>
      reads this
    {
      if ctx.Some? then {ctx.value} else {}
    }

    constructor (pcStart: nat, pcEnd: nat)
      ensures Valid()
      ensures this.pcStart == pcStart && this.pcEnd == pcEnd
      ensures regions == [] && streams == None && ctx == None
    {
      this.pcStart := pcStart;
      this.pcEnd := pcEnd;
      regions := [];
      streams := None;
      ctx := None;
      acquisitions := 0;
    }

    /** Returns the cached region for [pcStart, pcEnd) or computes, caches and
        returns a new one. Streams are dereferenced only on a miss. */
    method GetProgramRegions(session: SessionState) returns (region: ProgramRegion)
      requires FindRegion(regions, pcStart, pcEnd).None? ==> AllStreamsPresent(session.plan)
      modifies this`regions
      ensures (regions, region) == Resolve(old(regions), session.plan, pcStart, pcEnd)
      ensures FindRegion(old(regions), pcStart, pcEnd).Some? ==>
                regions == old(regions) && region == old(regions)[FindRegion(old(regions), pcStart, pcEnd).value]
      ensures FindRegion(old(regions), pcStart, pcEnd).None? ==>
                && regions == old(regions) + [region]
                && region == ComputeRegion(session.plan, pcStart, pcEnd)
    {
      var i := 0;
      while i < |regions| && !(regions[i].startPc == pcStart && regions[i].endPc == pcEnd)
        invariant 0 <= i <= |regions|
        invariant forall j :: 0 <= j < i ==> !Covers(regions[j], pcStart, pcEnd)
      {
        i := i + 1;
      }
      if i < |regions| {
        region := regions[i];
        return;
      }

      var plan := session.plan;
      var ranges: seq<(nat, nat)> := [];
      for s := 0 to |plan.streams|
        invariant |ranges| == s
        invariant forall k :: 0 <= k < s ==>
                    ranges[k] == StreamRange(plan.streams[k].value.stepPc, pcStart, pcEnd)
      {
        var pcs := plan.streams[s].value.stepPc;
        var cur := 0;
        while cur < |pcs| && pcs[cur] < pcStart
          invariant cur <= |pcs|
          invariant ScanFrom(pcs, cur, pcStart) == ScanFrom(pcs, 0, pcStart)
        {
          cur := cur + 1;
        }
        var start := cur;
        while cur < |pcs| && pcs[cur] < pcEnd
          invariant start <= cur <= |pcs|
          invariant start == ScanFrom(pcs, 0, pcStart)
          invariant ScanFrom(pcs, cur, pcEnd) == ScanFrom(pcs, start, pcEnd)
        {
          cur := cur + 1;
        }
        ranges := ranges + [(start, cur)];
      }
      region := ProgramRegion(pcStart, pcEnd, ranges);
      assert region == ComputeRegion(plan, pcStart, pcEnd);
      regions := regions + [region];
    }

    /** Acquires the device stream collection on the first call only; every
        later call returns the same collection and acquires nothing. */
    method GetDeviceStreamCollection(session: SessionState) returns (c: DeviceStreamCollection)
      requires Valid()
      modifies this`streams, this`acquisitions
      ensures Valid() && acquisitions <= 1
      ensures old(streams).None? ==> fresh(c) && streams == Some(c) && acquisitions == old(acquisitions) + 1
      ensures old(streams).Some? ==>
                streams == old(streams) && c == old(streams).value && acquisitions == old(acquisitions)
    {
      if streams.None? {
        var acquired := session.AcquireDeviceStreamCollection();
        streams := Some(acquired);
        acquisitions := acquisitions + 1;
      }
      c := streams.value;
    }

    /** Absent -> active on the first call, seeding a new context with the
        valid-stream count; afterwards only feeds, fetches and logger of the
        same context are rebound. */
    method GetExecutionContext(feedIdxs: seq<int>, feeds: seq<OrtValue>,
                               fetchIdxs: seq<int>, fetches: seq<OrtValue>,
                               fetchAllocators: map<nat, CustomAllocator>,
                               session: SessionState, logger: Logger,
                               deviceStreams: DeviceStreamCollection)
      returns (c: ExecutionContext)
      modifies this`ctx, ContextFrame()
      ensures ctx == Some(c)
      ensures old(ctx).None? ==>
                && fresh(c)
                && c.validStreams == ValidStreamCount(session.plan.streams)
                && c.notificationOwners == session.plan.notificationOwners
                && c.numBarriers == session.plan.numBarriers
                && c.fetchAllocators == fetchAllocators
                && c.deviceStreams == deviceStreams
                && c.singleThreaded
      ensures old(ctx).Some? ==> c == old(ctx).value
      ensures c.feedIdxs == feedIdxs && c.feeds == feeds
      ensures c.fetchIdxs == fetchIdxs && c.fetches == fetches
      ensures c.logger == logger
    {
      if ctx.None? {
        var plan := session.plan;
        var validStreams := 0;
        for i := 0 to |plan.streams|
          invariant validStreams == ValidStreamCount(plan.streams[..i])
        {
          assert plan.streams[..i + 1][..i] == plan.streams[..i];
          if plan.streams[i].Some? && plan.streams[i].value.stepCount > 0 {
            validStreams := validStreams + 1;
          }
        }
        assert plan.streams[..|plan.streams|] == plan.streams;
        c := new ExecutionContext(validStreams, plan.notificationOwners, feedIdxs, feeds,
                                  fetchIdxs, fetches, fetchAllocators, plan.numBarriers,
                                  logger, deviceStreams, true);
        ctx := Some(c);
      } else {
        c := ctx.value;
        c.UpdateFeeds(feedIdxs, feeds);
        c.UpdateFetches(fetchIdxs, fetches);
        c.SetLogger(logger);
      }
    }
  }
}

/**
 * The loading controller of src/components/LoadingScreen.tsx.
 *
 * `LoadingController` holds the component's state (`loadingProgress`, `loadingStage`, the
 * `loadingAttempted` ref) together with the record of what it has done: every stage and
 * progress value it set, every chunk it handed to `preloadImageBatch` and every pause
 * between chunks (`history`), the timers it has scheduled and how often it has called
 * `onLoadingComplete`.  Timers are events: `Effect` runs the effect, `LoadFrames` is the
 * 100 ms timer firing and running `loadFrames` to its end, `CompletionTimerFires` the
 * 500 ms timer.  The images load as the caller's `outcomes` say.
 */
module LoadingScreen {
  import opened Common
  import FrameUrls
  import opened ImageOptimizer

  const ChunkSize: nat := 32
  /** The `batchSize` handed to `preloadImageBatch`. */
  const BatchSize: nat := 5
  const Prefix: string := "frame-anim-1"

  datatype Stage = Initializing | Loading | Finalizing

  /** The position of a stage in the sequence initializing, loading, finalizing. */
  function Rank(s: Stage): nat {
    match s
    case Initializing => 0
    case Loading => 1
    case Finalizing => 2
  }

  /** One visible action of the controller. */
  datatype Step =
    | StageSet(stage: Stage)
    | ProgressSet(value: int)
    | ChunkRequested(chunk: seq<Url>)
    | Paused

  // ---------------------------------------------------------------------------------------
  // Chunks
  // ---------------------------------------------------------------------------------------

  function ChunkEnd(total: nat, i: nat): nat {
    Min(i + ChunkSize, total)
  }

  /** The chunks `loadFrames` loads, from position i on. */
  function Chunks(urls: seq<Url>, i: nat): seq<seq<Url>>
    decreases |urls| - i
  {
    if i >= |urls| then [] else [urls[i..ChunkEnd(|urls|, i)]] + Chunks(urls, i + ChunkSize)
  }

  function Concat(chunks: seq<seq<Url>>): seq<Url> {
    if chunks == [] then [] else chunks[0] + Concat(chunks[1..])
  }

  /**
   * The chunks partition the list in order: together they are the list, none is empty, and
   * all but the last hold exactly 32 URLs.
   */
  lemma {:induction false} ChunksPartition(urls: seq<Url>, i: nat)
    requires i <= |urls|
    ensures Concat(Chunks(urls, i)) == urls[i..]
    ensures forall j :: 0 <= j < |Chunks(urls, i)| ==> 1 <= |Chunks(urls, i)[j]| <= ChunkSize
    ensures forall j :: 0 <= j < |Chunks(urls, i)| - 1 ==> |Chunks(urls, i)[j]| == ChunkSize
    decreases |urls| - i
  {
    if i < |urls| {
      var cs := Chunks(urls, i);
      var e := ChunkEnd(|urls|, i);
      if e < |urls| {
        ChunksPartition(urls, i + ChunkSize);
        assert cs[1..] == Chunks(urls, i + ChunkSize);
        assert urls[i..] == urls[i..e] + urls[e..];
      } else {
        assert Chunks(urls, i + ChunkSize) == [];
        assert urls[i..e] == urls[i..];
        assert cs == [urls[i..]];
      }
    }
  }

  // ---------------------------------------------------------------------------------------
  // Progress
  // ---------------------------------------------------------------------------------------

  /** The progress shown once `done` of `total` frames have settled: the percentage rounded down, at most 99. */
  function ShownProgress(done: nat, total: nat): int
    requires total > 0
  {
    Min(done * 100 / total, 99)
  }

  /** Rounding a quotient of naturals down is integer division. */
  lemma FloorOfQuotient(a: nat, b: nat)
    requires b > 0
    ensures ((a as real) / (b as real)).Floor == a / b
  {
    var q, r := a / b, a % b;
    assert a == q * b + r;
    assert (a as real) == (q as real) * (b as real) + (r as real);
    assert (a as real) / (b as real) == (q as real) + (r as real) / (b as real);
    assert 0.0 <= (r as real) / (b as real) < 1.0;
  }

  /**
   * The callback's value for the c-th settled frame of the chunk of `count` frames starting
   * at i: `chunkStartProgress + chunkProgress * chunkWeight`, rounded down and capped at 99,
   * is the share of all frames settled so far.
   */
  lemma ChunkProgressValue(i: nat, c: nat, count: nat, total: nat)
    requires 0 < c <= count && i + count <= total
    ensures var overall := (i as real) / (total as real) * 100.0 + Percent(c, count) * ((count as real) / (total as real));
      Min(overall.Floor, 99) == ShownProgress(i + c, total)
  {
    var t, l := total as real, count as real;
    var overall := (i as real) / t * 100.0 + Percent(c, count) * (l / t);
    assert (c as real) / l * l == c as real;
    assert Percent(c, count) * (l / t) == (c as real) * 100.0 / t;
    assert overall == (((i + c) * 100) as real) / t;
    FloorOfQuotient((i + c) * 100, total);
  }

  /** Shown progress never goes down as frames settle, and stays below 100. */
  lemma ShownProgressMonotone(a: nat, b: nat, total: nat)
    requires a <= b && total > 0
    ensures ShownProgress(a, total) <= ShownProgress(b, total) <= 99
  {
    assert a * 100 <= b * 100;
    DivMonotone(a * 100, b * 100, total);
  }

  lemma DivMonotone(x: nat, y: nat, d: nat)
    requires x <= y && d > 0
    ensures x / d <= y / d
  {
    assert (x / d) * d <= x;
    assert y < (y / d + 1) * d;
    assert (x / d - y / d - 1) * d < 0;
  }

  // ---------------------------------------------------------------------------------------
  // The specified record of a run
  // ---------------------------------------------------------------------------------------

  /** The progress values set while the `count` frames of the chunk starting at i settle. */
  function ProgressSteps(i: nat, count: nat, total: nat): (r: seq<Step>)
    requires total > 0
    ensures |r| == count
  {
    seq(count, c requires 0 <= c < count => ProgressSet(ShownProgress(i + c + 1, total)))
  }

  /** One more settled frame adds its progress value at the end. */
  lemma ProgressStepsExtend(i: nat, count: nat, total: nat)
    requires total > 0
    ensures ProgressSteps(i, count + 1, total) == ProgressSteps(i, count, total) + [ProgressSet(ShownProgress(i + count + 1, total))]
  {
  }

  /** The progress shown as frames from + 1, ..., from + count settle. */
  function ShownRun(from: nat, count: nat, total: nat): (r: seq<int>)
    requires total > 0
    ensures |r| == count
  {
    seq(count, k requires 0 <= k < count => ShownProgress(from + k + 1, total))
  }

  /** Frames settling in two consecutive runs show the values of one run. */
  lemma ShownRunAppend(from: nat, c1: nat, c2: nat, total: nat)
    requires total > 0
    ensures ShownRun(from, c1 + c2, total) == ShownRun(from, c1, total) + ShownRun(from + c1, c2, total)
  {
    var r, a, b := ShownRun(from, c1 + c2, total), ShownRun(from, c1, total), ShownRun(from + c1, c2, total);
    forall k | c1 <= k < c1 + c2
      ensures r[k] == (a + b)[k]
    {
      assert r[k] == b[k - c1];
    }
  }

  /** The chunk starting at i: its request, one progress value per frame, and a pause unless it is the last. */
  function ChunkTrace(urls: seq<Url>, i: nat): seq<Step>
    requires i < |urls|
  {
    var e := ChunkEnd(|urls|, i);
    [ChunkRequested(urls[i..e])] + ProgressSteps(i, e - i, |urls|) + (if i + ChunkSize < |urls| then [Paused] else [])
  }

  /** The chunks starting at i, i + 32, ... below `stop`. */
  function ChunksTrace(urls: seq<Url>, i: nat, stop: nat): seq<Step>
    decreases |urls| - i
  {
    if i >= |urls| || i >= stop then [] else ChunkTrace(urls, i) + ChunksTrace(urls, i + ChunkSize, stop)
  }

  lemma ChunksTraceStep(urls: seq<Url>, i: nat, stop: nat)
    requires i < |urls| && i < stop
    ensures ChunksTrace(urls, i, stop) == ChunkTrace(urls, i) + ChunksTrace(urls, i + ChunkSize, stop)
  {
  }

  /**
   * Whether the environment makes the preload of the chunk starting at position
   * `fault.value` throw, and there is such a chunk.
   */
  predicate Faulted(total: nat, fault: Option<nat>) {
    fault.Some? && fault.value < total && fault.value % ChunkSize == 0
  }

  /** Where the loop over chunks may stand: at a chunk start, not past the chunk that throws. */
  predicate AtChunkStart(i: nat, total: nat, fault: Option<nat>) {
    i % ChunkSize == 0 && (Faulted(total, fault) ==> i <= fault.value)
  }

  /** Past a chunk that does not throw, the loop stands at the next chunk start. */
  lemma NextChunkStart(i: nat, total: nat, fault: Option<nat>)
    requires AtChunkStart(i, total, fault) && fault != Some(i)
    ensures AtChunkStart(i + ChunkSize, total, fault)
  {
    var p := i / ChunkSize;
    assert i == ChunkSize * p;
    assert i + ChunkSize == ChunkSize * (p + 1);
    if Faulted(total, fault) {
      var q := fault.value / ChunkSize;
      assert fault.value == ChunkSize * q;
      assert p < q;
    }
  }

  /** Where the loop over chunks stops: at the chunk that throws, else after the last. */
  function StopAt(total: nat, fault: Option<nat>): nat {
    if Faulted(total, fault) then fault.value else total
  }

  /**
   * Everything `loadFrames` does that is visible, in order: stage loading, the chunks, then
   * stage finalizing and progress 100; or, when a chunk's preload throws, the chunks before
   * it and its request, and nothing after.
   */
  function LoadTrace(urls: seq<Url>, fault: Option<nat>): seq<Step> {
    var stop := StopAt(|urls|, fault);
    [StageSet(Loading)] + ChunksTrace(urls, 0, stop)
    + (if Faulted(|urls|, fault) then [ChunkRequested(urls[stop..ChunkEnd(|urls|, stop)])]
       else [StageSet(Finalizing), ProgressSet(100)])
  }

  /** The stores once the chunks starting below `stop` have been preloaded. */
  function ChunkedCache(st: CacheState, urls: seq<Url>, outcomes: seq<LoadOutcome>, i: nat, stop: nat): CacheState
    requires |outcomes| == |urls|
    decreases |urls| - i
  {
    if i >= |urls| || i >= stop then st
    else
      var e := ChunkEnd(|urls|, i);
      ChunkedCache(BatchFrom(st, urls[i..e], outcomes[i..e], BatchSize, 0).0, urls, outcomes, i + ChunkSize, stop)
  }

  lemma ChunkedCacheStep(st: CacheState, urls: seq<Url>, outcomes: seq<LoadOutcome>, i: nat, stop: nat)
    requires |outcomes| == |urls| && i < |urls| && i < stop
    ensures ChunkedCache(st, urls, outcomes, i, stop)
      == ChunkedCache(BatchFrom(st, urls[i..ChunkEnd(|urls|, i)], outcomes[i..ChunkEnd(|urls|, i)], BatchSize, 0).0,
                      urls, outcomes, i + ChunkSize, stop)
  {
  }

  // Views of a record

  function ProgressValues(t: seq<Step>): seq<int> {
    if t == [] then [] else (if t[0].ProgressSet? then [t[0].value] else []) + ProgressValues(t[1..])
  }

  function RequestedChunks(t: seq<Step>): seq<seq<Url>> {
    if t == [] then [] else (if t[0].ChunkRequested? then [t[0].chunk] else []) + RequestedChunks(t[1..])
  }

  function StagesSet(t: seq<Step>): seq<Stage> {
    if t == [] then [] else (if t[0].StageSet? then [t[0].stage] else []) + StagesSet(t[1..])
  }

  lemma {:induction false} ProgressValuesAppend(a: seq<Step>, b: seq<Step>)
    ensures ProgressValues(a + b) == ProgressValues(a) + ProgressValues(b)
  {
    if a == [] {
      assert a + b == b;
    } else {
      assert (a + b)[0] == a[0];
      assert (a + b)[1..] == a[1..] + b;
      ProgressValuesAppend(a[1..], b);
    }
  }

  lemma {:induction false} RequestedChunksAppend(a: seq<Step>, b: seq<Step>)
    ensures RequestedChunks(a + b) == RequestedChunks(a) + RequestedChunks(b)
  {
    if a == [] {
      assert a + b == b;
    } else {
      assert (a + b)[0] == a[0];
      assert (a + b)[1..] == a[1..] + b;
      RequestedChunksAppend(a[1..], b);
    }
  }

  lemma {:induction false} StagesSetAppend(a: seq<Step>, b: seq<Step>)
    ensures StagesSet(a + b) == StagesSet(a) + StagesSet(b)
  {
    if a == [] {
      assert a + b == b;
    } else {
      assert (a + b)[0] == a[0];
      assert (a + b)[1..] == a[1..] + b;
      StagesSetAppend(a[1..], b);
    }
  }

  lemma ViewsAppend(a: seq<Step>, b: seq<Step>)
    ensures ProgressValues(a + b) == ProgressValues(a) + ProgressValues(b)
    ensures RequestedChunks(a + b) == RequestedChunks(a) + RequestedChunks(b)
    ensures StagesSet(a + b) == StagesSet(a) + StagesSet(b)
  {
    ProgressValuesAppend(a, b);
    RequestedChunksAppend(a, b);
    StagesSetAppend(a, b);
  }

  lemma {:induction false} ProgressStepsViews(i: nat, count: nat, total: nat)
    requires total > 0
    ensures ProgressValues(ProgressSteps(i, count, total)) == ShownRun(i, count, total)
    ensures RequestedChunks(ProgressSteps(i, count, total)) == []
    ensures StagesSet(ProgressSteps(i, count, total)) == []
    decreases count
  {
    if count > 0 {
      ProgressStepsExtend(i, count - 1, total);
      ViewsAppend(ProgressSteps(i, count - 1, total), [ProgressSet(ShownProgress(i + count, total))]);
      ProgressStepsViews(i, count - 1, total);
    }
  }

  /**
   * Over a full run of chunks starting at i, the chunks handed to the preloader are exactly
   * the chunks of the list, and the progress values are those of frames i + 1, i + 2, ...
   * settling one after another.
   */
  lemma {:induction false} ChunksTraceViews(urls: seq<Url>, i: nat)
    requires i <= |urls| && |urls| > 0
    ensures RequestedChunks(ChunksTrace(urls, i, |urls|)) == Chunks(urls, i)
    ensures ProgressValues(ChunksTrace(urls, i, |urls|)) == ShownRun(i, |urls| - i, |urls|)
    ensures StagesSet(ChunksTrace(urls, i, |urls|)) == []
    decreases |urls| - i
  {
    if i < |urls| {
      var e := ChunkEnd(|urls|, i);
      var head := [ChunkRequested(urls[i..e])];
      var steps := ProgressSteps(i, e - i, |urls|);
      var tail: seq<Step> := if i + ChunkSize < |urls| then [Paused] else [];
      var rest := ChunksTrace(urls, i + ChunkSize, |urls|);
      assert ChunksTrace(urls, i, |urls|) == head + steps + tail + rest;
      ViewsAppend(head, steps);
      ViewsAppend(head + steps, tail);
      ViewsAppend(head + steps + tail, rest);
      ProgressStepsViews(i, e - i, |urls|);
      assert RequestedChunks(head) == [urls[i..e]];
      assert ProgressValues(head) == [] && StagesSet(head) == [];
      assert RequestedChunks(tail) == [] && ProgressValues(tail) == [] && StagesSet(tail) == [];
      if e < |urls| {
        ChunksTraceViews(urls, i + ChunkSize);
        ShownRunAppend(i, e - i, |urls| - e, |urls|);
      } else {
        assert rest == [];
      }
    }
  }

  /** A run that does not throw sets the stages loading, then finalizing. */
  lemma LoadTraceStages(urls: seq<Url>)
    requires |urls| > 0
    ensures StagesSet(LoadTrace(urls, None)) == [Loading, Finalizing]
  {
    var chunks := ChunksTrace(urls, 0, |urls|);
    var last := [StageSet(Finalizing), ProgressSet(100)];
    assert LoadTrace(urls, None) == [StageSet(Loading)] + chunks + last;
    StagesSetAppend([StageSet(Loading)], chunks);
    StagesSetAppend([StageSet(Loading)] + chunks, last);
    ChunksTraceViews(urls, 0);
    assert StagesSet(last) == [Finalizing];
    assert StagesSet([StageSet(Loading)]) == [Loading];
  }

  /** A run that does not throw hands the preloader exactly the chunks of the list, in order. */
  lemma LoadTraceChunks(urls: seq<Url>)
    requires |urls| > 0
    ensures RequestedChunks(LoadTrace(urls, None)) == Chunks(urls, 0)
  {
    var chunks := ChunksTrace(urls, 0, |urls|);
    var last := [StageSet(Finalizing), ProgressSet(100)];
    assert LoadTrace(urls, None) == [StageSet(Loading)] + chunks + last;
    RequestedChunksAppend([StageSet(Loading)], chunks);
    RequestedChunksAppend([StageSet(Loading)] + chunks, last);
    ChunksTraceViews(urls, 0);
    assert RequestedChunks(last) == [];
    assert RequestedChunks([StageSet(Loading)]) == [];
  }

  /** A run that does not throw shows the progress of each frame settling in turn, then 100. */
  lemma LoadTraceProgress(urls: seq<Url>)
    requires |urls| > 0
    ensures ProgressValues(LoadTrace(urls, None)) == ShownRun(0, |urls|, |urls|) + [100]
  {
    var chunks := ChunksTrace(urls, 0, |urls|);
    var last := [StageSet(Finalizing), ProgressSet(100)];
    assert LoadTrace(urls, None) == [StageSet(Loading)] + chunks + last;
    ProgressValuesAppend([StageSet(Loading)], chunks);
    ProgressValuesAppend([StageSet(Loading)] + chunks, last);
    ChunksTraceViews(urls, 0);
    assert ProgressValues(last) == [100];
    assert ProgressValues([StageSet(Loading)]) == [];
  }

  /** The progress values of settling frames never decrease and stay at most 99. */
  lemma ShownRunMonotone(count: nat, total: nat)
    requires 0 < total && count <= total
    ensures forall j, k :: 0 <= j <= k < count ==> ShownRun(0, count, total)[j] <= ShownRun(0, count, total)[k] <= 99
  {
    var r := ShownRun(0, count, total);
    forall j, k | 0 <= j <= k < count
      ensures r[j] <= r[k] <= 99
    {
      ShownProgressMonotone(j + 1, k + 1, total);
    }
  }

  /**
   * A run that does not throw sets the stages loading then finalizing, hands the preloader
   * the chunks of the list, and sets one progress value per frame, never decreasing and at
   * most 99, followed by 100.
   */
  lemma LoadTraceShape(urls: seq<Url>)
    requires |urls| > 0
    ensures StagesSet(LoadTrace(urls, None)) == [Loading, Finalizing]
    ensures RequestedChunks(LoadTrace(urls, None)) == Chunks(urls, 0)
    ensures |ProgressValues(LoadTrace(urls, None))| == |urls| + 1
    ensures forall j, k :: 0 <= j <= k < |urls| + 1 ==>
      ProgressValues(LoadTrace(urls, None))[j] <= ProgressValues(LoadTrace(urls, None))[k]
    ensures forall k :: 0 <= k < |urls| ==> ProgressValues(LoadTrace(urls, None))[k] <= 99
    ensures ProgressValues(LoadTrace(urls, None))[|urls|] == 100
  {
    LoadTraceStages(urls);
    LoadTraceChunks(urls);
    LoadTraceProgress(urls);
    ShownRunMonotone(|urls|, |urls|);
    var pv := ProgressValues(LoadTrace(urls, None));
    var r := ShownRun(0, |urls|, |urls|);
    assert pv == r + [100];
    assert forall k :: 0 <= k < |urls| ==> pv[k] == r[k] <= 99;
  }

  /** Every pause is directly followed by the request of a chunk. */
  predicate PausesPrecedeRequests(t: seq<Step>) {
    forall k :: 0 <= k < |t| && t[k] == Paused ==> k + 1 < |t| && t[k + 1].ChunkRequested?
  }

  /** In a run of chunks a pause is always followed by the request of the next chunk: there is none after the last. */
  lemma {:induction false} PausesBetweenChunks(urls: seq<Url>, i: nat)
    ensures PausesPrecedeRequests(ChunksTrace(urls, i, |urls|))
    decreases |urls| - i
  {
    if i < |urls| {
      var e := ChunkEnd(|urls|, i);
      var steps := ProgressSteps(i, e - i, |urls|);
      var tail: seq<Step> := if i + ChunkSize < |urls| then [Paused] else [];
      var c := [ChunkRequested(urls[i..e])] + steps + tail;
      var rest := ChunksTrace(urls, i + ChunkSize, |urls|);
      assert ChunksTrace(urls, i, |urls|) == c + rest;
      PausesBetweenChunks(urls, i + ChunkSize);
      assert PausesPrecedeRequests(rest);
      var t := c + rest;
      assert t[0] == ChunkRequested(urls[i..e]);
      assert forall k :: 1 <= k <= |steps| ==> t[k] == steps[k - 1];
      forall k | 0 <= k < |t| && t[k] == Paused
        ensures k + 1 < |t| && t[k + 1].ChunkRequested?
      {
        if k >= |c| {
          assert rest[k - |c|] == Paused;
          assert t[k + 1] == rest[k + 1 - |c|];
        } else if k == |c| - 1 && i + ChunkSize < |urls| {
          assert rest == ChunkTrace(urls, i + ChunkSize) + ChunksTrace(urls, i + 2 * ChunkSize, |urls|);
          assert t[k + 1] == rest[0];
        }
      }
    }
  }

  // ---------------------------------------------------------------------------------------
  // The component
  // ---------------------------------------------------------------------------------------

  class LoadingController {
    /** The `framesToLoad` prop (192 unless given). */
    const framesToLoad: int
    /** The module-level stores of the image optimizer. */
    const cache: ImageStore
    /** `loadingStage` and `loadingProgress`. */
    var stage: Stage
    var progress: int
    /** `loadingAttempted.current`. */
    var attempted: bool
    /** Whether the 100 ms timer that runs `loadFrames` is pending. */
    var loadScheduled: bool
    /** Whether the 500 ms timer that calls `onLoadingComplete` is pending. */
    var completionScheduled: bool
    /** How often `onLoadingComplete` has been called. */
    var completions: nat
    /** What the component has done so far, in order. */
    var history: seq<Step>

    ghost predicate Valid()
      reads this, cache
    {
      && cache.Valid()
      // a started load calls onLoadingComplete exactly once: it is done, or exactly one way to it is pending
      && completions + (if loadScheduled then 1 else 0) + (if completionScheduled then 1 else 0)
         == (if attempted then 1 else 0)
      && (!attempted || loadScheduled ==> stage == Initializing && progress == 0 && history == [])
    }

    /** The state a run of chunks leaves alone: the stage, the attempt and the completion bookkeeping. */
    function Untouched(): (Stage, bool, bool, bool, nat)
      reads this
    {
      (stage, attempted, loadScheduled, completionScheduled, completions)
    }

    /** A fresh mount: nothing attempted, stage initializing, progress 0. */
    constructor (cache: ImageStore, framesToLoad: int)
      requires cache.Valid()
      ensures Valid() && this.cache == cache && this.framesToLoad == framesToLoad
      ensures stage == Initializing && progress == 0 && history == []
      ensures !attempted && !loadScheduled && !completionScheduled && completions == 0
    {
      this.cache := cache;
      this.framesToLoad := framesToLoad;
      stage := Initializing;
      progress := 0;
      attempted := false;
      loadScheduled := false;
      completionScheduled := false;
      completions := 0;
      history := [];
    }

    /**
     * The effect (it runs again whenever `onLoadingComplete` changes identity): the first run
     * marks the load attempted and schedules `loadFrames`; every later run returns at once.
     */
    method Effect()
      requires Valid()
      modifies this
      ensures Valid() && attempted
      ensures old(attempted) ==> unchanged(this)
      ensures !old(attempted) ==>
        && loadScheduled && stage == old(stage) && history == old(history)
        && completions == old(completions) && completionScheduled == old(completionScheduled)
    {
      if attempted {
        return;
      }
      attempted := true;
      loadScheduled := true;
    }

    /**
     * The progress callback of one chunk, applied to the values `preloadImageBatch` reports
     * for it: each becomes overall progress, rounded down and capped at 99.
     */
    method ShowProgress(reports: seq<nat>, i: nat, count: nat, total: nat)
      requires i + count <= total && count > 0
      requires reports == ProgressReports(count)
      modifies this
      ensures history == old(history) + ProgressSteps(i, count, total)
      ensures progress == ShownProgress(i + count, total)
      ensures Untouched() == old(Untouched())
    {
      var chunkWeight := (count as real) / (total as real);
      var chunkStartProgress := (i as real) / (total as real) * 100.0;
      ProgressRunAt(0, count);
      var k := 0;
      while k < |reports|
        invariant 0 <= k <= count
        invariant history == old(history) + ProgressSteps(i, k, total)
        invariant k > 0 ==> progress == ShownProgress(i + k, total)
        invariant Untouched() == old(Untouched())
      {
        var overallProgress := chunkStartProgress + Percent(reports[k], count) * chunkWeight;
        assert reports[k] == k + 1;
        ChunkProgressValue(i, k + 1, count, total);
        progress := Min(overallProgress.Floor, 99);
        history := history + [ProgressSet(progress)];
        assert progress == ShownProgress(i + k + 1, total);
        ProgressStepsExtend(i, k, total);
        k := k + 1;
      }
    }

    /** One turn of the loop over chunks: preload the chunk starting at i, then pause unless it is the last. */
    method LoadChunk(urls: seq<Url>, outcomes: seq<LoadOutcome>, i: nat)
      requires cache.Valid() && |outcomes| == |urls| && i < |urls|
      modifies this, cache
      ensures cache.Valid()
      ensures history == old(history) + ChunkTrace(urls, i)
      ensures cache.State() == BatchFrom(old(cache.State()), urls[i..ChunkEnd(|urls|, i)], outcomes[i..ChunkEnd(|urls|, i)], BatchSize, 0).0
      ensures Untouched() == old(Untouched())
    {
      var end := Min(i + ChunkSize, |urls|);
      var chunk := urls[i..end];
      var request := [ChunkRequested(chunk)];
      history := history + request;
      var _, reports := cache.PreloadImageBatch(chunk, outcomes[i..end], BatchSize);
      ShowProgress(reports, i, |chunk|, |urls|);
      ghost var steps := ProgressSteps(i, |chunk|, |urls|);
      AppendAssoc(old(history), request, steps);
      ghost var tail: seq<Step> := [];
      if i + ChunkSize < |urls| {
        tail := [Paused];
        history := history + [Paused];
      }
      AppendAssoc(old(history), request + steps, tail);
      assert ChunkTrace(urls, i) == request + steps + tail;
    }

    /** LoadChunk, stated as the step from the chunks left at i to the chunks left at i + 32. */
    method NextChunk(urls: seq<Url>, outcomes: seq<LoadOutcome>, i: nat, ghost stop: nat)
      requires cache.Valid() && |outcomes| == |urls| && i < |urls| && i < stop
      modifies this, cache
      ensures cache.Valid()
      ensures history + ChunksTrace(urls, i + ChunkSize, stop) == old(history) + ChunksTrace(urls, i, stop)
      ensures ChunkedCache(cache.State(), urls, outcomes, i + ChunkSize, stop) == ChunkedCache(old(cache.State()), urls, outcomes, i, stop)
      ensures Untouched() == old(Untouched())
    {
      ghost var before := history;
      ghost var st := cache.State();
      LoadChunk(urls, outcomes, i);
      ChunksTraceStep(urls, i, stop);
      AppendAssoc(before, ChunkTrace(urls, i), ChunksTrace(urls, i + ChunkSize, stop));
      ChunkedCacheStep(st, urls, outcomes, i, stop);
    }

    /**
     * Where the loop over chunks stands at i: the record so far followed by that of the
     * chunks from i on is the record of the whole run, and likewise for the stores.
     */
    ghost predicate ChunksSoFar(h0: seq<Step>, st0: CacheState, urls: seq<Url>, outcomes: seq<LoadOutcome>, i: nat, stop: nat)
      requires |outcomes| == |urls|
      reads this, cache
    {
      && history + ChunksTrace(urls, i, stop) == h0 + ChunksTrace(urls, 0, stop)
      && ChunkedCache(cache.State(), urls, outcomes, i, stop) == ChunkedCache(st0, urls, outcomes, 0, stop)
    }

    /** One turn of the loop over chunks keeps it on course. */
    method ChunkTurn(urls: seq<Url>, outcomes: seq<LoadOutcome>, i: nat, ghost stop: nat, ghost h0: seq<Step>, ghost st0: CacheState)
      requires cache.Valid() && |outcomes| == |urls| && i < |urls| && i < stop
      requires ChunksSoFar(h0, st0, urls, outcomes, i, stop)
      modifies this, cache
      ensures cache.Valid() && Untouched() == old(Untouched())
      ensures ChunksSoFar(h0, st0, urls, outcomes, i + ChunkSize, stop)
    {
      NextChunk(urls, outcomes, i, stop);
    }

    /**
     * The loop over chunks of `loadFrames`: the chunks starting at 0, 32, 64, ... in order;
     * `thrown` when the preload of the chunk starting at `fault` throws, which ends the loop there.
     */
    method RunChunks(urls: seq<Url>, outcomes: seq<LoadOutcome>, fault: Option<nat>) returns (thrown: bool)
      requires cache.Valid() && |outcomes| == |urls|
      modifies this, cache
      ensures cache.Valid() && thrown == Faulted(|urls|, fault)
      ensures history == old(history) + ChunksTrace(urls, 0, StopAt(|urls|, fault))
        + (if thrown then [ChunkRequested(urls[StopAt(|urls|, fault)..ChunkEnd(|urls|, StopAt(|urls|, fault))])] else [])
      ensures cache.State() == ChunkedCache(old(cache.State()), urls, outcomes, 0, StopAt(|urls|, fault))
      ensures Untouched() == old(Untouched())
    {
      ghost var stop := StopAt(|urls|, fault);
      var i := 0;
      while i < |urls|
        invariant AtChunkStart(i, |urls|, fault)
        invariant cache.Valid() && Untouched() == old(Untouched())
        invariant ChunksSoFar(old(history), old(cache.State()), urls, outcomes, i, stop)
      {
        var end := Min(i + ChunkSize, |urls|);
        if fault == Some(i) {
          history := history + [ChunkRequested(urls[i..end])];
          return true;
        }
        ChunkTurn(urls, outcomes, i, stop, old(history), old(cache.State()));
        NextChunkStart(i, |urls|, fault);
        i := i + ChunkSize;
      }
      return false;
    }

    /**
     * The body of `loadFrames`' `try` over a list of URLs: stage loading, the chunks, and,
     * unless a chunk throws, stage finalizing and progress 100.
     */
    method RunLoad(urls: seq<Url>, outcomes: seq<LoadOutcome>, fault: Option<nat>) returns (thrown: bool)
      requires cache.Valid() && |outcomes| == |urls| && history == []
      modifies this, cache
      ensures cache.Valid() && thrown == Faulted(|urls|, fault)
      ensures history == LoadTrace(urls, fault)
      ensures cache.State() == ChunkedCache(old(cache.State()), urls, outcomes, 0, StopAt(|urls|, fault))
      ensures thrown ==> stage == Loading
      ensures !thrown ==> stage == Finalizing && progress == 100
      ensures attempted == old(attempted) && loadScheduled == old(loadScheduled)
      ensures completionScheduled == old(completionScheduled) && completions == old(completions)
    {
      stage := Loading;
      history := [StageSet(Loading)];
      thrown := RunChunks(urls, outcomes, fault);
      if !thrown {
        stage := Finalizing;
        progress := 100;
        history := history + [StageSet(Finalizing), ProgressSet(100)];
      }
    }

    /**
     * `loadFrames`, run when the 100 ms timer fires: initialise the stores, stage loading,
     * then the chunks of 32 frame URLs in order, each preloaded five at a time, with a pause
     * between chunks; then stage finalizing, progress 100, and `onLoadingComplete` scheduled
     * for 500 ms later.  When the preload of the chunk starting at `fault` throws, `catch` calls
     * `onLoadingComplete` at once and nothing more happens.
     */
    method LoadFrames(outcomes: seq<LoadOutcome>, fault: Option<nat>)
      requires Valid() && loadScheduled
      requires |outcomes| == Max(framesToLoad, 0)
      modifies this, cache
      ensures Valid() && attempted && !loadScheduled
      ensures history == LoadTrace(FrameUrls.FrameUrlList(Prefix, framesToLoad, 0), fault)
      ensures cache.State() == ChunkedCache(Initialized(old(cache.State()), cache.inBrowser),
        FrameUrls.FrameUrlList(Prefix, framesToLoad, 0), outcomes, 0, StopAt(|outcomes|, fault))
      ensures Faulted(|outcomes|, fault) ==> completions == 1 && !completionScheduled && stage == Loading
      ensures !Faulted(|outcomes|, fault) ==>
        completions == 0 && completionScheduled && stage == Finalizing && progress == 100
    {
      loadScheduled := false;
      cache.InitImageCache();
      var frameUrls := FrameUrls.GenerateFrameUrls(Prefix, framesToLoad, 0);
      var thrown := RunLoad(frameUrls, outcomes, fault);
      if thrown {
        completions := completions + 1;
      } else {
        completionScheduled := true;
      }
    }

    /** The 500 ms timer fires: `onLoadingComplete` is called, for the first and only time. */
    method CompletionTimerFires()
      requires Valid() && completionScheduled
      modifies this
      ensures Valid() && completions == 1 && !completionScheduled
      ensures stage == old(stage) && progress == old(progress) && history == old(history)
    {
      completionScheduled := false;
      completions := completions + 1;
    }
  }
}

/**
 * The image cache and the preloaders of src/utils/imageOptimizer.ts.
 *
 * The module keeps two stores: the module-level `imageCache` record and the global
 * `window.__PRELOADED_IMAGES` record, which exists only in a browser and only once
 * `initImageCache` has run.  `ImageStore` holds both as fields.  Loading an image is not
 * modelled: the caller supplies, for every request, whether the browser decodes it (and
 * the element it yields) or reports an error.
 */
module ImageOptimizer {
  import opened Common
  import FrameUrls

  type Url = string

  /** A decoded `HTMLImageElement`; `id` stands for the element's identity. */
  datatype ImageHandle = ImageHandle(id: nat)

  /** What the browser does with one request: `onload` with the decoded element, or `onerror`. */
  datatype LoadOutcome = Decoded(image: ImageHandle) | LoadFailed

  datatype LoadError = LoadError(message: string)

  /** The state of both stores; `preloaded` is None while `window.__PRELOADED_IMAGES` is undefined. */
  datatype CacheState = CacheState(images: map<Url, ImageHandle>, preloaded: Option<map<Url, ImageHandle>>)

  /** `getImageFromCache`: the `imageCache` entry first, then the window entry, else nothing. */
  function Lookup(st: CacheState, url: Url): (r: Option<ImageHandle>)
    ensures url in st.images ==> r == Some(st.images[url])
    ensures url !in st.images && st.preloaded.Some? && url in st.preloaded.value ==> r == Some(st.preloaded.value[url])
    ensures r.Some? <==> url in st.images || (st.preloaded.Some? && url in st.preloaded.value)
  {
    if url in st.images then Some(st.images[url])
    else if st.preloaded.Some? && url in st.preloaded.value then Some(st.preloaded.value[url])
    else None
  }

  /** What `onload` writes: the element under `url` in `imageCache`, and in the window store when it exists. */
  function Store(st: CacheState, url: Url, image: ImageHandle): (r: CacheState)
    ensures Lookup(r, url) == Some(image)
    ensures forall u :: u != url ==> Lookup(r, u) == Lookup(st, u)
    ensures r.images.Keys == st.images.Keys + {url}
    ensures r.preloaded.Some? <==> st.preloaded.Some?
    ensures r.preloaded.Some? ==> r.preloaded.value.Keys == st.preloaded.value.Keys + {url} && r.preloaded.value[url] == image
  {
    CacheState(
      st.images[url := image],
      if st.preloaded.Some? then Some(st.preloaded.value[url := image]) else None)
  }

  /** What `clearFromCache` leaves: the given keys gone from both stores, every other entry as it was. */
  function Evict(st: CacheState, urls: set<Url>): (r: CacheState)
    ensures forall u :: u in urls ==> Lookup(r, u) == None
    ensures forall u :: u !in urls ==> Lookup(r, u) == Lookup(st, u)
    ensures r.images.Keys == st.images.Keys - urls
    ensures r.preloaded.Some? <==> st.preloaded.Some?
    ensures r.preloaded.Some? ==> r.preloaded.value.Keys == st.preloaded.value.Keys - urls
  {
    CacheState(st.images - urls, if st.preloaded.Some? then Some(st.preloaded.value - urls) else None)
  }

  /** What `initImageCache` leaves: in a browser, the window store, created empty unless it already exists. */
  function Initialized(st: CacheState, inBrowser: bool): (r: CacheState)
    ensures r.images == st.images
    ensures inBrowser ==> r.preloaded.Some?
    ensures st.preloaded.Some? || !inBrowser ==> r.preloaded == st.preloaded
    ensures inBrowser && st.preloaded.None? ==> r.preloaded == Some(map[])
  {
    if inBrowser then CacheState(st.images, Some(st.preloaded.GetOr(map[]))) else st
  }

  /** Storing the same element twice leaves one entry, as storing it once does. */
  lemma StoreIdempotent(st: CacheState, url: Url, image: ImageHandle)
    ensures Store(Store(st, url, image), url, image) == Store(st, url, image)
  {
    assert st.images[url := image][url := image] == st.images[url := image];
    if st.preloaded.Some? {
      var w := st.preloaded.value;
      assert w[url := image][url := image] == w[url := image];
    }
  }

  /** Clearing the same keys twice is the same as clearing them once. */
  lemma EvictIdempotent(st: CacheState, urls: set<Url>)
    ensures Evict(Evict(st, urls), urls) == Evict(st, urls)
  {
    assert st.images - urls - urls == st.images - urls;
    if st.preloaded.Some? {
      var w := st.preloaded.value;
      assert w - urls - urls == w - urls;
    }
  }

  /** The URL actually requested: with `addTimestamp`, `?t=<now>` is appended for cache busting. */
  function RequestUrl(url: Url, addTimestamp: bool, now: int): Url {
    if addTimestamp then url + "?t=" + FrameUrls.DecimalString(now) else url
  }

  /**
   * The synchronous part of `preloadImage`: either the `imageCache` entry (no request is made),
   * or a request for the (possibly time-stamped) URL whose result will be stored under `url`.
   */
  datatype Pending = Hit(image: ImageHandle) | InFlight(url: Url, request: Url)

  function LoadFailure(url: Url): LoadError {
    LoadError("Failed to load image: " + url)
  }

  // ---------------------------------------------------------------------------------------
  // Specification of `preloadImageBatch`
  // ---------------------------------------------------------------------------------------

  /** `completed / total * 100`, the value handed to the progress callback. */
  function Percent(completed: nat, total: nat): real
    requires total > 0
  {
    (completed as real) / (total as real) * 100.0
  }

  /**
   * The progress reports of a batch of `total` URLs, one per settled request.  A report is
   * the `completed` count at the moment of the callback; the callback receives
   * `Percent(completed, total)`, a function of that count alone.
   */
  function ProgressReports(total: nat): seq<nat> {
    ProgressRun(0, total)
  }

  /** The `count` reports made after `from` requests had already settled: from + 1, ..., from + count. */
  function ProgressRun(from: nat, count: nat): (r: seq<nat>)
    ensures |r| == count
  {
    if count == 0 then [] else ProgressRun(from, count - 1) + [from + count]
  }

  /** The k-th report after `from` settled requests is from + k + 1. */
  lemma {:induction false} ProgressRunAt(from: nat, count: nat)
    ensures forall k :: 0 <= k < count ==> ProgressRun(from, count)[k] == from + k + 1
  {
    if count > 0 {
      ProgressRunAt(from, count - 1);
    }
  }

  lemma ProgressRunExtend(from: nat, count: nat)
    ensures ProgressRun(from, count + 1) == ProgressRun(from, count) + [from + count + 1]
  {
  }

  /** The reports of two consecutive runs of settlements concatenate. */
  lemma {:induction false} ProgressRunAppend(from: nat, c1: nat, c2: nat)
    ensures ProgressRun(from, c1 + c2) == ProgressRun(from, c1) + ProgressRun(from + c1, c2)
    decreases c2
  {
    if c2 > 0 {
      ProgressRunAppend(from, c1, c2 - 1);
      AppendAssoc(ProgressRun(from, c1), ProgressRun(from + c1, c2 - 1), [from + c1 + c2]);
    }
  }

  /**
   * One report per URL; the values handed to the callback are strictly increasing, all in
   * (0, 100], the last exactly 100.
   */
  lemma ProgressReportsShape(total: nat)
    ensures |ProgressReports(total)| == total
    ensures forall k :: 0 <= k < total ==> ProgressReports(total)[k] == k + 1
    ensures total > 0 ==> forall j, k :: 0 <= j < k < total ==>
      Percent(ProgressReports(total)[j], total) < Percent(ProgressReports(total)[k], total)
    ensures total > 0 ==> forall k :: 0 <= k < total ==> 0.0 < Percent(ProgressReports(total)[k], total) <= 100.0
    ensures total > 0 ==> Percent(ProgressReports(total)[total - 1], total) == 100.0
  {
    ProgressRunAt(0, total);
    if total > 0 {
      ReportedPercents(ProgressReports(total), total);
    }
  }

  /** The callback values of the counts 1..total, in that order. */
  lemma ReportedPercents(p: seq<nat>, total: nat)
    requires total > 0 && |p| == total
    requires forall k :: 0 <= k < total ==> p[k] == k + 1
    ensures forall j, k :: 0 <= j < k < total ==> Percent(p[j], total) < Percent(p[k], total)
    ensures forall k :: 0 <= k < total ==> 0.0 < Percent(p[k], total) <= 100.0
    ensures Percent(p[total - 1], total) == 100.0
  {
    forall j, k | 0 <= j < k < total
      ensures Percent(p[j], total) < Percent(p[k], total)
    {
      PercentStrictlyIncreasing(p[j], p[k], total);
    }
    forall k | 0 <= k < total
      ensures 0.0 < Percent(p[k], total) <= 100.0
    {
      PercentBounds(p[k], total);
    }
    PercentComplete(total);
  }

  lemma PercentComplete(total: nat)
    requires total > 0
    ensures Percent(total, total) == 100.0
  {
    var t := total as real;
    assert t / t == 1.0;
  }

  lemma PercentStrictlyIncreasing(a: nat, b: nat, total: nat)
    requires a < b && total > 0
    ensures Percent(a, total) < Percent(b, total)
  {
    var t := total as real;
    assert (a as real) / t < (b as real) / t;
  }

  lemma PercentBounds(c: nat, total: nat)
    requires 0 < c <= total
    ensures 0.0 < Percent(c, total) <= 100.0
  {
    var t := total as real;
    assert (c as real) / t <= 1.0;
  }

  /** The synchronous start of `preloadImage` against the stores `st`. */
  function Begin(st: CacheState, url: Url, addTimestamp: bool, now: int): (p: Pending)
    ensures p.Hit? <==> url in st.images
    ensures p.Hit? ==> p.image == st.images[url]
    ensures p.InFlight? ==> p.url == url && p.request == RequestUrl(url, addTimestamp, now)
  {
    if url in st.images then Hit(st.images[url]) else InFlight(url, RequestUrl(url, addTimestamp, now))
  }

  /** The requests of one slice, all started against the same stores (no time stamp). */
  function Begins(st: CacheState, slice: seq<Url>): (ps: seq<Pending>)
    ensures |ps| == |slice|
    ensures forall k :: 0 <= k < |slice| ==> ps[k] == Begin(st, slice[k], false, 0)
  {
    seq(|slice|, k requires 0 <= k < |slice| => Begin(st, slice[k], false, 0))
  }

  /** What one started request yields once it settles: the cached element, the decoded one, or nothing. */
  function SettledImage(p: Pending, outcome: LoadOutcome): seq<ImageHandle> {
    if p.Hit? then [p.image]
    else if outcome.Decoded? then [outcome.image]
    else []
  }

  /** What one started request writes once it settles: only a request that was made and decoded stores. */
  function SettledCache(st: CacheState, p: Pending, outcome: LoadOutcome): CacheState {
    if p.InFlight? && outcome.Decoded? then Store(st, p.url, outcome.image) else st
  }

  /** The elements started requests yield, in order. */
  function SliceLoaded(pending: seq<Pending>, outcomes: seq<LoadOutcome>): seq<ImageHandle>
    requires |pending| == |outcomes|
  {
    if pending == [] then []
    else SettledImage(pending[0], outcomes[0]) + SliceLoaded(pending[1..], outcomes[1..])
  }

  /** The stores once started requests have settled, in order. */
  function SliceCache(st: CacheState, pending: seq<Pending>, outcomes: seq<LoadOutcome>): CacheState
    requires |pending| == |outcomes|
    decreases |pending|
  {
    if pending == [] then st
    else SliceCache(SettledCache(st, pending[0], outcomes[0]), pending[1..], outcomes[1..])
  }

  lemma SliceFromStep(st: CacheState, pending: seq<Pending>, outcomes: seq<LoadOutcome>, j: nat)
    requires |pending| == |outcomes| && j < |pending|
    ensures SliceCache(st, pending[j..], outcomes[j..])
      == SliceCache(SettledCache(st, pending[j], outcomes[j]), pending[j + 1..], outcomes[j + 1..])
    ensures SliceLoaded(pending[j..], outcomes[j..])
      == SettledImage(pending[j], outcomes[j]) + SliceLoaded(pending[j + 1..], outcomes[j + 1..])
  {
    assert pending[j..][0] == pending[j] && outcomes[j..][0] == outcomes[j];
    assert pending[j..][1..] == pending[j + 1..] && outcomes[j..][1..] == outcomes[j + 1..];
  }

  /**
   * Where the batch loop stands at `i`: the images gathered so far followed by those the
   * batches from `i` produce are the whole result, and the reports so far count 1..i.
   */
  ghost predicate BatchSoFar(st: CacheState, urls: seq<Url>, outcomes: seq<LoadOutcome>, batchSize: int, i: nat,
                             loaded: seq<ImageHandle>, reports: seq<nat>, result: (CacheState, seq<ImageHandle>))
    requires |urls| == |outcomes|
    requires batchSize > 0 || urls == []
  {
    && BatchFrom(st, urls, outcomes, batchSize, i).0 == result.0
    && loaded + BatchFrom(st, urls, outcomes, batchSize, i).1 == result.1
    && reports == ProgressRun(0, Min(i, |urls|))
  }

  /**
   * The stores and the yielded elements of `preloadImageBatch` from position `i` on: slices of
   * `batchSize` URLs, each checked against the stores as they were when the slice started.
   */
  function BatchFrom(st: CacheState, urls: seq<Url>, outcomes: seq<LoadOutcome>, batchSize: int, i: nat)
    : (CacheState, seq<ImageHandle>)
    requires |urls| == |outcomes|
    requires batchSize > 0 || urls == []
    decreases |urls| - i
  {
    if i >= |urls| then (st, [])
    else
      var end := Min(i + batchSize, |urls|);
      var pending := Begins(st, urls[i..end]);
      var rest := BatchFrom(SliceCache(st, pending, outcomes[i..end]), urls, outcomes, batchSize, i + batchSize);
      (rest.0, SliceLoaded(pending, outcomes[i..end]) + rest.1)
  }

  /** The decoded elements among the outcomes, in order. */
  function LoadedImages(outcomes: seq<LoadOutcome>): seq<ImageHandle> {
    if outcomes == [] then []
    else (if outcomes[0].Decoded? then [outcomes[0].image] else []) + LoadedImages(outcomes[1..])
  }

  /** The number of failed outcomes. */
  function FailureCount(outcomes: seq<LoadOutcome>): nat {
    if outcomes == [] then 0 else (if outcomes[0].LoadFailed? then 1 else 0) + FailureCount(outcomes[1..])
  }

  /** The stores after every decoded outcome has stored its element under its URL, in order. */
  function StoreDecoded(st: CacheState, urls: seq<Url>, outcomes: seq<LoadOutcome>): CacheState
    requires |urls| == |outcomes|
    decreases |urls|
  {
    if urls == [] then st
    else StoreDecoded(if outcomes[0].Decoded? then Store(st, urls[0], outcomes[0].image) else st, urls[1..], outcomes[1..])
  }

  predicate Distinct(urls: seq<Url>) {
    forall j, k :: 0 <= j < k < |urls| ==> urls[j] != urls[k]
  }

  /** With `k` failures among `M` loads, `M - k` elements are yielded. */
  lemma {:induction false} LoadedImagesCount(outcomes: seq<LoadOutcome>)
    ensures |LoadedImages(outcomes)| == |outcomes| - FailureCount(outcomes)
  {
    if outcomes != [] {
      LoadedImagesCount(outcomes[1..]);
    }
  }

  lemma {:induction false} LoadedImagesAppend(a: seq<LoadOutcome>, b: seq<LoadOutcome>)
    ensures LoadedImages(a + b) == LoadedImages(a) + LoadedImages(b)
  {
    if a != [] {
      assert (a + b)[0] == a[0];
      assert (a + b)[1..] == a[1..] + b;
      LoadedImagesAppend(a[1..], b);
    } else {
      assert a + b == b;
    }
  }

  lemma {:induction false} StoreDecodedAppend(st: CacheState, u1: seq<Url>, o1: seq<LoadOutcome>, u2: seq<Url>, o2: seq<LoadOutcome>)
    requires |u1| == |o1| && |u2| == |o2|
    ensures StoreDecoded(st, u1 + u2, o1 + o2) == StoreDecoded(StoreDecoded(st, u1, o1), u2, o2)
    decreases |u1|
  {
    if u1 == [] {
      assert u1 + u2 == u2 && o1 + o2 == o2;
    } else {
      assert (u1 + u2)[0] == u1[0] && (o1 + o2)[0] == o1[0];
      assert (u1 + u2)[1..] == u1[1..] + u2;
      assert (o1 + o2)[1..] == o1[1..] + o2;
      StoreDecodedAppend(
        if o1[0].Decoded? then Store(st, u1[0], o1[0].image) else st, u1[1..], o1[1..], u2, o2);
    }
  }

  /** StoreDecoded adds entries for its URLs only. */
  lemma {:induction false} StoreDecodedKeys(st: CacheState, urls: seq<Url>, outcomes: seq<LoadOutcome>)
    requires |urls| == |outcomes|
    ensures forall u :: u in StoreDecoded(st, urls, outcomes).images ==> u in st.images || u in urls
    ensures forall u :: u !in urls ==> Lookup(StoreDecoded(st, urls, outcomes), u) == Lookup(st, u)
    decreases |urls|
  {
    if urls != [] {
      var st' := if outcomes[0].Decoded? then Store(st, urls[0], outcomes[0].image) else st;
      StoreDecodedKeys(st', urls[1..], outcomes[1..]);
    }
  }

  /**
   * For distinct URLs, StoreDecoded leaves exactly the decoded elements: each decoded URL
   * looks up to its element, each failed URL looks up as before.
   */
  lemma {:induction false} StoreDecodedLookup(st: CacheState, urls: seq<Url>, outcomes: seq<LoadOutcome>)
    requires |urls| == |outcomes| && Distinct(urls)
    ensures forall k :: 0 <= k < |urls| && outcomes[k].Decoded? ==>
      Lookup(StoreDecoded(st, urls, outcomes), urls[k]) == Some(outcomes[k].image)
    ensures forall k :: 0 <= k < |urls| && outcomes[k].LoadFailed? ==>
      Lookup(StoreDecoded(st, urls, outcomes), urls[k]) == Lookup(st, urls[k])
    decreases |urls|
  {
    if urls != [] {
      var st' := if outcomes[0].Decoded? then Store(st, urls[0], outcomes[0].image) else st;
      StoreDecodedLookup(st', urls[1..], outcomes[1..]);
      StoreDecodedKeys(st', urls[1..], outcomes[1..]);
      forall k | 0 <= k < |urls|
        ensures outcomes[k].Decoded? ==> Lookup(StoreDecoded(st, urls, outcomes), urls[k]) == Some(outcomes[k].image)
        ensures outcomes[k].LoadFailed? ==> Lookup(StoreDecoded(st, urls, outcomes), urls[k]) == Lookup(st, urls[k])
      {
        if k > 0 {
          assert urls[k] == urls[1..][k - 1];
          assert outcomes[k] == outcomes[1..][k - 1];
          assert urls[k] != urls[0];
        } else {
          assert urls[0] !in urls[1..];
        }
      }
    }
  }

  /** Requests that were all made, for the URLs of `slice`, store and yield exactly their decoded loads. */
  lemma {:induction false} FreshSlice(st: CacheState, pending: seq<Pending>, slice: seq<Url>, outcomes: seq<LoadOutcome>)
    requires |pending| == |slice| == |outcomes|
    requires forall k :: 0 <= k < |pending| ==> pending[k].InFlight? && pending[k].url == slice[k]
    ensures SliceCache(st, pending, outcomes) == StoreDecoded(st, slice, outcomes)
    ensures SliceLoaded(pending, outcomes) == LoadedImages(outcomes)
    decreases |pending|
  {
    if pending != [] {
      assert pending[0].InFlight? && pending[0].url == slice[0];
      forall k | 0 <= k < |pending| - 1
        ensures pending[1..][k].InFlight? && pending[1..][k].url == slice[1..][k]
      {
        assert pending[1..][k] == pending[k + 1];
      }
      FreshSlice(SettledCache(st, pending[0], outcomes[0]), pending[1..], slice[1..], outcomes[1..]);
    }
  }

  /** One slice of BatchFrom, unfolded. */
  lemma BatchFromStep(st: CacheState, urls: seq<Url>, outcomes: seq<LoadOutcome>, batchSize: int, i: nat, end: nat)
    requires |urls| == |outcomes| && (batchSize > 0 || urls == [])
    requires i < |urls| && end == Min(i + batchSize, |urls|)
    ensures i < end
    ensures BatchFrom(st, urls, outcomes, batchSize, i)
      == (BatchFrom(SliceCache(st, Begins(st, urls[i..end]), outcomes[i..end]), urls, outcomes, batchSize, i + batchSize).0,
          SliceLoaded(Begins(st, urls[i..end]), outcomes[i..end])
          + BatchFrom(SliceCache(st, Begins(st, urls[i..end]), outcomes[i..end]), urls, outcomes, batchSize, i + batchSize).1)
  {
  }

  /** Storing the loads of positions i..end of distinct URLs leaves the URLs from `end` on as uncached as before. */
  lemma LaterStayUncached(st: CacheState, urls: seq<Url>, outcomes: seq<LoadOutcome>, i: nat, end: nat)
    requires |urls| == |outcomes| && i <= end <= |urls| && Distinct(urls)
    requires forall k :: i <= k < |urls| ==> urls[k] !in st.images
    ensures forall k :: end <= k < |urls| ==> urls[k] !in StoreDecoded(st, urls[i..end], outcomes[i..end]).images
  {
    var slice := urls[i..end];
    StoreDecodedKeys(st, slice, outcomes[i..end]);
    forall k | end <= k < |urls|
      ensures urls[k] !in slice
    {
      forall j | 0 <= j < |slice|
        ensures slice[j] != urls[k]
      {
        assert slice[j] == urls[i + j];
      }
    }
  }

  lemma {:induction false} FreshBatchFrom(st: CacheState, urls: seq<Url>, outcomes: seq<LoadOutcome>, batchSize: int, i: nat)
    requires |urls| == |outcomes| && (batchSize > 0 || urls == [])
    requires i <= |urls| && Distinct(urls)
    requires forall k :: i <= k < |urls| ==> urls[k] !in st.images
    ensures BatchFrom(st, urls, outcomes, batchSize, i) == (StoreDecoded(st, urls[i..], outcomes[i..]), LoadedImages(outcomes[i..]))
    decreases |urls| - i
  {
    if i < |urls| {
      var end := Min(i + batchSize, |urls|);
      var slice, outs := urls[i..end], outcomes[i..end];
      BatchFromStep(st, urls, outcomes, batchSize, i, end);
      assert forall k :: 0 <= k < |slice| ==> slice[k] == urls[i + k];
      FreshSlice(st, Begins(st, slice), slice, outs);
      var st' := StoreDecoded(st, slice, outs);
      LaterStayUncached(st, urls, outcomes, i, end);
      if i + batchSize < |urls| {
        FreshBatchFrom(st', urls, outcomes, batchSize, i + batchSize);
      } else {
        assert BatchFrom(st', urls, outcomes, batchSize, i + batchSize) == (st', []);
        assert urls[end..] == [] && outcomes[end..] == [];
      }
      SuffixSplit(urls, i, end);
      SuffixSplit(outcomes, i, end);
      StoreDecodedAppend(st, slice, outs, urls[end..], outcomes[end..]);
      LoadedImagesAppend(outs, outcomes[end..]);
    }
  }

  /**
   * A batch of distinct URLs none of which is in `imageCache` yields exactly the decoded
   * elements in URL order (so k failures out of M give M - k elements); afterwards every
   * decoded URL looks up to its element, every failed URL and every URL outside the batch
   * looks up as before.
   */
  lemma FreshBatch(st: CacheState, urls: seq<Url>, outcomes: seq<LoadOutcome>, batchSize: int)
    requires |urls| == |outcomes| && (batchSize > 0 || urls == [])
    requires Distinct(urls)
    requires forall u :: u in urls ==> u !in st.images
    ensures BatchFrom(st, urls, outcomes, batchSize, 0).1 == LoadedImages(outcomes)
    ensures |BatchFrom(st, urls, outcomes, batchSize, 0).1| == |urls| - FailureCount(outcomes)
    ensures forall k :: 0 <= k < |urls| && outcomes[k].Decoded? ==>
      Lookup(BatchFrom(st, urls, outcomes, batchSize, 0).0, urls[k]) == Some(outcomes[k].image)
    ensures forall k :: 0 <= k < |urls| && outcomes[k].LoadFailed? ==>
      Lookup(BatchFrom(st, urls, outcomes, batchSize, 0).0, urls[k]) == Lookup(st, urls[k])
    ensures forall u :: u !in urls ==> Lookup(BatchFrom(st, urls, outcomes, batchSize, 0).0, u) == Lookup(st, u)
  {
    FreshBatchFrom(st, urls, outcomes, batchSize, 0);
    assert urls[0..] == urls && outcomes[0..] == outcomes;
    LoadedImagesCount(outcomes);
    StoreDecodedLookup(st, urls, outcomes);
    StoreDecodedKeys(st, urls, outcomes);
  }

  // Batches over URLs already cached, and batches in general

  /** The elements `imageCache` holds for the given URLs, in order. */
  function CachedImages(st: CacheState, urls: seq<Url>): seq<ImageHandle>
    requires forall u :: u in urls ==> u in st.images
  {
    seq(|urls|, k requires 0 <= k < |urls| => st.images[urls[k]])
  }

  lemma CachedImagesAppend(st: CacheState, a: seq<Url>, b: seq<Url>)
    requires forall u :: u in a + b ==> u in st.images
    ensures CachedImages(st, a + b) == CachedImages(st, a) + CachedImages(st, b)
  {
    assert forall u :: u in a ==> u in a + b;
    assert forall u :: u in b ==> u in a + b;
  }

  /** A slice whose URLs are all in `imageCache` makes no request: it yields their elements and stores nothing. */
  lemma {:induction false} CachedSlice(st: CacheState, pending: seq<Pending>, slice: seq<Url>, outcomes: seq<LoadOutcome>)
    requires |pending| == |slice| == |outcomes|
    requires forall u :: u in slice ==> u in st.images
    requires forall k :: 0 <= k < |slice| ==> pending[k] == Hit(st.images[slice[k]])
    ensures SliceCache(st, pending, outcomes) == st
    ensures SliceLoaded(pending, outcomes) == CachedImages(st, slice)
    decreases |pending|
  {
    if pending != [] {
      assert slice == [slice[0]] + slice[1..];
      CachedImagesAppend(st, [slice[0]], slice[1..]);
      CachedSlice(st, pending[1..], slice[1..], outcomes[1..]);
    }
  }

  lemma CachedRange(st: CacheState, urls: seq<Url>, i: nat, j: nat)
    requires i <= j <= |urls|
    requires forall u :: u in urls ==> u in st.images
    ensures forall u :: u in urls[i..j] ==> u in st.images
  {
    forall u | u in urls[i..j]
      ensures u in st.images
    {
      var k :| i <= k < j && urls[k] == u;
    }
  }

  lemma {:induction false} CachedBatchFrom(st: CacheState, urls: seq<Url>, outcomes: seq<LoadOutcome>, batchSize: int, i: nat)
    requires |urls| == |outcomes| && (batchSize > 0 || urls == []) && i <= |urls|
    requires forall u :: u in urls ==> u in st.images
    ensures BatchFrom(st, urls, outcomes, batchSize, i) == (st, CachedImages(st, urls[i..]))
    decreases |urls| - i
  {
    if i < |urls| {
      var end := Min(i + batchSize, |urls|);
      BatchFromStep(st, urls, outcomes, batchSize, i, end);
      var pending := Begins(st, urls[i..end]);
      CachedRange(st, urls, i, end);
      CachedSlice(st, pending, urls[i..end], outcomes[i..end]);
      var rest := BatchFrom(st, urls, outcomes, batchSize, i + batchSize);
      CachedRange(st, urls, end, |urls|);
      assert urls[end..|urls|] == urls[end..];
      if end < |urls| {
        CachedBatchFrom(st, urls, outcomes, batchSize, i + batchSize);
        assert rest == (st, CachedImages(st, urls[end..]));
      } else {
        assert rest == (st, []);
        assert CachedImages(st, urls[end..]) == [];
      }
      SuffixSplit(urls, i, end);
      CachedImagesAppend(st, urls[i..end], urls[end..]);
      assert BatchFrom(st, urls, outcomes, batchSize, i) == (rest.0, CachedImages(st, urls[i..end]) + rest.1);
    } else {
      assert CachedImages(st, urls[i..]) == [];
    }
  }

  /**
   * A batch whose URLs are all in `imageCache` (a second load of the same frames, say) makes
   * no request: it yields the cached elements in URL order, duplicates included, and leaves
   * both stores as they were.
   */
  lemma CachedBatch(st: CacheState, urls: seq<Url>, outcomes: seq<LoadOutcome>, batchSize: int)
    requires |urls| == |outcomes| && (batchSize > 0 || urls == [])
    requires forall u :: u in urls ==> u in st.images
    ensures BatchFrom(st, urls, outcomes, batchSize, 0).0 == st
    ensures |BatchFrom(st, urls, outcomes, batchSize, 0).1| == |urls|
    ensures forall k :: 0 <= k < |urls| ==> BatchFrom(st, urls, outcomes, batchSize, 0).1[k] == st.images[urls[k]]
  {
    CachedBatchFrom(st, urls, outcomes, batchSize, 0);
    assert urls[0..] == urls;
  }

  /** An element a batch can yield: one `imageCache` held before the batch, or one of its loads decoded. */
  ghost predicate Sourced(st0: CacheState, outcomes: seq<LoadOutcome>, e: ImageHandle) {
    e in st0.images.Values || Decoded(e) in outcomes
  }

  /** Every element `imageCache` holds is one it held before, or one a load decoded. */
  ghost predicate StoresSourced(st0: CacheState, outcomes: seq<LoadOutcome>, st: CacheState) {
    forall v :: v in st.images.Values ==> Sourced(st0, outcomes, v)
  }

  lemma StoreSourced(st0: CacheState, outcomes: seq<LoadOutcome>, st: CacheState, url: Url, o: LoadOutcome)
    requires StoresSourced(st0, outcomes, st) && o.Decoded? && o in outcomes
    ensures StoresSourced(st0, outcomes, Store(st, url, o.image))
  {
    var m := Store(st, url, o.image).images;
    forall v | v in m.Values
      ensures Sourced(st0, outcomes, v)
    {
      var u :| u in m && m[u] == v;
      if u != url {
        assert st.images[u] == v;
      }
    }
  }

  /** Settling a slice yields at most one element per load, each one sourced, and stores only sourced ones. */
  lemma {:induction false} SliceSourced(st0: CacheState, all: seq<LoadOutcome>, st: CacheState,
                                        pending: seq<Pending>, outcomes: seq<LoadOutcome>)
    requires |pending| == |outcomes|
    requires StoresSourced(st0, all, st)
    requires forall k :: 0 <= k < |pending| && pending[k].Hit? ==> Sourced(st0, all, pending[k].image)
    requires forall k :: 0 <= k < |outcomes| ==> outcomes[k] in all
    ensures |SliceLoaded(pending, outcomes)| <= |pending|
    ensures forall e :: e in SliceLoaded(pending, outcomes) ==> Sourced(st0, all, e)
    ensures StoresSourced(st0, all, SliceCache(st, pending, outcomes))
    decreases |pending|
  {
    if pending != [] {
      var st1 := SettledCache(st, pending[0], outcomes[0]);
      if pending[0].InFlight? && outcomes[0].Decoded? {
        StoreSourced(st0, all, st, pending[0].url, outcomes[0]);
      }
      assert forall k :: 0 <= k < |outcomes| - 1 ==> outcomes[1..][k] == outcomes[k + 1];
      SliceSourced(st0, all, st1, pending[1..], outcomes[1..]);
    }
  }

  /** One slice of a batch, checked against stores holding only sourced elements, yields and stores only sourced ones. */
  lemma BatchSliceSourced(st0: CacheState, st: CacheState, urls: seq<Url>, outcomes: seq<LoadOutcome>, i: nat, end: nat)
    requires |urls| == |outcomes| && i <= end <= |urls|
    requires StoresSourced(st0, outcomes, st)
    ensures |SliceLoaded(Begins(st, urls[i..end]), outcomes[i..end])| <= end - i
    ensures forall e :: e in SliceLoaded(Begins(st, urls[i..end]), outcomes[i..end]) ==> Sourced(st0, outcomes, e)
    ensures StoresSourced(st0, outcomes, SliceCache(st, Begins(st, urls[i..end]), outcomes[i..end]))
  {
    var slice := urls[i..end];
    var pending := Begins(st, slice);
    forall k | 0 <= k < |pending| && pending[k].Hit?
      ensures Sourced(st0, outcomes, pending[k].image)
    {
      assert pending[k].image == st.images[slice[k]];
    }
    forall k | 0 <= k < end - i
      ensures outcomes[i..end][k] in outcomes
    {
      assert outcomes[i..end][k] == outcomes[i + k];
    }
    SliceSourced(st0, outcomes, st, pending, outcomes[i..end]);
  }

  lemma {:induction false} BatchSourced(st0: CacheState, st: CacheState, urls: seq<Url>, outcomes: seq<LoadOutcome>,
                                        batchSize: int, i: nat)
    requires |urls| == |outcomes| && (batchSize > 0 || urls == []) && i <= |urls|
    requires StoresSourced(st0, outcomes, st)
    ensures |BatchFrom(st, urls, outcomes, batchSize, i).1| <= |urls| - i
    ensures forall e :: e in BatchFrom(st, urls, outcomes, batchSize, i).1 ==> Sourced(st0, outcomes, e)
    ensures StoresSourced(st0, outcomes, BatchFrom(st, urls, outcomes, batchSize, i).0)
    decreases |urls| - i
  {
    if i < |urls| {
      var end := Min(i + batchSize, |urls|);
      BatchSliceSourced(st0, st, urls, outcomes, i, end);
      if end < |urls| {
        BatchSourced(st0, SliceCache(st, Begins(st, urls[i..end]), outcomes[i..end]), urls, outcomes, batchSize, i + batchSize);
      }
    }
  }

  /**
   * Whatever the URLs (cached, repeated or new): a batch yields at most one element per URL,
   * each either held by `imageCache` before the batch or decoded by one of its loads.
   */
  lemma BatchYield(st: CacheState, urls: seq<Url>, outcomes: seq<LoadOutcome>, batchSize: int)
    requires |urls| == |outcomes| && (batchSize > 0 || urls == [])
    ensures |BatchFrom(st, urls, outcomes, batchSize, 0).1| <= |urls|
    ensures forall e :: e in BatchFrom(st, urls, outcomes, batchSize, 0).1 ==>
      e in st.images.Values || Decoded(e) in outcomes
  {
    BatchSourced(st, st, urls, outcomes, batchSize, 0);
  }

  // ---------------------------------------------------------------------------------------
  // The stores and the operations that change them
  // ---------------------------------------------------------------------------------------

  class ImageStore {
    /** Whether the code runs in a browser (`typeof window !== 'undefined'`). */
    const inBrowser: bool
    /** The module-level `imageCache`. */
    var images: map<Url, ImageHandle>
    /** `window.__PRELOADED_IMAGES`, None while undefined. */
    var preloaded: Option<map<Url, ImageHandle>>

    ghost predicate Valid()
      reads this
    {
      !inBrowser ==> preloaded == None
    }

    function State(): CacheState
      reads this
    {
      CacheState(images, preloaded)
    }

    /** A fresh module instance; a window store left by earlier code may already exist. */
    constructor (inBrowser: bool, windowStore: Option<map<Url, ImageHandle>>)
      requires !inBrowser ==> windowStore == None
      ensures Valid() && this.inBrowser == inBrowser
      ensures State() == CacheState(map[], windowStore)
    {
      this.inBrowser := inBrowser;
      images := map[];
      preloaded := windowStore;
    }

    /** `initImageCache`: in a browser, creates the window store unless one already exists. */
    method InitImageCache()
      requires Valid()
      modifies this
      ensures Valid()
      ensures State() == Initialized(old(State()), inBrowser)
    {
      if inBrowser {
        preloaded := Some(preloaded.GetOr(map[]));
      }
    }

    /** `getImageFromCache`: reads the stores and changes nothing. */
    method GetImageFromCache(url: Url) returns (r: Option<ImageHandle>)
      ensures r == Lookup(State(), url)
      ensures url in images ==> r == Some(images[url])
    {
      if url in images {
        return Some(images[url]);
      }
      if preloaded.Some? && url in preloaded.value {
        return Some(preloaded.value[url]);
      }
      return None;
    }

    /** The synchronous start of `preloadImage`: a hit in `imageCache` makes no request. */
    method StartLoad(url: Url, addTimestamp: bool, now: int) returns (p: Pending)
      ensures p == Begin(State(), url, addTimestamp, now)
    {
      if url in images {
        return Hit(images[url]);
      }
      var finalUrl := if addTimestamp then url + "?t=" + FrameUrls.DecimalString(now) else url;
      return InFlight(url, finalUrl);
    }

    /** The settlement of a started `preloadImage`: `onload` stores the element under the plain URL, `onerror` rejects. */
    method Settle(p: Pending, outcome: LoadOutcome) returns (r: Result<ImageHandle, LoadError>)
      requires Valid()
      modifies this
      ensures Valid()
      ensures p.Hit? ==> r == Ok(p.image) && State() == old(State())
      ensures p.InFlight? && outcome.Decoded? ==> r == Ok(outcome.image) && State() == Store(old(State()), p.url, outcome.image)
      ensures p.InFlight? && outcome.LoadFailed? ==> r == Err(LoadFailure(p.url)) && State() == old(State())
    {
      match p
      case Hit(image) =>
        r := Ok(image);
      case InFlight(url, _) =>
        match outcome
        case Decoded(image) =>
          images := images[url := image];
          if preloaded.Some? {
            preloaded := Some(preloaded.value[url := image]);
          }
          r := Ok(image);
        case LoadFailed =>
          r := Err(LoadFailure(url));
    }

    /**
     * `preloadImage`: a URL already in `imageCache` yields its element and starts no load
     * (`requested` is None); otherwise the request is made, and on success the element is
     * stored under the URL without time stamp, on failure nothing is written.
     */
    method PreloadImage(url: Url, addTimestamp: bool, now: int, outcome: LoadOutcome)
      returns (r: Result<ImageHandle, LoadError>, requested: Option<Url>)
      requires Valid()
      modifies this
      ensures Valid()
      ensures url in old(images) ==> r == Ok(old(images)[url]) && requested == None && State() == old(State())
      ensures url !in old(images) ==> requested == Some(RequestUrl(url, addTimestamp, now))
      ensures url !in old(images) && outcome.Decoded? ==>
        r == Ok(outcome.image) && State() == Store(old(State()), url, outcome.image)
      ensures url !in old(images) && outcome.LoadFailed? ==> r == Err(LoadFailure(url)) && State() == old(State())
    {
      var p := StartLoad(url, addTimestamp, now);
      requested := if p.InFlight? then Some(p.request) else None;
      r := Settle(p, outcome);
    }

    /** Starts the request of every URL of a slice; nothing settles in between, so all see the same stores. */
    method StartAll(slice: seq<Url>) returns (pending: seq<Pending>)
      ensures pending == Begins(State(), slice)
    {
      pending := [];
      var j := 0;
      while j < |slice|
        invariant 0 <= j <= |slice| && |pending| == j
        invariant forall k :: 0 <= k < j ==> pending[k] == Begin(State(), slice[k], false, 0)
      {
        var p := StartLoad(slice[j], false, 0);
        pending := pending + [p];
        j := j + 1;
      }
    }

    /**
     * The settling of the started requests of one slice (here in URL order), each bumping
     * the `completed` counter and reporting progress.
     */
    method SettleAll(pending: seq<Pending>, outcomes: seq<LoadOutcome>, completed: nat, total: nat)
      returns (loaded: seq<ImageHandle>, reports: seq<nat>)
      requires Valid()
      requires |outcomes| == |pending| && completed + |pending| <= total
      modifies this
      ensures Valid()
      ensures State() == SliceCache(old(State()), pending, outcomes)
      ensures loaded == SliceLoaded(pending, outcomes)
      ensures reports == ProgressRun(completed, |pending|)
    {
      loaded, reports := [], [];
      var done := completed;
      var j := 0;
      while j < |pending|
        invariant 0 <= j <= |pending| && done == completed + j
        invariant Valid()
        invariant SliceCache(State(), pending[j..], outcomes[j..]) == SliceCache(old(State()), pending, outcomes)
        invariant loaded + SliceLoaded(pending[j..], outcomes[j..]) == SliceLoaded(pending, outcomes)
        invariant reports == ProgressRun(completed, j)
      {
        ghost var before := State();
        ghost var loadedBefore := loaded;
        var r := Settle(pending[j], outcomes[j]);
        if r.Ok? {
          loaded := loaded + [r.value];
        }
        SliceFromStep(before, pending, outcomes, j);
        assert State() == SettledCache(before, pending[j], outcomes[j]);
        assert loaded == loadedBefore + SettledImage(pending[j], outcomes[j]);
        AppendAssoc(loadedBefore, SettledImage(pending[j], outcomes[j]), SliceLoaded(pending[j + 1..], outcomes[j + 1..]));
        done := done + 1;
        ProgressRunExtend(completed, j);
        reports := reports + [done];
        j := j + 1;
      }
      assert pending[j..] == [] && outcomes[j..] == [];
      assert loaded + [] == loaded;
    }

    /**
     * One slice of `preloadImageBatch`: every request is started against the stores as they
     * are at the slice start, then the requests settle.
     */
    method SettleSlice(slice: seq<Url>, outcomes: seq<LoadOutcome>, completed: nat, total: nat)
      returns (loaded: seq<ImageHandle>, reports: seq<nat>)
      requires Valid()
      requires |outcomes| == |slice| && completed + |slice| <= total
      modifies this
      ensures Valid()
      ensures State() == SliceCache(old(State()), Begins(old(State()), slice), outcomes)
      ensures loaded == SliceLoaded(Begins(old(State()), slice), outcomes)
      ensures reports == ProgressRun(completed, |slice|)
    {
      var pending := StartAll(slice);
      loaded, reports := SettleAll(pending, outcomes, completed, total);
    }

    /** One turn of the loop of `preloadImageBatch`: the slice starting at `i`, as BatchFrom takes it. */
    method BatchSlice(urls: seq<Url>, outcomes: seq<LoadOutcome>, batchSize: int, i: nat)
      returns (loaded: seq<ImageHandle>, reports: seq<nat>)
      requires Valid()
      requires |outcomes| == |urls| && batchSize > 0 && i < |urls|
      modifies this
      ensures Valid()
      ensures BatchFrom(State(), urls, outcomes, batchSize, i + batchSize).0 == BatchFrom(old(State()), urls, outcomes, batchSize, i).0
      ensures loaded + BatchFrom(State(), urls, outcomes, batchSize, i + batchSize).1 == BatchFrom(old(State()), urls, outcomes, batchSize, i).1
      ensures reports == ProgressRun(i, Min(i + batchSize, |urls|) - i)
    {
      var end := Min(i + batchSize, |urls|);
      BatchFromStep(State(), urls, outcomes, batchSize, i, end);
      loaded, reports := SettleSlice(urls[i..end], outcomes[i..end], i, |urls|);
    }

    /**
     * The loop step of `preloadImageBatch` on its running results: the images and reports
     * gathered so far are extended by those of the slice at `i`; what is left to do is then
     * the batch from i + batchSize.
     */
    method BatchTurn(urls: seq<Url>, outcomes: seq<LoadOutcome>, batchSize: int, i: nat,
                     loaded: seq<ImageHandle>, reports: seq<nat>, ghost result: (CacheState, seq<ImageHandle>))
      returns (loaded': seq<ImageHandle>, reports': seq<nat>)
      requires Valid()
      requires |outcomes| == |urls| && batchSize > 0 && i < |urls|
      requires BatchSoFar(State(), urls, outcomes, batchSize, i, loaded, reports, result)
      modifies this
      ensures Valid()
      ensures BatchSoFar(State(), urls, outcomes, batchSize, i + batchSize, loaded', reports', result)
    {
      var sliceLoaded, sliceReports := BatchSlice(urls, outcomes, batchSize, i);
      AppendAssoc(loaded, sliceLoaded, BatchFrom(State(), urls, outcomes, batchSize, i + batchSize).1);
      loaded' := loaded + sliceLoaded;
      ProgressRunAppend(0, i, Min(i + batchSize, |urls|) - i);
      reports' := reports + sliceReports;
    }

    /**
     * `preloadImageBatch`: the URLs in consecutive slices of `batchSize`, a slice starting
     * only once the previous one has settled.  Returns the loaded elements in URL order and
     * the progress reports, one per URL whether it loaded or failed.
     * (With `batchSize <= 0` the source never terminates on a non-empty list.)
     */
    method PreloadImageBatch(urls: seq<Url>, outcomes: seq<LoadOutcome>, batchSize: int)
      returns (loaded: seq<ImageHandle>, reports: seq<nat>)
      requires Valid()
      requires |outcomes| == |urls|
      requires batchSize > 0 || urls == []
      modifies this
      ensures Valid()
      ensures (State(), loaded) == BatchFrom(old(State()), urls, outcomes, batchSize, 0)
      ensures reports == ProgressReports(|urls|)
    {
      ghost var result := BatchFrom(State(), urls, outcomes, batchSize, 0);
      loaded, reports := [], [];
      var i: nat := 0;
      while i < |urls|
        invariant Valid()
        invariant BatchSoFar(State(), urls, outcomes, batchSize, i, loaded, reports, result)
        decreases |urls| - i
      {
        loaded, reports := BatchTurn(urls, outcomes, batchSize, i, loaded, reports, result);
        i := i + batchSize;
      }
      assert BatchFrom(State(), urls, outcomes, batchSize, i) == (State(), []);
      assert loaded + [] == loaded;
      assert Min(i, |urls|) == |urls|;
    }

    /** `clearFromCache`: deletes each URL from `imageCache` and, when it exists, from the window store. */
    method ClearFromCache(urls: seq<Url>)
      requires Valid()
      modifies this
      ensures Valid()
      ensures State() == Evict(old(State()), set u | u in urls)
    {
      ghost var cleared: set<Url> := {};
      assert old(images) - cleared == old(images);
      assert old(preloaded).Some? ==> old(preloaded).value - cleared == old(preloaded).value;
      var i := 0;
      while i < |urls|
        invariant 0 <= i <= |urls|
        invariant Valid()
        invariant forall u :: u in cleared <==> u in urls[..i]
        invariant State() == Evict(old(State()), cleared)
      {
        var url := urls[i];
        assert urls[..i + 1] == urls[..i] + [url];
        assert images - {url} == old(images) - (cleared + {url});
        images := images - {url};
        if preloaded.Some? {
          assert preloaded.value - {url} == old(preloaded).value - (cleared + {url});
          preloaded := Some(preloaded.value - {url});
        }
        cleared := cleared + {url};
        i := i + 1;
      }
      assert urls[..i] == urls;
      assert cleared == set u | u in urls;
    }
  }
}

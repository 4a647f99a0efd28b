# Cleo landing page: a verified model of its loading and interaction core

This project models, in Dafny, the parts of the Cleo landing page (a Next.js site) that hold
state and make decisions:

- **the image optimizer** (`src/utils/imageOptimizer.ts`). It covers frame names and frame
  URLs, the module-level image cache and the window store of preloaded images, and the
  preloading of one image and of a batch, including progress reporting. It also covers cache
  lookup, clearing, and the set-up of the window store.
- **the scroll-scrubbed frame animation** (`src/components/sections/FrameAnimation.tsx`). It
  covers how a scroll position becomes a frame index and how `updateFrame` swaps the two
  stacked images, with its pending fade-in timer.
- **the loading screen** (`src/components/LoadingScreen.tsx`). It covers the one-time load of
  the 192 animation frames in chunks of 32, five at a time, the stage and progress it shows,
  and the call to `onLoadingComplete`.
- **the home page's loading gate** (`src/app/page.tsx`). It covers the timeout, retry,
  "Continue Anyway", offline handling, and the scroll lock kept while loading.
- **the waitlist endpoint** (`src/app/api/waitlist/route.ts`). It covers the ordered decision
  between the statuses 503, 500, 400, 409 and 201.
- **the POV carousel** (`src/components/sections/POVRender.tsx`). It covers the auto-cycle
  tick, the dot click, the delayed restart and the interval bookkeeping.
- **the final call to action** (`src/components/sections/FinalCTA.tsx`). It covers the e-mail
  check and the simulated submission with its two timers.

Code that updates state in place is modelled as classes. These are `ImageStore`,
`FrameAnimator`, `LoadingController`, `HomePage`, `Carousel` and `CtaForm`. Each class has a
`Valid()` invariant that every method keeps, and each method states its new state, usually
through a specification function of the old one. Code made of expressions is modelled as
functions, with lemmas about them.

**Inputs instead of effects.** Image decoding, timers, the clock and the database are not
executed in the model. Instead, each is either an input or an event:

- one `LoadOutcome` per URL says whether an image decodes;
- a timer firing is a method call;
- `Date.now()` is a `now` argument;
- the request body and the insert result are inputs of `Post`.

**Main results.**

- Every frame URL reads back to its frame number, so the 192 URLs are distinct.
- On distinct URLs not yet cached, a batch preload leaves the stores exactly as storing the decoded
  images in order would. It returns the decoded images in order, and it reports the progress
  values 100·k/n strictly increasing to 100. On URLs all cached it returns the cached images
  in order and changes nothing. On any URLs it returns at most one image per URL, each one
  cached before or decoded by the batch.
- A load that does not throw does the following. It sets the stages loading, then
  finalizing. It hands the preloader exactly the chunks of the URL list, and every pause
  falls between two chunks. It shows a non-decreasing progress capped at 99, then 100. The
  shown progress equals the source's formula evaluated in exact arithmetic.
- `onLoadingComplete` is called exactly once per mount.
- Once the home page has left the loading screen it never returns. A timeout event offers a
  retry while fewer than two retries were made, and ends loading once two were made.
- The carousel index stays in [0, 4) and, after k advances, is (i + k) mod 4. At most one
  interval runs at a time.

## Model

| member | source | states |
|---|---|---|
| FrameUrls.Digits | src/utils/imageOptimizer.ts:34 | `toString` of a natural: at least one digit, all digits, no leading zero |
| FrameUrls.DigitsRoundTrip | src/utils/imageOptimizer.ts:34 | reading the digits of n back gives n |
| FrameUrls.PadStart | src/utils/imageOptimizer.ts:34 | `padStart`: length max(\|s\|, width), s at the end, fill characters before it |
| FrameUrls.FormatFrameNumber | src/utils/imageOptimizer.ts:33-35 | a frame name has length max(\|n.toString()\|, 4) |
| FrameUrls.FormatFrameNumberRoundTrip | src/utils/imageOptimizer.ts:33-35 | every frame name, negative numbers included, parses back to its number |
| FrameUrls.FormatFrameNumberIsPad4 | src/utils/imageOptimizer.ts:33-35 | frames 0..9999 get exactly four digits denoting the frame ("0000" for 0) |
| FrameUrls.ParseSkipsPadding | src/utils/imageOptimizer.ts:34 | leading '0' padding does not change the number read back |
| FrameUrls.PaddingDoesNotChangeValue | src/utils/imageOptimizer.ts:34 | a digit string parses to the value of its digits, whatever its padding |
| FrameUrls.FrameUrlRoundTrip | src/utils/imageOptimizer.ts:43 | the frame number is recovered from `/<prefix>/<name>.jpg` |
| FrameUrls.FrameUrlsDiffer | src/utils/imageOptimizer.ts:43 | different frames have different URLs |
| FrameUrls.FrameUrlListDistinct | src/utils/imageOptimizer.ts:40-46 | the generated URLs are pairwise distinct |
| FrameUrls.GenerateFrameUrls | src/utils/imageOptimizer.ts:40-46 | max(totalFrames, 0) URLs, the k-th that of frame startIndex + k, pairwise distinct |
| ImageOptimizer.Lookup | src/utils/imageOptimizer.ts:137-151 | the module cache first, then the window store, else null; found iff in either |
| ImageOptimizer.Store | src/utils/imageOptimizer.ts:69-79 | after an onload the URL finds the image, every other lookup is unchanged, and the window store gets it only if it exists |
| ImageOptimizer.Evict | src/utils/imageOptimizer.ts:156-164 | cleared URLs are found nowhere; every other lookup is unchanged |
| ImageOptimizer.Initialized | src/utils/imageOptimizer.ts:13-28 | in a browser the window store exists afterwards and an existing one is kept; outside one nothing changes |
| ImageOptimizer.StoreIdempotent | src/utils/imageOptimizer.ts:69-79 | storing the same image twice equals storing it once |
| ImageOptimizer.EvictIdempotent | src/utils/imageOptimizer.ts:156-164 | clearing twice equals clearing once |
| ImageOptimizer.ProgressRun | src/utils/imageOptimizer.ts:110-120 | one report per settled load |
| ImageOptimizer.ProgressRunAt | src/utils/imageOptimizer.ts:110-120 | the k-th report of a run starting after `from` completed loads is the count from + k + 1 |
| ImageOptimizer.ProgressRunAppend | src/utils/imageOptimizer.ts:103-129 | progress values of consecutive slices concatenate |
| ImageOptimizer.ProgressReportsShape | src/utils/imageOptimizer.ts:110-120 | n reports, the k-th being the count k + 1; the callback values 100·k/n strictly increase, lie in (0, 100], and the last is exactly 100 |
| ImageOptimizer.ReportedPercents | src/utils/imageOptimizer.ts:112 | for the counts 1..n the callback values strictly increase, lie in (0, 100], the last 100 |
| ImageOptimizer.PercentComplete | src/utils/imageOptimizer.ts:112 | once every load has settled the callback gets exactly 100 |
| ImageOptimizer.PercentStrictlyIncreasing | src/utils/imageOptimizer.ts:112 | more completed loads report more progress |
| ImageOptimizer.PercentBounds | src/utils/imageOptimizer.ts:112 | each report lies in (0, 100] |
| ImageOptimizer.Begin | src/utils/imageOptimizer.ts:51-66 | a cache hit iff the URL is in the module cache (returning it); otherwise a request for the URL, timestamped if asked |
| ImageOptimizer.Begins | src/utils/imageOptimizer.ts:104-108 | every member of a slice checks the cache as it stood at the start of the slice |
| ImageOptimizer.SliceFromStep | src/utils/imageOptimizer.ts:107-127 | settling a slice from position j is settling j, then the rest |
| ImageOptimizer.LoadedImagesCount | src/utils/imageOptimizer.ts:128 | the images returned are the loads minus the failures |
| ImageOptimizer.LoadedImagesAppend | src/utils/imageOptimizer.ts:128 | the images of consecutive slices concatenate in order |
| ImageOptimizer.StoreDecodedAppend | src/utils/imageOptimizer.ts:103-129 | storing two runs of loads is storing their concatenation |
| ImageOptimizer.StoreDecodedKeys | src/utils/imageOptimizer.ts:69-79 | a preload adds only its own URLs and leaves other lookups alone |
| ImageOptimizer.StoreDecodedLookup | src/utils/imageOptimizer.ts:69-84 | over distinct URLs each decoded URL finds its image and each failed one is left as it was |
| ImageOptimizer.FreshSlice | src/utils/imageOptimizer.ts:107-128 | a slice of uncached URLs stores and returns exactly its decoded images, in order |
| ImageOptimizer.BatchFromStep | src/utils/imageOptimizer.ts:103-104 | a batch from position i is a non-empty slice followed by the batch from the slice's end |
| ImageOptimizer.LaterStayUncached | src/utils/imageOptimizer.ts:103-129 | with distinct URLs, a slice does not cache the URLs of later slices |
| ImageOptimizer.FreshBatchFrom | src/utils/imageOptimizer.ts:94-132 | on uncached distinct URLs the batch from i equals storing and returning the decoded images of urls[i..] |
| ImageOptimizer.FreshBatch | src/utils/imageOptimizer.ts:94-132 | on uncached distinct URLs: returns the decoded images in order (n minus failures of them); each decoded URL then finds its image, failed and other URLs are unchanged |
| ImageOptimizer.ImageStore.constructor | src/utils/imageOptimizer.ts:8 | an empty module cache; the window store as found, none outside a browser |
| ImageOptimizer.ImageStore.InitImageCache | src/utils/imageOptimizer.ts:13-28 | the stores become `Initialized` of the old ones |
| ImageOptimizer.ImageStore.GetImageFromCache | src/utils/imageOptimizer.ts:137-151 | returns the `Lookup` of the URL, the module cache taking precedence |
| ImageOptimizer.ImageStore.StartLoad | src/utils/imageOptimizer.ts:51-66 | the synchronous part of `preloadImage`, as `Begin` of the current stores |
| ImageOptimizer.ImageStore.Settle | src/utils/imageOptimizer.ts:53-84 | a hit resolves with the cached image; onload stores and resolves; onerror rejects with "Failed to load image: <url>" and stores nothing |
| ImageOptimizer.ImageStore.PreloadImage | src/utils/imageOptimizer.ts:51-89 | a cached URL resolves at once with no request; otherwise it requests the URL and stores and resolves or rejects as the image loads |
| ImageOptimizer.ImageStore.StartAll | src/utils/imageOptimizer.ts:107-108 | starts every load of a slice against the stores as they were at the start |
| ImageOptimizer.ImageStore.SettleAll | src/utils/imageOptimizer.ts:109-127 | settles the loads in order; stores, images and progress reports as the specification functions say |
| ImageOptimizer.ImageStore.SettleSlice | src/utils/imageOptimizer.ts:104-128 | one slice: stores and images as `SliceCache`/`SliceLoaded`, one report per load |
| ImageOptimizer.ImageStore.BatchSlice | src/utils/imageOptimizer.ts:103-128 | one turn of the slice loop, as the step from `BatchFrom` at i to `BatchFrom` at i + batchSize |
| ImageOptimizer.ImageStore.BatchTurn | src/utils/imageOptimizer.ts:103-129 | one turn of the slice loop keeps `BatchSoFar`: the images and reports gathered, followed by those of the slices left, are the whole result |
| ImageOptimizer.CachedSlice | src/utils/imageOptimizer.ts:104-127 | a slice of cached URLs yields their cached images and stores nothing |
| ImageOptimizer.CachedBatchFrom | src/utils/imageOptimizer.ts:94-132 | on cached URLs the batch from i leaves the stores unchanged and yields the cached images of urls[i..] |
| ImageOptimizer.CachedBatch | src/utils/imageOptimizer.ts:94-132 | on cached URLs, repeats included: the stores are unchanged and the k-th image returned is the one cached for urls[k] |
| ImageOptimizer.StoreSourced | src/utils/imageOptimizer.ts:69-79 | storing a decoded image keeps every cached image one that was cached before or decoded |
| ImageOptimizer.SliceSourced | src/utils/imageOptimizer.ts:104-127 | a slice yields at most one image per URL, each cached before or decoded, and stores only such images |
| ImageOptimizer.BatchSliceSourced | src/utils/imageOptimizer.ts:104-127 | the same for the slice urls[i..end] of a batch |
| ImageOptimizer.BatchSourced | src/utils/imageOptimizer.ts:94-132 | the batch from i yields at most \|urls\| - i images, each cached before or decoded, and stores only such images |
| ImageOptimizer.BatchYield | src/utils/imageOptimizer.ts:94-132 | on any URLs a batch returns at most one image per URL, each cached before the batch or decoded by one of its loads |
| ImageOptimizer.ImageStore.PreloadImageBatch | src/utils/imageOptimizer.ts:94-132 | the stores and images are `BatchFrom` of the inputs; the reports are the completed counts 1..n, so the callback gets 100·k/n |
| ImageOptimizer.ImageStore.ClearFromCache | src/utils/imageOptimizer.ts:156-164 | the stores become `Evict` of the listed URLs |
| FrameAnimation.ScrubIndex | src/components/sections/FrameAnimation.tsx:96-105 | the scrubbed index is always a valid frame index |
| FrameAnimation.ScrubIndexInRange | src/components/sections/FrameAnimation.tsx:96-105 | within [0, 1) the index is the frame whose share of the scroll holds the progress |
| FrameAnimation.ScrubIndexMonotone | src/components/sections/FrameAnimation.tsx:96-105 | more scroll never selects an earlier frame |
| FrameAnimation.ScrubIndexEnds | src/components/sections/FrameAnimation.tsx:96-105 | progress ≤ 0 gives the first frame, progress ≥ 1 the last |
| FrameAnimation.FrameAnimator.AtMostOnePending | src/components/sections/FrameAnimation.tsx:66-87 | at most one fade-in timer is pending |
| FrameAnimation.FrameAnimator.constructor | src/components/sections/FrameAnimation.tsx:24-53 | 192 frame URLs, frame 0 on the current image, nothing rendered yet |
| FrameAnimation.FrameAnimator.UpdateFrame | src/components/sections/FrameAnimation.tsx:62-93 | a repeated index changes nothing; a new one clears the pending fade-in, swaps images when the source differs, and becomes the last index; it leaves the sources alone only on the first call for frame 0 |
| FrameAnimation.FrameAnimator.ScrubFrames | src/components/sections/FrameAnimation.tsx:96-105 | shows the frame `ScrubIndex` selects and records the progress |
| FrameAnimation.FrameAnimator.OnLeave | src/components/sections/FrameAnimation.tsx:121-126 | asks for the last frame, through the repeat check |
| FrameAnimation.FrameAnimator.OnEnterBack | src/components/sections/FrameAnimation.tsx:127-132 | at progress exactly 0 asks for the first frame, otherwise nothing |
| FrameAnimation.FrameAnimator.FadeTimerFires | src/components/sections/FrameAnimation.tsx:80-86 | the current image fades in and the previous one out, nothing else changes |
| FrameAnimation.FrameAnimator.Teardown | src/components/sections/FrameAnimation.tsx:140-145 | clears the pending fade-in |
| LoadingScreen.ChunksPartition | src/components/LoadingScreen.tsx:35-37 | the chunks concatenate to the URL list; each has 1..32 URLs, all but the last exactly 32 |
| LoadingScreen.FloorOfQuotient | src/components/LoadingScreen.tsx:47 | floor of a real quotient of naturals is their integer quotient |
| LoadingScreen.ChunkProgressValue | src/components/LoadingScreen.tsx:38-47 | the source's overall-progress formula, evaluated in exact arithmetic, floored and capped, equals min((i+c)·100 div n, 99) |
| LoadingScreen.ShownProgressMonotone | src/components/LoadingScreen.tsx:47 | shown progress never decreases and stays ≤ 99 |
| LoadingScreen.ShownRunAppend | src/components/LoadingScreen.tsx:36-48 | the progress shown over two consecutive runs of frames is that of one run |
| LoadingScreen.ProgressStepsViews | src/components/LoadingScreen.tsx:44-48 | a chunk's callbacks set only progress values, the shown run |
| LoadingScreen.ChunksTraceViews | src/components/LoadingScreen.tsx:36-56 | the chunk loop requests exactly the chunks and shows one progress value per frame |
| LoadingScreen.ViewsAppend | src/components/LoadingScreen.tsx:25-71 | the progress, chunk and stage views of a run split over concatenation |
| LoadingScreen.LoadTraceStages | src/components/LoadingScreen.tsx:29-59 | a load that does not throw sets the stages loading, then finalizing |
| LoadingScreen.LoadTraceChunks | src/components/LoadingScreen.tsx:36-50 | it hands the preloader exactly the chunks of the list, in order |
| LoadingScreen.LoadTraceProgress | src/components/LoadingScreen.tsx:47-60 | it shows one capped progress per frame, then 100 |
| LoadingScreen.ShownRunMonotone | src/components/LoadingScreen.tsx:47 | the shown progress values never decrease and stay ≤ 99 |
| LoadingScreen.LoadTraceShape | src/components/LoadingScreen.tsx:25-65 | stages loading then finalizing, the chunks, n + 1 progress values non-decreasing, ≤ 99 and then 100 |
| LoadingScreen.PausesBetweenChunks | src/components/LoadingScreen.tsx:53-55 | every pause is directly followed by the next chunk's request; none after the last chunk |
| LoadingScreen.NextChunkStart | src/components/LoadingScreen.tsx:36 | stepping by 32 past a chunk that does not throw lands on the next chunk start, never past the chunk that throws |
| LoadingScreen.LoadingController.constructor | src/components/LoadingScreen.tsx:15-18 | initializing, progress 0, nothing attempted |
| LoadingScreen.LoadingController.Effect | src/components/LoadingScreen.tsx:20-23 | the first run marks the load attempted and schedules it; later runs change nothing |
| LoadingScreen.LoadingController.ShowProgress | src/components/LoadingScreen.tsx:38-48 | appends the shown progress of every frame of the chunk; the last is that of the chunk's end |
| LoadingScreen.LoadingController.LoadChunk | src/components/LoadingScreen.tsx:37-55 | requests the chunk, preloads it five at a time, shows its progress, pauses unless it is the last |
| LoadingScreen.LoadingController.NextChunk | src/components/LoadingScreen.tsx:36-56 | one turn of the chunk loop, as the step from the chunks left at i to those left at i + 32 |
| LoadingScreen.LoadingController.ChunkTurn | src/components/LoadingScreen.tsx:36-56 | one turn of the chunk loop keeps `ChunksSoFar`: the record and stores so far, followed by those of the chunks left, are those of the whole run |
| LoadingScreen.LoadingController.RunChunks | src/components/LoadingScreen.tsx:36-56 | the chunks from 0 in steps of 32, up to the one that throws; the stores are preloaded chunk by chunk |
| LoadingScreen.LoadingController.RunLoad | src/components/LoadingScreen.tsx:29-60 | the run is `LoadTrace`; stage loading, and finalizing with progress 100 unless a chunk throws |
| LoadingScreen.LoadingController.LoadFrames | src/components/LoadingScreen.tsx:25-71 | initialises the stores, runs `LoadTrace` over the 192 generated URLs, then schedules `onLoadingComplete`, or calls it at once when a chunk throws |
| LoadingScreen.LoadingController.CompletionTimerFires | src/components/LoadingScreen.tsx:63-65 | `onLoadingComplete` is called, and for the first time |
| HomePage.Step | src/app/page.tsx:54-146 | timeout: retry offered iff loading with < 2 attempts, loading ends iff loading with ≥ 2; retry: +1 attempt, loading, no overlay; continue and the unlock timer end loading; offline while loading sets the overlay; loading never restarts |
| HomePage.LoadingNeverResumes | src/app/page.tsx:62-154 | once not loading, no sequence of events returns to loading |
| HomePage.AttemptsNeverDecrease | src/app/page.tsx:63 | attempts never decrease and grow by at most one per event |
| HomePage.TimeoutsEndLoading | src/app/page.tsx:77-80 | once two retries were made, a timeout event ends loading |
| HomePage.LoadingNeverResumesAfterTimeout | src/app/page.tsx:74-76 | with fewer than two retries, repeated timeouts only keep the overlay up |
| HomePage.HomePage.ScrollLocked | src/app/page.tsx:25-38 | scrolling is locked exactly while loading, and unlocked after unmount |
| HomePage.HomePage.constructor | src/app/page.tsx:17-22 | loading, no failure, no attempts, scrolling locked |
| HomePage.HomePage.ApplyScrollLock | src/app/page.tsx:25-38 | writes the locked styles while loading, the empty ones otherwise |
| HomePage.HomePage.HandleLoadingComplete | src/app/page.tsx:54-59 | schedules the 500 ms timer |
| HomePage.HomePage.UnlockTimerFires | src/app/page.tsx:56-58 | ends loading and unlocks scrolling |
| HomePage.HomePage.HandleRetry | src/app/page.tsx:62-67 | one more attempt, overlay cleared, loading, clock restarted |
| HomePage.HomePage.ContinueAnyway | src/app/page.tsx:146 | ends loading |
| HomePage.HomePage.LoadTimeout | src/app/page.tsx:73-82 | offers a retry or gives up, as `Step` says |
| HomePage.HomePage.ConnectionChange | src/app/page.tsx:107-111 | offline while loading shows the overlay; nothing else changes |
| HomePage.HomePage.Unmount | src/app/page.tsx:44-50 | every lock style is reset |
| WaitlistRoute.IsSupabaseConfigured | src/app/api/waitlist/route.ts:5-7 | configured iff both environment values are present and non-empty |
| WaitlistRoute.Property | src/app/api/waitlist/route.ts:22 | destructuring finds exactly the own fields of an object body |
| WaitlistRoute.Post | src/app/api/waitlist/route.ts:9-71 | 503 iff not configured; 500 on a body that cannot be read; 400 iff name or email is falsy; insert requested iff all checks pass, with that row; 409 iff the insert fails with 23505; 500 with the message prefix for other errors; 201 iff the insert succeeds |
| WaitlistRoute.PostStatuses | src/app/api/waitlist/route.ts:9-71 | only 201, 400, 409, 500 and 503 are returned |
| WaitlistRoute.UnconfiguredIgnoresRequest | src/app/api/waitlist/route.ts:12-18 | without configuration the body and the database do not matter |
| WaitlistRoute.InsertOutcomeIrrelevantWithoutInsert | src/app/api/waitlist/route.ts:25-30 | when no insert is made, its outcome does not matter |
| WaitlistRoute.SuccessOnlyAfterInsert | src/app/api/waitlist/route.ts:56-63 | success is reported only after an insert that succeeded |
| POVRender.Next | src/components/sections/POVRender.tsx:45 | the next index stays in [0, 4) and wraps after the last image |
| POVRender.Advance | src/components/sections/POVRender.tsx:45 | k advances stay in [0, 4) |
| POVRender.AdvanceIsModular | src/components/sections/POVRender.tsx:45 | k advances from i show image (i + k) mod 4 |
| POVRender.CycleReturns | src/components/sections/POVRender.tsx:7-45 | the cycle has period 4 |
| POVRender.Carousel.AtMostOneInterval | src/components/sections/POVRender.tsx:36-59 | at most one interval runs, the one in `autoCycleRef` |
| POVRender.Carousel.constructor | src/components/sections/POVRender.tsx:31-77 | the first image, not paused, the cycle running |
| POVRender.Carousel.StartAutoCycle | src/components/sections/POVRender.tsx:36-49 | clears the previous interval, then starts exactly one new one |
| POVRender.Carousel.Tick | src/components/sections/POVRender.tsx:41-48 | advances and unpauses iff ≥ 3000 ms since the last interaction; otherwise nothing changes |
| POVRender.Carousel.DotClick | src/components/sections/POVRender.tsx:51-67 | shows the chosen image, records the click, pauses, stops the interval, sets the restart timer |
| POVRender.Carousel.RestartTimerFires | src/components/sections/POVRender.tsx:62-66 | restarts the cycle iff no interaction in the last 3000 ms; fired after unmount, it starts an interval that is never cleared |
| POVRender.Carousel.Unmount | src/components/sections/POVRender.tsx:72-76 | the clean-up stops the current interval; pending restart timers stay set, and one of them can start a new interval that is never cleared |
| FinalCTA.IncludesIffOccurs | src/components/sections/FinalCTA.tsx:15 | `includes` finds a character iff it occurs at some position |
| FinalCTA.AcceptsEmail | src/components/sections/FinalCTA.tsx:15 | accepted addresses are non-empty |
| FinalCTA.AcceptsEmailIffAt | src/components/sections/FinalCTA.tsx:15-21 | exactly the addresses containing '@' are accepted |
| FinalCTA.CtaForm.constructor | src/components/sections/FinalCTA.tsx:7-10 | empty field, no error, the form enabled |
| FinalCTA.CtaForm.Type | src/components/sections/FinalCTA.tsx:127-130 | typing sets the field while it is enabled |
| FinalCTA.CtaForm.Submit | src/components/sections/FinalCTA.tsx:12-22 | an address without '@' only sets "Please enter a valid email address"; any other clears the error and starts submitting; the form is disabled afterwards iff accepted |
| FinalCTA.CtaForm.SubmitTimerFires | src/components/sections/FinalCTA.tsx:24-28 | submitted, field cleared, reset timer set, form disabled |
| FinalCTA.CtaForm.ResetTimerFires | src/components/sections/FinalCTA.tsx:30-32 | no longer submitted; the form is enabled again |

## Left out

- Image decoding and the network are not modelled. Each load's outcome is an input. The attributes set on the image element (`crossOrigin`, `decoding`, `loading`, `fetchPriority`) are not modelled either.
- The batch preloader settles the loads of a slice in slice order. In the browser they settle in completion order, so the model fixes one interleaving of `Promise.all`. What is independent of that order is the count of reports, their values and the final stores on uncached distinct URLs. Cache checks of a slice all happen against the stores as they were when the slice started, as in the source.
- ImageOptimizer.ImageStore.PreloadImageBatch: requires `batchSize > 0` unless the list is empty, because with `batchSize <= 0` the source's loop never ends.
- ImageOptimizer.ImageStore.PreloadImageBatch: its result is `BatchFrom` of the inputs for every list. The exact images returned, in URL order, are proved for two cases: uncached distinct URLs (`FreshBatch`) and all-cached URLs (`CachedBatch`). For a mix, or for an uncached URL repeated within one slice (both copies are requested and both images returned), only `BatchYield` is proved: at most one image per URL, each cached before or decoded.
- The image cache is a plain object in the source, so a lookup of an inherited property name such as `constructor` finds a truthy value there. The model's maps hold only stored keys. Frame URLs start with `/`, so no such name arises for them.
- `estimateCacheMemory` and the `__IMAGE_CACHE_DEBUG` hook set by `initImageCache` are not modelled. They are debug output with floating-point megabyte formatting.
- IEEE floating point is not modelled. Progress uses exact reals, and the two differ on the default load of 192 frames in chunks of 32. At frame 48 the expression of src/components/LoadingScreen.tsx:38-46 is 24.999999999999996 in double arithmetic, so the page shows 24 where the model shows 25. Frames 96 and 144 likewise give 49 and 74 instead of 50 and 75. The double values are still non-decreasing.
- GSAP tweens and ScrollTrigger pinning are reduced to the opacity each tween ends at. Images are not decoded, and `img.src` is the stored string, not the absolute URL the browser returns. The `.png` path in the rendered `<img>` is not modelled.
- FrameAnimation.FrameAnimator.OnLeave: the handler compares against the `currentFrame` of the render that set it up, which is always 0. It therefore always asks `updateFrame` for the last frame, through `updateFrame`'s repeat check.
- The frame animation never reads the image cache: `getImageFromCache` is imported but never called. The loading screen has three stages and loads chunks of 32 URLs; there is no critical-frames-first pass and no per-quarter progress.
- LoadingScreen.LoadingController.LoadFrames: nothing the code calls inside the `try` throws for a failed image. `preloadImageBatch` turns failures into `null`. The `fault` argument stands for an exception escaping the preload of one chunk, which reaches the `catch` branch.
- React scheduling is not modelled: renders, effect re-runs and `setState` batching. Timers are events that the caller delivers in some order. The 100 ms, 500 ms, 50 ms, 1.5 s and 5 s delays appear only as which timers are pending, and the 50 ms pause between chunks is a `Paused` step.
- HomePage.HomePage.LoadTimeout: always enabled, so it over-approximates the source's 60 s timer. The effect that sets that timer depends on `isLoading` only, and a retry keeps `isLoading` true, so the timer is set once per mount and fires at most once. The branch for two or more attempts is reached only when two retries were clicked from the offline overlay before that one timeout. The lemmas about repeated timeout events (`TimeoutsEndLoading`, `LoadingNeverResumesAfterTimeout`) hold for the model's events and so for any run of the source, but runs with more than one timeout do not occur in the source. A retry does not restart the loading screen's load either, because its ref guard has already been set.
- The home page's preload of non-animation assets after loading, and the load-time log, are not modelled. Both are fire-and-forget and change no state.
- `Date.now()` is an argument. The clock is not assumed monotone.
- WaitlistRoute.Post: the insert's `select()` rows are an opaque JSON value. `console.error` logging is not modelled. JSON numbers are exact reals, so a NaN field, which JavaScript treats as falsy, is not represented. `Post` models route.ts as written, assuming the client module it imports has loaded. With the variables missing, src/lib/supabase.ts:16 calls `createClient('', '')` at import time, which the client library may reject before `POST` runs; in that case the 503 branch is never reached.
- The carousel's restart timer is still delivered after unmount, as in the code: nothing clears it. The animation of the images (`AnimatePresence`) is not modelled.
- The presentation components and the other forms (`WaitlistSignup`, `WaitlistForm`) are not part of this model. Neither are the Supabase client, the debug route and the configuration files.

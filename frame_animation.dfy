/**
 * The scroll-scrubbed frame selector of src/components/sections/FrameAnimation.tsx.
 *
 * `FrameAnimator` holds what the mounted effect keeps between scroll events: the frame URLs,
 * the last rendered index, the `src` of the current and the previous image, the opacity each
 * image is being faded to, and the `frameUpdateTimeout` handle.  The browser's queue of
 * timers this component has scheduled and not yet seen fire or cleared is the field
 * `pendingTimers`; a fired timer is delivered by `FadeTimerFires`.  Tweens are not modelled
 * beyond the opacity they end at.
 */
module FrameAnimation {
  import opened Common
  import FrameUrls

  /** `totalFrames`. */
  const TotalFrames: nat := 192
  const Prefix: string := "frame-anim-1"

  /** `scrubFrames`' index: floor(progress * n), clamped into [0, n - 1]. */
  function ScrubIndex(progress: real, n: nat): (k: int)
    requires n >= 1
    ensures 0 <= k < n
  {
    Min(Max((progress * n as real).Floor, 0), n - 1)
  }

  /** Within [0, 1) the scrubbed index is the frame whose share of the scroll range holds the progress. */
  lemma ScrubIndexInRange(progress: real, n: nat)
    requires n >= 1 && 0.0 <= progress < 1.0
    ensures ScrubIndex(progress, n) as real <= progress * n as real < ScrubIndex(progress, n) as real + 1.0
  {
    var x := progress * n as real;
    assert (n as real) - x == (1.0 - progress) * (n as real);
    PositiveProduct(1.0 - progress, n as real);
    assert x.Floor <= n - 1;
  }

  lemma PositiveProduct(a: real, b: real)
    requires a > 0.0 && b > 0.0
    ensures a * b > 0.0
  {
  }

  /** More progress never selects an earlier frame. */
  lemma ScrubIndexMonotone(p: real, q: real, n: nat)
    requires n >= 1 && p <= q
    ensures ScrubIndex(p, n) <= ScrubIndex(q, n)
  {
    assert p * n as real <= q * n as real;
  }

  /** Progress 0 (or less) shows the first frame; progress 1 (or more) the last, since floor(n) is clamped. */
  lemma ScrubIndexEnds(progress: real, n: nat)
    requires n >= 1
    ensures progress <= 0.0 ==> ScrubIndex(progress, n) == 0
    ensures progress >= 1.0 ==> ScrubIndex(progress, n) == n - 1
  {
    if progress >= 1.0 {
      assert progress * n as real >= n as real;
    }
    if progress <= 0.0 {
      assert progress * n as real <= 0.0;
    }
  }

  /** No two frames share a URL. */
  ghost predicate Distinct(urls: seq<string>) {
    forall j, k :: 0 <= j < k < |urls| ==> urls[j] != urls[k]
  }

  class FrameAnimator {
    /** `frameUrlsRef.current`, filled once when the effect first runs. */
    const urls: seq<string>
    /** `lastFrameIndexRef.current`; -1 until the first update. */
    var lastFrameIndex: int
    /** The `currentFrame` state. */
    var currentFrame: int
    /** The `progress` state. */
    var progress: real
    /** `image.src` and `prevImage.src`. */
    var imageSrc: string
    var prevSrc: string
    /** The opacities the current and the previous image are set or tweened to. */
    var imageOpacity: real
    var prevOpacity: real
    /** `frameUpdateTimeout`: the handle of the last scheduled fade-in, None while null. */
    var frameUpdateTimeout: Option<nat>
    /** The fade-in timers scheduled and neither fired nor cleared. */
    var pendingTimers: set<nat>
    /** The handle the next `setTimeout` returns. */
    var nextTimerId: nat
    /** Whether the effect is set up and not yet cleaned up. */
    var mounted: bool

    /** The index of the frame the current image shows. */
    function Displayed(): int
      reads this
    {
      if lastFrameIndex < 0 then 0 else lastFrameIndex
    }

    ghost predicate Valid()
      reads this
    {
      && |urls| == TotalFrames && Distinct(urls)
      && -1 <= lastFrameIndex < |urls|
      && currentFrame == Displayed()
      && imageSrc == urls[Displayed()]
      && (lastFrameIndex == -1 ==> frameUpdateTimeout == None)
      && (frameUpdateTimeout.None? ==> pendingTimers == {})
      && (frameUpdateTimeout.Some? ==>
            pendingTimers <= {frameUpdateTimeout.value} && frameUpdateTimeout.value < nextTimerId)
      && (pendingTimers != {} ==> imageOpacity == 0.0 && prevOpacity == 1.0)
      && (mounted && pendingTimers == {} ==> imageOpacity == 1.0 && prevOpacity == 0.0)
    }

    /** At most one fade-in is ever pending. */
    lemma AtMostOnePending()
      requires Valid()
      ensures |pendingTimers| <= 1
    {
      if frameUpdateTimeout.Some? {
        var h := frameUpdateTimeout.value;
        assert pendingTimers == {} || pendingTimers == {h};
      }
    }

    /**
     * The effect's set-up: the 192 URLs of the animation, the first frame on the current
     * image, the previous image hidden, nothing rendered by `updateFrame` yet.
     */
    constructor ()
      ensures Valid() && mounted
      ensures lastFrameIndex == -1 && currentFrame == 0 && progress == 0.0
      ensures forall k :: 0 <= k < |urls| ==> urls[k] == FrameUrls.FrameUrl(Prefix, k)
      ensures imageSrc == FrameUrls.FrameUrl(Prefix, 0) && prevSrc == ""
      ensures frameUpdateTimeout == None && pendingTimers == {}
    {
      var generated := FrameUrls.GenerateFrameUrls(Prefix, TotalFrames, 0);
      urls := generated;
      lastFrameIndex := -1;
      currentFrame := 0;
      progress := 0.0;
      prevSrc := "";
      imageSrc := generated[0];
      imageOpacity := 1.0;
      prevOpacity := 0.0;
      frameUpdateTimeout := None;
      pendingTimers := {};
      nextTimerId := 1;
      mounted := true;
    }

    /**
     * `updateFrame(k)`: a repeat of the last rendered index does nothing.  A new index
     * clears the pending fade-in; when the current image does not already show frame k,
     * the previous image takes over the old source at full opacity, the current image gets
     * frame k at opacity 0, and a fresh fade-in is scheduled.  Either way frame k becomes
     * the last rendered one.
     */
    method UpdateFrame(k: int)
      requires Valid() && mounted && 0 <= k < |urls|
      modifies this
      ensures Valid() && mounted && progress == old(progress)
      ensures k == old(lastFrameIndex) ==> unchanged(this)
      ensures k != old(lastFrameIndex) ==> lastFrameIndex == k && currentFrame == k && imageSrc == urls[k]
      ensures k != old(lastFrameIndex) && old(imageSrc) != urls[k] ==>
        && prevSrc == old(imageSrc)
        && imageOpacity == 0.0 && prevOpacity == 1.0
        && frameUpdateTimeout == Some(old(nextTimerId))
        && pendingTimers == {old(nextTimerId)}
        && nextTimerId == old(nextTimerId) + 1
      ensures k != old(lastFrameIndex) && old(imageSrc) == urls[k] ==>
        && prevSrc == old(prevSrc)
        && imageOpacity == old(imageOpacity) && prevOpacity == old(prevOpacity)
        && frameUpdateTimeout == old(frameUpdateTimeout) && pendingTimers == {}
        && nextTimerId == old(nextTimerId)
      // the source only stays put on the very first call, when frame 0 is already shown
      ensures k != old(lastFrameIndex) && old(imageSrc) == urls[k] ==> old(lastFrameIndex) == -1 && k == 0
    {
      if k != lastFrameIndex {
        assert imageSrc == urls[k] ==> Displayed() == k;
        if frameUpdateTimeout.Some? {
          pendingTimers := pendingTimers - {frameUpdateTimeout.value};
        }
        var nextFrameUrl := urls[k];
        if imageSrc != nextFrameUrl {
          prevSrc := imageSrc;
          prevOpacity := 1.0;
          imageSrc := nextFrameUrl;
          imageOpacity := 0.0;
          frameUpdateTimeout := Some(nextTimerId);
          pendingTimers := {nextTimerId};
          nextTimerId := nextTimerId + 1;
        }
        lastFrameIndex := k;
        currentFrame := k;
      }
    }

    /** `scrubFrames`: renders the frame the scroll progress selects and records the progress. */
    method ScrubFrames(p: real)
      requires Valid() && mounted
      modifies this
      ensures Valid() && mounted && progress == p
      ensures lastFrameIndex == ScrubIndex(p, |urls|) && imageSrc == urls[ScrubIndex(p, |urls|)]
      ensures ScrubIndex(p, |urls|) == old(lastFrameIndex) ==>
        imageSrc == old(imageSrc) && prevSrc == old(prevSrc) && pendingTimers == old(pendingTimers)
    {
      UpdateFrame(ScrubIndex(p, |urls|));
      progress := p;
    }

    /**
     * `onLeave`: the closure tests the `currentFrame` of the render that set the effect up,
     * which is 0, against the last index, so it always asks for the last frame; the request
     * still goes through `updateFrame`'s repeat check.
     */
    method OnLeave()
      requires Valid() && mounted
      modifies this
      ensures Valid() && mounted && progress == old(progress)
      ensures lastFrameIndex == |urls| - 1 && imageSrc == urls[|urls| - 1]
      ensures old(lastFrameIndex) == |urls| - 1 ==> unchanged(this)
    {
      var capturedFrame := 0;
      if capturedFrame != |urls| - 1 {
        UpdateFrame(|urls| - 1);
      }
    }

    /** `onEnterBack`: at progress exactly 0, asks `updateFrame` for the first frame; otherwise nothing. */
    method OnEnterBack(p: real)
      requires Valid() && mounted
      modifies this
      ensures Valid() && mounted && progress == old(progress)
      ensures p == 0.0 ==> lastFrameIndex == 0 && imageSrc == urls[0]
      ensures p != 0.0 || old(lastFrameIndex) == 0 ==> unchanged(this)
    {
      if p == 0.0 {
        UpdateFrame(0);
      }
    }

    /** A pending fade-in fires: the current image fades in and the previous one out. */
    method FadeTimerFires(id: nat)
      requires Valid() && mounted && id in pendingTimers
      modifies this
      ensures Valid() && mounted
      ensures pendingTimers == {} && imageOpacity == 1.0 && prevOpacity == 0.0
      ensures lastFrameIndex == old(lastFrameIndex) && currentFrame == old(currentFrame)
      ensures imageSrc == old(imageSrc) && prevSrc == old(prevSrc) && progress == old(progress)
      ensures frameUpdateTimeout == old(frameUpdateTimeout) && nextTimerId == old(nextTimerId)
    {
      pendingTimers := pendingTimers - {id};
      imageOpacity := 1.0;
      prevOpacity := 0.0;
    }

    /** The effect's clean-up: kills the scroll trigger and clears the pending fade-in, if any. */
    method Teardown()
      requires Valid() && mounted
      modifies this
      ensures Valid() && !mounted && pendingTimers == {}
      ensures lastFrameIndex == old(lastFrameIndex) && imageSrc == old(imageSrc)
      ensures prevSrc == old(prevSrc) && frameUpdateTimeout == old(frameUpdateTimeout)
    {
      if frameUpdateTimeout.Some? {
        pendingTimers := pendingTimers - {frameUpdateTimeout.value};
      }
      mounted := false;
    }
  }
}

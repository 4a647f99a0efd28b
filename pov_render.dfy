/**
 * The auto-cycling POV carousel (src/components/sections/POVRender.tsx).
 *
 * Four images; an interval advances to the next one every 5 s unless the user clicked a dot
 * less than 3 s before.  A click shows the chosen image, pauses, stops the interval and sets
 * a 3 s timer that restarts the cycle if no newer click came in the meantime.  The browser's
 * timers are fields: the intervals still running and the restart timers not yet fired.  The
 * time `Date.now()` returns is the `now` argument of each event.
 */
module POVRender {
  import opened Common

  /** `images.length`. */
  const ImageCount: nat := 4
  /** The quiet time after a click before the carousel moves on, in ms. */
  const IdleDelay: int := 3000

  /** The image after i, wrapping around. */
  function Next(i: int): (j: int)
    requires 0 <= i < ImageCount
    ensures 0 <= j < ImageCount
    ensures j == i + 1 || (i == ImageCount - 1 && j == 0)
  {
    (i + 1) % ImageCount
  }

  /** The image shown after k advances from i. */
  function Advance(i: int, k: nat): (j: int)
    requires 0 <= i < ImageCount
    ensures 0 <= j < ImageCount
  {
    if k == 0 then i else Next(Advance(i, k - 1))
  }

  /** k advances from i show image (i + k) mod 4. */
  lemma {:induction false} AdvanceIsModular(i: int, k: nat)
    requires 0 <= i < ImageCount
    ensures Advance(i, k) == (i + k) % ImageCount
  {
    if k > 0 {
      AdvanceIsModular(i, k - 1);
    }
  }

  /** The cycle has period four: every image comes back after four advances. */
  lemma CycleReturns(i: int, k: nat)
    requires 0 <= i < ImageCount
    ensures Advance(i, k + ImageCount) == Advance(i, k)
  {
    AdvanceIsModular(i, k);
    AdvanceIsModular(i, k + ImageCount);
  }

  class Carousel {
    /** The `currentIndex` state. */
    var currentIndex: int
    /** `lastInteractionRef.current`. */
    var lastInteraction: int
    /** `isPausedRef.current`. */
    var isPaused: bool
    /** `autoCycleRef.current`: the last interval started, None while null. */
    var autoCycle: Option<nat>
    /** The intervals started and not cleared. */
    var running: set<nat>
    /** The handle the next `setInterval` returns. */
    var nextHandle: nat
    /** The 3 s restart timers not yet fired, by the click time they were set at. */
    var restarts: multiset<int>
    /** Whether the section is mounted; the restart timers do not look at it. */
    var mounted: bool

    ghost predicate Valid()
      reads this
    {
      && 0 <= currentIndex < ImageCount
      && (autoCycle.None? ==> running == {})
      && (autoCycle.Some? ==> running <= {autoCycle.value} && autoCycle.value < nextHandle)
    }

    /** At most one interval is ever running. */
    lemma AtMostOneInterval()
      requires Valid()
      ensures |running| <= 1
      ensures running != {} ==> running == {autoCycle.value}
    {
      if autoCycle.Some? {
        assert running == {} || running == {autoCycle.value};
      }
    }

    /** An interval is running although the section is unmounted: nothing will ever clear it. */
    ghost predicate Leaking()
      reads this
    {
      !mounted && running != {}
    }

    /** Mount: the first image, the interaction clock at mount time, and the cycle started. */
    constructor (now: int)
      ensures Valid()
      ensures currentIndex == 0 && lastInteraction == now && !isPaused
      ensures autoCycle.Some? && running == {autoCycle.value} && restarts == multiset{} && mounted
    {
      currentIndex := 0;
      lastInteraction := now;
      isPaused := false;
      autoCycle := Some(1);
      running := {1};
      nextHandle := 2;
      restarts := multiset{};
      mounted := true;
    }

    /** `startAutoCycle`: clears the current interval, if any, and starts a fresh one. */
    method StartAutoCycle()
      requires Valid()
      modifies this
      ensures Valid()
      ensures autoCycle == Some(old(nextHandle)) && running == {old(nextHandle)}
      ensures old(autoCycle).Some? ==> old(autoCycle).value !in running
      ensures currentIndex == old(currentIndex) && lastInteraction == old(lastInteraction)
      ensures isPaused == old(isPaused) && restarts == old(restarts) && mounted == old(mounted)
    {
      if autoCycle.Some? {
        running := running - {autoCycle.value};
      }
      autoCycle := Some(nextHandle);
      running := {nextHandle};
      nextHandle := nextHandle + 1;
    }

    /**
     * A running interval fires: it moves to the next image and clears the pause exactly when
     * at least 3 s passed since the last interaction; otherwise nothing changes.
     */
    method Tick(handle: nat, now: int)
      requires Valid() && handle in running
      modifies this
      ensures Valid()
      ensures now - old(lastInteraction) >= IdleDelay ==> currentIndex == Next(old(currentIndex)) && !isPaused
      ensures now - old(lastInteraction) < IdleDelay ==> unchanged(this)
      ensures lastInteraction == old(lastInteraction) && autoCycle == old(autoCycle) && running == old(running)
      ensures restarts == old(restarts) && nextHandle == old(nextHandle) && mounted == old(mounted)
    {
      if now - lastInteraction >= IdleDelay {
        currentIndex := (currentIndex + 1) % ImageCount;
        isPaused := false;
      }
    }

    /**
     * `handleDotClick(index)`: shows the chosen image, records the click, pauses, stops the
     * interval and sets the 3 s restart timer.
     */
    method DotClick(index: int, now: int)
      requires Valid() && 0 <= index < ImageCount
      modifies this
      ensures Valid()
      ensures currentIndex == index && lastInteraction == now && isPaused
      ensures running == {} && autoCycle == old(autoCycle) && nextHandle == old(nextHandle)
      ensures restarts == old(restarts) + multiset{now} && mounted == old(mounted)
    {
      currentIndex := index;
      lastInteraction := now;
      isPaused := true;
      if autoCycle.Some? {
        running := running - {autoCycle.value};
      }
      restarts := restarts + multiset{now};
    }

    /**
     * The restart timer of the click at `clickedAt` fires: the cycle starts again exactly
     * when no interaction is recorded in the last 3 s, that is, when no newer click came.
     * It fires after an unmount too, and then starts an interval nothing clears.
     */
    method RestartTimerFires(clickedAt: int, now: int)
      requires Valid() && clickedAt in restarts
      modifies this
      ensures Valid()
      ensures restarts == old(restarts) - multiset{clickedAt} && mounted == old(mounted)
      ensures currentIndex == old(currentIndex) && lastInteraction == old(lastInteraction) && isPaused == old(isPaused)
      ensures now - old(lastInteraction) >= IdleDelay ==> autoCycle == Some(old(nextHandle)) && running == {old(nextHandle)}
      ensures now - old(lastInteraction) < IdleDelay ==>
        autoCycle == old(autoCycle) && running == old(running) && nextHandle == old(nextHandle)
      ensures !old(mounted) && now - old(lastInteraction) >= IdleDelay ==> Leaking()
    {
      restarts := restarts - multiset{clickedAt};
      if now - lastInteraction >= IdleDelay {
        StartAutoCycle();
      }
    }

    /**
     * Unmount: the effect's clean-up clears the current interval, but the pending restart
     * timers stay set.
     */
    method Unmount()
      requires Valid()
      modifies this
      ensures Valid() && running == {} && !mounted && !Leaking()
      ensures currentIndex == old(currentIndex) && autoCycle == old(autoCycle) && restarts == old(restarts)
    {
      mounted := false;
      if autoCycle.Some? {
        running := running - {autoCycle.value};
      }
    }
  }
}

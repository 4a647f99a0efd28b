/**
 * The loading gate of the home page (src/app/page.tsx).
 *
 * The page shows the loading screen while `isLoading` holds, and over it a failure overlay
 * with "Retry Loading" and "Continue Anyway" while `failedLoading` also holds.  The state
 * the handlers update is `PageState`; `Step` is what one event does to it, and `HomePage`
 * is the mounted component, whose handlers update that state in place and keep the body
 * styles of the scroll lock in step with `isLoading`.  Timers are events: the 500 ms timer
 * of `handleLoadingComplete` fires as `UnlockTimerFires`, the 60 s loading timeout as
 * `LoadTimeout`.
 */
module HomePage {

  /** The inline styles the scroll lock writes on `document.body` and `document.documentElement`. */
  datatype BodyStyle = BodyStyle(bodyOverflow: string, htmlOverflow: string, position: string, width: string, height: string)

  /** Scrolling locked: both elements' overflow hidden, the body fixed over the whole viewport. */
  const LockedStyle := BodyStyle("hidden", "hidden", "fixed", "100%", "100%")
  /** Every style the lock writes reset to the empty string. */
  const UnlockedStyle := BodyStyle("", "", "", "", "")

  /** The timeout lets the user retry while fewer than this many retries were made. */
  const MaxAttempts: nat := 2

  /** The state the handlers read and write; `unlockTimers` counts the 500 ms timers not yet fired. */
  datatype PageState = PageState(isLoading: bool, failedLoading: bool, attempts: nat, unlockTimers: nat)

  /** What can happen to the page. */
  datatype PageEvent =
    | LoadingComplete          // the loading screen calls `onLoadingComplete`
    | UnlockTimerFires         // the 500 ms timer of `handleLoadingComplete` fires
    | Retry                    // "Retry Loading" is clicked
    | ContinueAnyway           // "Continue Anyway" is clicked
    | LoadTimeout              // the 60 s loading timeout fires
    | ConnectionChange(online: bool) // the browser reports `online` or `offline`

  const Initial := PageState(true, false, 0, 0)

  /** The failure overlay, with its two buttons, is on screen. */
  predicate OverlayShown(s: PageState) {
    s.isLoading && s.failedLoading
  }

  /**
   * Whether the event can happen in state s: the buttons exist only on the overlay, the
   * loading screen that reports completion only while loading, and a timer fires only if
   * one is pending.
   */
  predicate Enabled(s: PageState, e: PageEvent) {
    match e
    case Retry => OverlayShown(s)
    case ContinueAnyway => OverlayShown(s)
    case LoadingComplete => s.isLoading
    case UnlockTimerFires => s.unlockTimers > 0
    case LoadTimeout => true
    case ConnectionChange(_) => true
  }

  /** What one event does to the page; an event that cannot happen changes nothing. */
  function Step(s: PageState, e: PageEvent): (t: PageState)
    // loading only ever starts again through Retry, and only from the overlay while loading
    ensures !s.isLoading ==> !t.isLoading
    ensures t.attempts == s.attempts + (if e == Retry && Enabled(s, e) then 1 else 0)
    ensures e == LoadTimeout ==>
      && (t.isLoading <==> s.isLoading && s.attempts < MaxAttempts)
      && (t.failedLoading <==> s.failedLoading || (s.isLoading && s.attempts < MaxAttempts))
    ensures e == Retry && Enabled(s, e) ==> t.isLoading && !t.failedLoading
    ensures (e == ContinueAnyway || e == UnlockTimerFires) && Enabled(s, e) ==> !t.isLoading
    ensures e.ConnectionChange? ==>
      t.isLoading == s.isLoading && (t.failedLoading <==> s.failedLoading || (!e.online && s.isLoading))
    ensures e == LoadingComplete && Enabled(s, e) ==> t.unlockTimers == s.unlockTimers + 1 && t.isLoading
  {
    if !Enabled(s, e) then s
    else match e
      case LoadingComplete => s.(unlockTimers := s.unlockTimers + 1)
      case UnlockTimerFires => s.(unlockTimers := s.unlockTimers - 1, isLoading := false)
      case Retry => s.(attempts := s.attempts + 1, failedLoading := false, isLoading := true)
      case ContinueAnyway => s.(isLoading := false)
      case LoadTimeout =>
        if s.isLoading && s.attempts < MaxAttempts then s.(failedLoading := true)
        else if s.isLoading then s.(isLoading := false)
        else s
      case ConnectionChange(online) =>
        if !online && s.isLoading then s.(failedLoading := true) else s
  }

  /** The page after the events, in order. */
  function Run(s: PageState, events: seq<PageEvent>): PageState
    decreases |events|
  {
    if events == [] then s else Run(Step(s, events[0]), events[1..])
  }

  /** Once the page has left the loading screen, no sequence of events brings it back. */
  lemma {:induction false} LoadingNeverResumes(s: PageState, events: seq<PageEvent>)
    requires !s.isLoading
    ensures !Run(s, events).isLoading
    decreases |events|
  {
    if events != [] {
      LoadingNeverResumes(Step(s, events[0]), events[1..]);
    }
  }

  /** The number of attempts never decreases, and grows by at most one per event. */
  lemma {:induction false} AttemptsNeverDecrease(s: PageState, events: seq<PageEvent>)
    ensures s.attempts <= Run(s, events).attempts <= s.attempts + |events|
    decreases |events|
  {
    if events != [] {
      AttemptsNeverDecrease(Step(s, events[0]), events[1..]);
    }
  }

  /**
   * After `MaxAttempts` retries the next timeout gives up waiting: a run of timeouts ends
   * the loading, whatever the failure flag.
   */
  lemma TimeoutsEndLoading(s: PageState, k: nat)
    requires s.attempts >= MaxAttempts && k >= 1
    ensures !Run(s, Timeouts(k)).isLoading
  {
    assert Timeouts(k)[1..] == Timeouts(k - 1);
    LoadingNeverResumes(Step(s, LoadTimeout), Timeouts(k - 1));
  }

  /** k timeouts in a row. */
  function Timeouts(k: nat): (r: seq<PageEvent>)
    ensures |r| == k
    ensures forall i :: 0 <= i < k ==> r[i] == LoadTimeout
  {
    seq(k, _ => LoadTimeout)
  }

  /**
   * With fewer than `MaxAttempts` retries a timeout only offers a retry: once the overlay is
   * up, further timeouts change nothing, and the page stays on the loading screen.
   */
  lemma {:induction false} LoadingNeverResumesAfterTimeout(s: PageState, k: nat)
    requires s.isLoading && s.failedLoading && s.attempts < MaxAttempts
    ensures Run(s, Timeouts(k)) == s
    decreases k
  {
    if k > 0 {
      assert Step(s, LoadTimeout) == s;
      assert Timeouts(k)[1..] == Timeouts(k - 1);
      LoadingNeverResumesAfterTimeout(s, k - 1);
    }
  }

  /** The mounted home page. */
  class HomePage {
    var isLoading: bool
    var failedLoading: bool
    /** `loadingAttempts.current`. */
    var attempts: nat
    /** The 500 ms timers scheduled by `handleLoadingComplete` and not yet fired. */
    var unlockTimers: nat
    /** `loadStartTime.current`. */
    var loadStartTime: int
    /** The scroll-lock styles currently on the document. */
    var style: BodyStyle
    /** Whether the component is mounted (its effects set up and not cleaned up). */
    var mounted: bool

    function State(): PageState
      reads this
    {
      PageState(isLoading, failedLoading, attempts, unlockTimers)
    }

    /** The scroll-lock effect has run for the current `isLoading`; its clean-up unlocks on unmount. */
    ghost predicate Valid()
      reads this
    {
      style == (if mounted && isLoading then LockedStyle else UnlockedStyle)
    }

    /** Whether scrolling is locked: it is exactly while the page is loading. */
    function ScrollLocked(): (locked: bool)
      reads this
      requires Valid()
      ensures mounted ==> (locked <==> isLoading)
      ensures !mounted ==> !locked
    {
      style.position == "fixed"
    }

    /** First render: loading, no failure, no attempts, scrolling locked. */
    constructor (now: int)
      ensures Valid() && mounted && State() == Initial && loadStartTime == now
    {
      isLoading := true;
      failedLoading := false;
      attempts := 0;
      unlockTimers := 0;
      loadStartTime := now;
      mounted := true;
      style := LockedStyle;
    }

    /** The scroll-lock effect, run after a render that changed `isLoading`. */
    method ApplyScrollLock()
      requires mounted
      modifies this
      ensures Valid() && State() == old(State()) && mounted
      ensures loadStartTime == old(loadStartTime)
    {
      if isLoading {
        style := LockedStyle;
      } else {
        style := UnlockedStyle;
      }
    }

    /** `handleLoadingComplete`: schedules the 500 ms timer that ends loading. */
    method HandleLoadingComplete()
      requires Valid() && mounted && Enabled(State(), PageEvent.LoadingComplete)
      modifies this
      ensures Valid() && mounted && State() == Step(old(State()), PageEvent.LoadingComplete)
      ensures loadStartTime == old(loadStartTime)
    {
      unlockTimers := unlockTimers + 1;
    }

    /** The 500 ms timer fires: `setIsLoading(false)`. */
    method UnlockTimerFires()
      requires Valid() && mounted && Enabled(State(), PageEvent.UnlockTimerFires)
      modifies this
      ensures Valid() && mounted && State() == Step(old(State()), PageEvent.UnlockTimerFires)
      ensures loadStartTime == old(loadStartTime)
    {
      unlockTimers := unlockTimers - 1;
      isLoading := false;
      ApplyScrollLock();
    }

    /** `handleRetry`: one more attempt, the overlay gone, loading again, the clock restarted. */
    method HandleRetry(now: int)
      requires Valid() && mounted && Enabled(State(), PageEvent.Retry)
      modifies this
      ensures Valid() && mounted && State() == Step(old(State()), PageEvent.Retry)
      ensures loadStartTime == now
    {
      attempts := attempts + 1;
      failedLoading := false;
      isLoading := true;
      loadStartTime := now;
      ApplyScrollLock();
    }

    /** "Continue Anyway": leaves the loading screen. */
    method ContinueAnyway()
      requires Valid() && mounted && Enabled(State(), PageEvent.ContinueAnyway)
      modifies this
      ensures Valid() && mounted && State() == Step(old(State()), PageEvent.ContinueAnyway)
      ensures loadStartTime == old(loadStartTime)
    {
      isLoading := false;
      ApplyScrollLock();
    }

    /**
     * The 60 s timeout fires: while loading, it offers a retry if fewer than two were made
     * and otherwise gives up and shows the page.
     */
    method LoadTimeout()
      requires Valid() && mounted
      modifies this
      ensures Valid() && mounted && State() == Step(old(State()), PageEvent.LoadTimeout)
      ensures loadStartTime == old(loadStartTime)
    {
      if isLoading && attempts < MaxAttempts {
        failedLoading := true;
      } else if isLoading {
        isLoading := false;
      }
      ApplyScrollLock();
    }

    /** `handleConnectionChange`: going offline while loading shows the failure overlay. */
    method ConnectionChange(online: bool)
      requires Valid() && mounted
      modifies this
      ensures Valid() && mounted && State() == Step(old(State()), PageEvent.ConnectionChange(online))
      ensures loadStartTime == old(loadStartTime)
    {
      if !online && isLoading {
        failedLoading := true;
      }
    }

    /** Unmount: the scroll-lock effect's clean-up resets every style it wrote. */
    method Unmount()
      requires Valid() && mounted
      modifies this
      ensures Valid() && !mounted && State() == old(State()) && style == UnlockedStyle
    {
      mounted := false;
      style := UnlockedStyle;
    }
  }
}

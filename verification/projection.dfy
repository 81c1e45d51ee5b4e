/**
 * The projector screen of the briefing scene: a slideshow that advances on a
 * repeating timer and on arrow clicks, and a screen that a click raises (to
 * reveal a shower behind it) and lowers again.
 *
 * Animations, timers and the sound bus are outside the widget. A screen tween
 * is represented by its later completion event, the water tween by a flag, each
 * timer by the handle the widget keeps and the number of timers of that kind
 * still live, and the sound bus by a log of the identifiers sent to it.
 */
module Briefing {
  import opened Constants
  import opened Slides

  datatype Option<T> = None | Some(value: T)

  /** The callback that the one-shot `slidingTimer_` handle will run, if any. */
  datatype SlidingCallback = NoCallback | AddShowering | StopWaterAndRemoveShowering

  const SOUND_SCREEN_UP: string := "briefing_screen_up"
  const SOUND_SCREEN_DOWN: string := "briefing_screen_down"
  const SOUND_CHANGE_SLIDE: string := "briefing_change_slide"

  class Projection {
    /** Index of the slide in view. */
    var currentSlide: nat
    /** Index of the slide last rendered; `None` before the first render. */
    var previousSlide: Option<nat>
    /** True while the screen is raised (or on its way up). */
    var isToggled: bool
    /** Re-entrancy guard: true from an accepted screen click until its tween completes. */
    var isAnimating: bool
    /** True when the `slideshowTimer_` handle refers to a running interval. */
    var cycleActive: bool
    /** Number of slideshow intervals this screen has running. */
    var liveIntervals: nat
    /** What the `slidingTimer_` handle will run when it fires. */
    var slidingTimer: SlidingCallback
    /** Number of one-shot timers this screen has pending. */
    var liveTimeouts: nat
    /** True while the water tween runs. */
    var waterRunning: bool
    /** True while the scene carries the `is-showering` class. */
    var showering: bool
    /** True while the click listeners are bound. */
    var listening: bool
    /** Sound-trigger identifiers sent to the sound bus, oldest first. */
    var sounds: seq<string>
    /** The last `translateX` value written to the slide strip; `None` before the first. */
    ghost var translateX: Option<int>

    /** The slide in view is on the strip. */
    ghost predicate SlideInRange()
      reads this
    {
      currentSlide <= LAST_SLIDE_INDEX
    }

    /**
     * The slide in view is the one last rendered, except before the first
     * render, and the strip is translated to show it.
     */
    ghost predicate Rendered()
      reads this
    {
      && (previousSlide == Some(currentSlide) || (previousSlide == None && currentSlide == 0))
      && translateX == (if previousSlide == None then None else Some(SlideOffset(currentSlide)))
    }

    /** At most one slideshow interval runs, and it is the one the handle refers to. */
    ghost predicate OneInterval()
      reads this
    {
      liveIntervals == if cycleActive then 1 else 0
    }

    /** At most one one-shot timer is pending, and it is the one the handle refers to. */
    ghost predicate OneTimeout()
      reads this
    {
      liveTimeouts == if slidingTimer == NoCallback then 0 else 1
    }

    /**
     * The pending callback belongs to the latest transition, and the shower
     * follows the screen: once raised and its callback has run, the scene is
     * showering; once lowered and its callback has run, water and shower are off.
     */
    ghost predicate ShowerFollowsScreen()
      reads this
    {
      && (slidingTimer == AddShowering ==> isToggled)
      && (slidingTimer == StopWaterAndRemoveShowering ==> !isToggled)
      && (isToggled && slidingTimer == NoCallback ==> showering)
      && (!isToggled && slidingTimer == NoCallback ==> !showering && !waterRunning)
    }

    /** The object invariant, kept by every event. */
    ghost predicate Valid()
      reads this
    {
      SlideInRange() && Rendered() && OneInterval() && OneTimeout() && ShowerFollowsScreen()
    }

    /** While the listeners are bound, the slideshow cycles exactly when the screen is down. */
    ghost predicate CycleTracksToggle()
      reads this
    {
      listening ==> (cycleActive <==> !isToggled)
    }

    /** A new screen: first slide, nothing rendered, screen down, no timers, not listening. */
    constructor ()
      ensures Valid() && CycleTracksToggle()
      ensures currentSlide == 0 && previousSlide == None && translateX == None
      ensures !isToggled && !isAnimating && !listening
      ensures !cycleActive && liveIntervals == 0
      ensures slidingTimer == NoCallback && liveTimeouts == 0
      ensures !waterRunning && !showering && sounds == []
    {
      currentSlide := 0;
      previousSlide := None;
      isToggled := false;
      isAnimating := false;
      cycleActive := false;
      liveIntervals := 0;
      slidingTimer := NoCallback;
      liveTimeouts := 0;
      waterRunning := false;
      showering := false;
      listening := false;
      sounds := [];
      translateX := None;
    }

    /** Binds the listeners and starts the slideshow. */
    method Init()
      requires Valid()
      modifies this`listening, this`cycleActive, this`liveIntervals
      ensures Valid()
      ensures listening && cycleActive && liveIntervals == 1
      ensures CycleTracksToggle() <==> !isToggled
    {
      listening := true;
      StartCycle();
    }

    /** Unbinds the listeners, stops the slideshow and the water; needs no earlier `Init`. */
    method Destroy()
      requires Valid()
      modifies this`listening, this`cycleActive, this`liveIntervals, this`waterRunning
      ensures Valid() && CycleTracksToggle()
      ensures !listening && !cycleActive && liveIntervals == 0 && !waterRunning
    {
      listening := false;
      StopCycle();
      StopAnimatingWater();
    }

    /**
     * A click on the screen. Ignored while a screen tween is in flight;
     * otherwise it cancels the pending one-shot callback and raises or lowers
     * the screen, scheduling the matching shower callback.
     */
    method OnContextClick()
      requires Valid()
      modifies this`isAnimating, this`isToggled, this`slidingTimer, this`liveTimeouts
      modifies this`cycleActive, this`liveIntervals, this`waterRunning, this`sounds
      ensures Valid()
      ensures old(CycleTracksToggle()) ==> CycleTracksToggle()
      ensures old(isAnimating) ==> unchanged(this)
      ensures !old(isAnimating) ==> isAnimating && isToggled == !old(isToggled)
      // raising: water on, slideshow stopped, shower scheduled
      ensures !old(isAnimating) && isToggled ==>
        && sounds == old(sounds) + [SOUND_SCREEN_UP]
        && waterRunning && !cycleActive && liveIntervals == 0
        && slidingTimer == AddShowering && liveTimeouts == 1
      // lowering: slideshow restarted, water and shower stopped later
      ensures !old(isAnimating) && !isToggled ==>
        && sounds == old(sounds) + [SOUND_SCREEN_DOWN]
        && waterRunning == old(waterRunning) && cycleActive && liveIntervals == 1
        && slidingTimer == StopWaterAndRemoveShowering && liveTimeouts == 1
    {
      if isAnimating {
        return;
      }
      isAnimating := true;

      // cancel the pending one-shot callback
      if slidingTimer != NoCallback {
        liveTimeouts := liveTimeouts - 1;
        slidingTimer := NoCallback;
      }

      if isToggled {
        isToggled := false;
        SlideScreenDown();
        StartCycle();
        liveTimeouts := liveTimeouts + 1;
        slidingTimer := StopWaterAndRemoveShowering;
      } else {
        isToggled := true;
        SlideScreenUp();
        StartAnimatingWater();
        StopCycle();
        liveTimeouts := liveTimeouts + 1;
        slidingTimer := AddShowering;
      }
    }

    /** The completion of either screen tween: the only event that releases the guard. */
    method OnScreenTweenComplete()
      requires Valid()
      modifies this`isAnimating
      ensures Valid() && CycleTracksToggle() == old(CycleTracksToggle())
      ensures !isAnimating
    {
      isAnimating := false;
    }

    /** The one-shot timer fires and runs the callback its handle refers to. */
    method OnSlidingTimerFire()
      requires Valid()
      modifies this`slidingTimer, this`liveTimeouts, this`waterRunning, this`showering
      ensures Valid() && CycleTracksToggle() == old(CycleTracksToggle())
      ensures slidingTimer == NoCallback && liveTimeouts == 0
      ensures old(slidingTimer) == NoCallback ==> unchanged(this)
      ensures old(slidingTimer) == AddShowering ==> showering && waterRunning == old(waterRunning)
      ensures old(slidingTimer) == StopWaterAndRemoveShowering ==> !showering && !waterRunning
    {
      match slidingTimer {
        case NoCallback =>
        case AddShowering =>
          showering := true;
        case StopWaterAndRemoveShowering =>
          StopAnimatingWater();
          showering := false;
      }
      if slidingTimer != NoCallback {
        liveTimeouts := liveTimeouts - 1;
        slidingTimer := NoCallback;
      }
    }

    /** Starts the screen's upward tween; its completion arrives later as `OnScreenTweenComplete`. */
    method SlideScreenUp()
      modifies this`sounds
      ensures sounds == old(sounds) + [SOUND_SCREEN_UP]
    {
      sounds := sounds + [SOUND_SCREEN_UP];
    }

    /** Starts the screen's downward tween; its completion arrives later as `OnScreenTweenComplete`. */
    method SlideScreenDown()
      modifies this`sounds
      ensures sounds == old(sounds) + [SOUND_SCREEN_DOWN]
    {
      sounds := sounds + [SOUND_SCREEN_DOWN];
    }

    /** Starts the endlessly repeating water tween. */
    method StartAnimatingWater()
      modifies this`waterRunning
      ensures waterRunning
    {
      waterRunning := true;
    }

    /** Kills the water tween, if any. */
    method StopAnimatingWater()
      modifies this`waterRunning
      ensures !waterRunning
    {
      waterRunning := false;
    }

    /** Renders the slide in view: plays the slide-change sound and translates the strip. */
    method ChangeSlide()
      modifies this`sounds, this`translateX
      ensures sounds == old(sounds) + [SOUND_CHANGE_SLIDE]
      ensures translateX == Some(SlideOffset(currentSlide))
    {
      sounds := sounds + [SOUND_CHANGE_SLIDE];
      translateX := Some(SlideOffset(currentSlide));
    }

    /**
     * A click on the left arrow: unless the screen is raised, moves back one
     * slide (stopping at the first), renders it if it is not the slide last
     * rendered, and restarts the slideshow period.
     */
    method PrevSlide()
      requires Valid()
      modifies this`currentSlide, this`previousSlide, this`cycleActive, this`liveIntervals
      modifies this`sounds, this`translateX
      ensures Valid()
      ensures old(CycleTracksToggle()) ==> CycleTracksToggle()
      ensures old(isToggled) ==> unchanged(this)
      ensures !old(isToggled) ==>
        && currentSlide == PrevIndex(old(currentSlide))
        && previousSlide == Some(currentSlide)
        && cycleActive && liveIntervals == 1
      ensures !old(isToggled) ==>
        var changed := old(previousSlide) == None || currentSlide != old(currentSlide);
        && sounds == old(sounds) + (if changed then [SOUND_CHANGE_SLIDE] else [])
        && translateX == (if changed then Some(SlideOffset(currentSlide)) else old(translateX))
    {
      if isToggled {
        return;
      }
      StopCycle();
      currentSlide := PrevIndex(currentSlide);
      if previousSlide != Some(currentSlide) {
        previousSlide := Some(currentSlide);
        ChangeSlide();
      }
      StartCycle();
    }

    /**
     * A click on the right arrow, or a tick of the slideshow interval: unless
     * the screen is raised, moves on one slide (after the last, back to the
     * first), renders it if it is not the slide last rendered, and restarts
     * the slideshow period.
     */
    method NextSlide()
      requires Valid()
      modifies this`currentSlide, this`previousSlide, this`cycleActive, this`liveIntervals
      modifies this`sounds, this`translateX
      ensures Valid()
      ensures old(CycleTracksToggle()) ==> CycleTracksToggle()
      ensures old(isToggled) ==> unchanged(this)
      ensures !old(isToggled) ==>
        && currentSlide == NextIndex(old(currentSlide))
        && previousSlide == Some(currentSlide)
        && cycleActive && liveIntervals == 1
      ensures !old(isToggled) ==>
        var changed := old(previousSlide) == None || currentSlide != old(currentSlide);
        && sounds == old(sounds) + (if changed then [SOUND_CHANGE_SLIDE] else [])
        && translateX == (if changed then Some(SlideOffset(currentSlide)) else old(translateX))
    {
      if isToggled {
        return;
      }
      StopCycle();
      currentSlide := NextIndex(currentSlide);
      if previousSlide != Some(currentSlide) {
        previousSlide := Some(currentSlide);
        ChangeSlide();
      }
      StartCycle();
    }

    /** Clears the slideshow interval the handle refers to, if it is still running. */
    method StopCycle()
      requires OneInterval()
      modifies this`cycleActive, this`liveIntervals
      ensures OneInterval() && !cycleActive && liveIntervals == 0
    {
      if cycleActive {
        liveIntervals := liveIntervals - 1;
        cycleActive := false;
      }
    }

    /** Clears the slideshow interval, then starts a new one; exactly one runs afterwards. */
    method StartCycle()
      requires OneInterval()
      modifies this`cycleActive, this`liveIntervals
      ensures OneInterval() && cycleActive && liveIntervals == 1
    {
      StopCycle();
      liveIntervals := liveIntervals + 1;
      cycleActive := true;
    }
  }

  /** A second click before the first transition's tween completes leaves the screen as the first click left it. */
  method ClientDoubleClick()
  {
    var p := new Projection();
    p.Init();
    p.OnContextClick();
    assert p.isToggled && p.isAnimating && !p.cycleActive;
    p.OnContextClick();
    assert p.isToggled && !p.cycleActive;
    p.NextSlide();
    assert p.currentSlide == 0 && p.previousSlide == None;
    p.OnSlidingTimerFire();
    assert p.showering && p.waterRunning;
    p.OnScreenTweenComplete();
    p.OnContextClick();
    assert !p.isToggled && p.cycleActive && p.slidingTimer == StopWaterAndRemoveShowering;
    p.OnSlidingTimerFire();
    assert !p.showering && !p.waterRunning;
    p.Destroy();
    assert !p.cycleActive && p.liveIntervals == 0;
  }

  /**
   * With more than one slide, moving on from the last slide shows the first
   * one and plays the slide-change sound exactly once; while the screen is
   * raised, further ticks leave the slide where it is.
   */
  method ClientWrapFromLast(p: Projection)
    requires p.Valid() && !p.isToggled && !p.isAnimating
    requires p.currentSlide == LAST_SLIDE_INDEX && LAST_SLIDE_INDEX > 0
    modifies p
  {
    var before := p.sounds;
    p.NextSlide();
    assert p.currentSlide == 0;
    assert p.sounds == before + [SOUND_CHANGE_SLIDE];
    p.OnContextClick();
    p.NextSlide();
    p.NextSlide();
    assert p.currentSlide == 0 && p.isToggled && !p.cycleActive;
  }

  /**
   * With the screen down, one `NextSlide` per slide brings the screen back to
   * the slide it started on, with the slideshow running.
   */
  method ClientFullCycle(p: Projection)
    requires p.Valid() && !p.isToggled
    modifies p
    ensures p.Valid() && !p.isToggled && p.cycleActive
    ensures p.currentSlide == old(p.currentSlide)
  {
    ghost var start := p.currentSlide;
    var k := 0;
    while k < LAST_SLIDE_INDEX + 1
      invariant 0 <= k <= LAST_SLIDE_INDEX + 1
      invariant p.Valid() && !p.isToggled
      invariant k > 0 ==> p.cycleActive
      invariant p.currentSlide == NextTimes(start, k)
    {
      p.NextSlide();
      NextTimesLast(start, k);
      k := k + 1;
    }
    NextTimesFullCycle(start);
  }

  /** Tearing down a screen that was never initialised leaves no timer running. */
  method ClientDestroyWithoutInit()
  {
    var p := new Projection();
    p.Destroy();
    assert p.liveIntervals == 0 && p.liveTimeouts == 0 && !p.waterRunning;
  }
}

# Briefing projector screen

A model of `app.Projection`, the projector-screen widget of the briefing scene.
The widget shows a strip of slides. It moves on one slide on every tick of a
repeating slideshow timer and on a click of the right arrow. After the last
slide it goes back to the first. A click of the left arrow moves back one slide,
but never past the first. A click on the screen raises it to reveal a shower
behind it, and a later click lowers it again. While the screen is raised, the
slideshow stops and the arrows do nothing.

The project has three modules:

- `Constants` (in `slides.dfy`) holds the two configuration values the widget
  reads: `LAST_SLIDE_INDEX` and `SLIDE_SIZE`. The scene owns them, so here they
  are declared without a value. Every proof holds whatever values they take.
- `Slides` (in `slides.dfy`) holds the index arithmetic as pure functions,
  with lemmas about repeated moves.
- `Briefing` (in `projection.dfy`) holds the class `Projection`. It has the
  widget's fields and one method per source method or event. The events are
  `Init`, `Destroy`, `PrevSlide` and `NextSlide` (an arrow click, or a tick of
  the interval), `OnContextClick`, `OnScreenTweenComplete` and
  `OnSlidingTimerFire`. Each method names in its `modifies` clause the exact
  fields it may change, so "nothing else changes" is part of every contract.

The model represents the widget's collaborators like this:

- **The two timers.** Each timer is the handle the widget keeps plus a count of
  live timers of that kind. `cycleActive` and `liveIntervals` model
  `slideshowTimer_`. `slidingTimer` and `liveTimeouts` model `slidingTimer_`,
  and `slidingTimer` also records which callback is pending. These counts turn
  "clear before set" into the proved invariants `OneInterval` and `OneTimeout`:
  at most one timer of each kind is ever live.
- **The screen tweens.** A screen tween is represented only by its later
  completion event, `OnScreenTweenComplete`.
- **The water tween.** It is the flag `waterRunning`.
- **The sound bus.** It is the log `sounds`, which records every identifier
  the widget fires.
- **The slide strip.** The last `translateX` written to it is the ghost field
  `translateX`.

The object invariant `Valid` has four parts:

- The slide in view is on the strip.
- The slide in view is the slide last rendered, except before the first render,
  and the strip is translated to show it.
- Each timer kind has at most one live timer.
- The pending one-shot callback belongs to the latest transition. A stale
  "add showering" callback therefore cannot be pending once the screen is
  being lowered. Once a transition's callback has run, the shower matches the
  screen.

A separate predicate, `CycleTracksToggle`, states that while the listeners are
bound, the slideshow runs exactly when the screen is down. Every event keeps
it. `Init` establishes it exactly when the screen is down.

The widget fires three sound identifiers: `briefing_screen_up`,
`briefing_screen_down` and `briefing_change_slide`. A move (`PrevSlide` or
`NextSlide`) while the screen is raised returns before touching the slideshow
timer, so only a move made while the screen is down restarts it.

## Model

| member | source | states |
|---|---|---|
| `Slides.NextIndex` | scenes/briefing/js/projection.js:225-228 | moving forward stays on the strip and is `i + 1` modulo the number of slides; it stays on the same slide only when there is a single slide |
| `Slides.PrevIndex` | scenes/briefing/js/projection.js:206 | moving backward goes down by one, but stays put (and only stays put) on the first slide, so it never goes below 0 |
| `Slides.NextTimesModular` | scenes/briefing/js/projection.js:220-235 | `n` forward moves from slide `i` land on `(i + n)` modulo the number of slides |
| `Slides.NextTimesFullCycle` | scenes/briefing/js/projection.js:225-228 | `LAST_SLIDE_INDEX + 1` forward moves return to the starting slide |
| `Slides.PrevTimesClamps` | scenes/briefing/js/projection.js:201-213 | `n` backward moves from slide `i` land on `i - n`, or on 0 when `n > i`; no number of moves goes below 0 |
| `Slides.SlideOffset` | scenes/briefing/js/projection.js:185 | the translation of the first slide is 0 (and no other slide's is, unless the width is 0); with a positive slide width the strip only moves left |
| `Slides.SlideOffsetsDistinct` | scenes/briefing/js/projection.js:185 | with a non-zero slide width, two slides get the same translation exactly when they are the same slide |
| `Slides.NextTimesLast` | scenes/briefing/js/projection.js:225-228 | `k + 1` forward moves are `k` forward moves followed by one more, so repeated calls compose move by move |
| `Briefing.ClientFullCycle` | scenes/briefing/js/projection.js:220-235 | with the screen down, `LAST_SLIDE_INDEX + 1` calls of `NextSlide` return the screen to the slide it started on, keep the invariant and leave the slideshow running |
| `Briefing.Projection.constructor` | scenes/briefing/js/projection.js:13-42 | starts on slide 0 with nothing rendered, the screen down, no guard set, no timers, no water or shower, listeners unbound; the invariant holds |
| `Briefing.Projection.Init` | scenes/briefing/js/projection.js:47-50 | binds the listeners and leaves exactly one slideshow interval running; the cycle/toggle coupling then holds exactly when the screen is down |
| `Briefing.Projection.Destroy` | scenes/briefing/js/projection.js:56-60 | from any valid state, including one where `Init` never ran, unbinds the listeners and leaves no interval running and the water stopped |
| `Briefing.Projection.OnContextClick` | scenes/briefing/js/projection.js:90-115 | while the guard is set, changes nothing; otherwise sets the guard, flips the toggle and cancels the pending callback. Raising sends the screen-up sound, starts the water, stops the slideshow and schedules adding the shower. Lowering sends the screen-down sound, restarts the slideshow and schedules stopping the water and removing the shower. Either way one callback is pending and the invariant and coupling are kept |
| `Briefing.Projection.OnScreenTweenComplete` | scenes/briefing/js/projection.js:148-177 | clears the re-entrancy guard and changes nothing else; no other event clears it |
| `Briefing.Projection.OnSlidingTimerFire` | scenes/briefing/js/projection.js:101-113 | runs the pending callback and leaves none pending. "Add showering" sets the shower and leaves the water alone. "Stop water and remove showering" clears both |
| `Briefing.Projection.SlideScreenUp` | scenes/briefing/js/projection.js:148-159 | appends the screen-up identifier to the sound log and nothing else |
| `Briefing.Projection.SlideScreenDown` | scenes/briefing/js/projection.js:166-177 | appends the screen-down identifier to the sound log and nothing else |
| `Briefing.Projection.StartAnimatingWater` | scenes/briefing/js/projection.js:122-132 | the water runs afterwards |
| `Briefing.Projection.StopAnimatingWater` | scenes/briefing/js/projection.js:139-141 | the water is stopped afterwards, whether or not it ran |
| `Briefing.Projection.ChangeSlide` | scenes/briefing/js/projection.js:184-194 | appends the slide-change identifier and writes translate `-currentSlide * SLIDE_SIZE` |
| `Briefing.Projection.PrevSlide` | scenes/briefing/js/projection.js:201-213 | with the screen raised, changes nothing at all. Otherwise it moves to `PrevIndex` of the old slide and restarts the slideshow with exactly one interval. It plays the slide-change sound and moves the strip exactly when the slide moved or nothing was rendered before. It keeps the invariant and the coupling |
| `Briefing.Projection.NextSlide` | scenes/briefing/js/projection.js:220-235 | with the screen raised, changes nothing at all. Otherwise it moves to `NextIndex` of the old slide and restarts the slideshow with exactly one interval. It plays the slide-change sound and moves the strip exactly when the slide moved or nothing was rendered before. It keeps the invariant and the coupling |
| `Briefing.Projection.StopCycle` | scenes/briefing/js/projection.js:242-244 | no slideshow interval is left running |
| `Briefing.Projection.StartCycle` | scenes/briefing/js/projection.js:251-255 | clearing before setting leaves exactly one slideshow interval running, never two |

## Left out

- Element lookups, CSS class names and transform strings are left out. These are DOM plumbing. Only the `is-showering` flag and the numeric translation are kept.
- Tween targets, easing, durations and `strokeDashoffset` are left out. The animation library is external. A screen tween is only its completion event, and the water tween is only a flag.
- Timer delays are left out: the slideshow period, the full slide duration, and the 40% (`/ 2.5`) delay of the shower. Timers are modelled by which callback is pending, and a firing is an event. So the model does not order the shower callback against the tween completion, and either may come first.
- The sound bus `window.santaApp.fire` is modelled as an append to the `sounds` log.
- Listener binding is modelled as the flag `listening`.
- `Init`: does not model that a second call binds every listener a second time, so that one arrow click would then move two slides.
- `OnSlidingTimerFire`: with no callback pending it changes nothing. The real timer cannot fire then.
- `Briefing.Projection.ChangeSlide`: `SLIDE_SIZE` is an integer here, while JavaScript numbers may be fractional.
- `Destroy` neither cancels the pending one-shot callback nor stops a screen tween in flight. The source does neither. Both events may therefore still arrive after `Destroy`, and the model allows them.

# Scroll-morph hero: a Dafny model

This project models the logic inside the `IntroAnimation` hero component of a
drone-videography landing page. The component shows a deck of 20 thumbnail
cards. They fly in from random positions, line up, and form a circle. Scrolling
then morphs the circle into a wide arc and sweeps it sideways. Clicking a card
opens its video, and ambient background audio is muted while a video is open.

JavaScript numbers are modelled as `real`. `Math.PI`, `Math.cos` and `Math.sin`
are passed in as a `Trig` record (a value of π and two arbitrary functions), so
every property holds whatever they return. Where a property needs
`cos² + sin² = 1`, it says so in its precondition or as the hypothesis of
its postcondition.

Modules (one per responsibility of the component):

- `Numeric` (`numeric.dfy`): `Math.min`, `Math.max` and the
  `Math.min(Math.max(v, lo), hi)` clamp.
- `ScrollInput` (`scroll_input.dfy`): the wheel, touch and mouse handlers.
  The class `InputNormalizer` holds `scrollRef.current`, the touch baseline
  and `mouseX`. The pure functions `Step`, `Accumulate`, `Moves` and `Sum` say
  what a run of handler calls computes, and `TouchGesture` drives the
  touch handlers through a whole gesture to show they produce `Moves`. A ghost field records every delta
  applied, so `scroll` is always `Accumulate(0, Deltas)`.
- `PhaseSequencer` (`phase_sequencer.dfy`): the phase enum and the two
  mount timers. The class `Sequencer` keeps the pending timers as a queue that
  fires in registration order.
- `LayoutSolver` (`layout_solver.dfy`): the pure per-card target computation,
  covering the scatter, line, circle and arc poses and the morph blend.
- `MediaSelection` (`media_selection.dfy`): the selected card, the effect
  that saves or restores the audio volume, and the mute toggle. The value type
  `MediaState` and its functions say what each user action does. The class
  `HeroMedia` holds the same state in fields, and its methods are proved to
  follow those functions.

Behaviour of the code worth knowing:

- The line layout is not centred. Card `i` sits at `70·i − 700`, so the
  strip runs from −700 to 630. Cards 0 and 19 are not mirror images: their
  positions add up to −70 (`LineNotCentred`).
- The arc's rigid rotation is at most `0.8 · spread` degrees: 80 on mobile,
  104 on desktop. It is not `0.8 ·` the 0–360 rotation signal, because the
  signal is first clamped to a fraction in `[0, 1]`.
- Closing a video restores the volume saved by the last change of
  selection. A click on a second card while a video is open saves the
  already-zero volume, and the following close leaves the audio silent
  (`SwitchLosesVolume`). The remembered volume survives whenever no such
  switch happens (`NoSwitchKeepsVolume`).
- The catalog size is the constant 20, so the arc step `spread / 19` never
  divides by zero.

## Model

| member | source | states |
|---|---|---|
| `Numeric.Min` | components/ui/scroll-morph-hero.tsx:436-438 | `Math.min` is at most both arguments and is one of them |
| `Numeric.Max` | components/ui/scroll-morph-hero.tsx:227 | `Math.max` is at least both arguments and is one of them |
| `Numeric.Clamp` | components/ui/scroll-morph-hero.tsx:227 | the result is in `[lo, hi]`; a value below or above the range lands exactly on `lo` or `hi`; a value inside it is unchanged |
| `ScrollInput.Step` | components/ui/scroll-morph-hero.tsx:227 | one handler's new scroll value is in `[0, 3000]`; a delta that overshoots either end lands exactly on that end; otherwise the delta is added exactly |
| `ScrollInput.Accumulate` | components/ui/scroll-morph-hero.tsx:225-244 | after any non-empty run of wheel or touch deltas, of any sign or size, the scroll value is in `[0, 3000]`; an empty run leaves it unchanged |
| `ScrollInput.Moves` | components/ui/scroll-morph-hero.tsx:236-243 | a run of touch moves produces one delta per move: the first is `baseline − y₀`, and each later one is the previous position minus the new one |
| `ScrollInput.MovesTelescope` | components/ui/scroll-morph-hero.tsx:237-239 | the deltas of moves through `y₀ … yₙ` from baseline `b` add up to `b − yₙ` before clamping |
| `ScrollInput.UnclampedIsSum` | components/ui/scroll-morph-hero.tsx:241-242 | if no intermediate value leaves the range, the accumulated scroll is the start value plus the plain sum of the deltas |
| `ScrollInput.TouchGestureMovesBy` | components/ui/scroll-morph-hero.tsx:232-244 | a touch gesture that never reaches a bound moves the scroll value by exactly `baseline − last y` |
| `ScrollInput.MouseParallax` | components/ui/scroll-morph-hero.tsx:270-274 | the pointer inside the container maps into `[−100, 100]`: −100 at the left edge, 100 at the right edge, 0 at the centre; the offset is negative exactly when the pointer is left of centre |
| `ScrollInput.InputNormalizer.constructor` | components/ui/scroll-morph-hero.tsx:219 | at mount the scroll value, the touch baseline and the pointer offset are all 0, and no delta has been applied |
| `ScrollInput.InputNormalizer.AddDelta` | components/ui/scroll-morph-hero.tsx:241-242 | the scroll value becomes `Step(old scroll, delta)`, the delta is recorded, and the range invariant is kept |
| `ScrollInput.InputNormalizer.Wheel` | components/ui/scroll-morph-hero.tsx:225-230 | a wheel event applies `deltaY` through `Step`; the baseline and the pointer offset are unchanged |
| `ScrollInput.InputNormalizer.TouchStart` | components/ui/scroll-morph-hero.tsx:233-235 | `touchstart` changes only the baseline; the scroll value and the recorded deltas are unchanged |
| `ScrollInput.InputNormalizer.TouchMove` | components/ui/scroll-morph-hero.tsx:236-244 | `touchmove` applies `baseline − y` through `Step`, then moves the baseline to `y` |
| `ScrollInput.InputNormalizer.TouchGesture` | components/ui/scroll-morph-hero.tsx:232-244 | a `touchstart` followed by `touchmove` events applies exactly the deltas `Moves(baseline, ys)`, because each move carries the baseline over; the scroll value becomes their clamped accumulation, and a gesture that reaches no bound moves it by exactly `baseline − last y` |
| `ScrollInput.InputNormalizer.MouseMove` | components/ui/scroll-morph-hero.tsx:270-275 | `mousemove` sets the pointer offset to `MouseParallax`; the scroll state is unchanged |
| `PhaseSequencer.PhaseAfter` | components/ui/scroll-morph-hero.tsx:280-284 | after `n` timers the phase has rank `n`: scatter, then line, then circle; it is never `bottom-strip` |
| `PhaseSequencer.Sequencer.Mount` | components/ui/scroll-morph-hero.tsx:124 | the phase starts at `scatter`, with the line timer and then the circle timer pending |
| `PhaseSequencer.Sequencer.Fire` | components/ui/scroll-morph-hero.tsx:281-282 | the earliest pending timer sets its phase; the phase moves forward by at most one rank, never reverts and is never `bottom-strip`; with no timer pending nothing changes |
| `PhaseSequencer.Sequencer.Unmount` | components/ui/scroll-morph-hero.tsx:283 | unmount clears the pending timers and keeps the phase |
| `LayoutSolver.Lerp` | components/ui/scroll-morph-hero.tsx:121 | `lerp(a, b, 0) = a` and `lerp(a, b, 1) = b`; the result moves from `a` by exactly `t·(b − a)`; for `t` in `[0, 1]` it lies between `a` and `b` |
| `LayoutSolver.ScatterPose` | components/ui/scroll-morph-hero.tsx:286-294 | random draws in `[0, 1)` give a pose in `[−750, 750) × [−500, 500)` with rotation in `[−90, 90)`; scale is 0.6 and opacity 0 |
| `LayoutSolver.LineTarget` | components/ui/scroll-morph-hero.tsx:429-433 | in the line phase card `i` is at `x = 70·i − 700`, `y = 0`, unrotated, at scale 1 and opacity 1; for the 20 cards `x` is in `[−700, 630]` |
| `LayoutSolver.LineEvenlySpaced` | components/ui/scroll-morph-hero.tsx:430-432 | neighbouring cards on the line are exactly 70 apart, and the line keeps catalog order from left to right |
| `LayoutSolver.LineNotCentred` | components/ui/scroll-morph-hero.tsx:431-432 | the positions of cards 0 and 19 add up to −70, so the strip is not symmetric about 0 |
| `LayoutSolver.Radians` | components/ui/scroll-morph-hero.tsx:440 | degrees become radians at the ratio `π / 180`: 0 stays 0 and 180 becomes `π` |
| `LayoutSolver.CircleAngle` | components/ui/scroll-morph-hero.tsx:439 | card `i` sits at `18·i` degrees; the 20 cards cover `[0, 360)` |
| `LayoutSolver.CircleRadius` | components/ui/scroll-morph-hero.tsx:436-438 | the radius is never above 350 or above `0.35·min(W, H)`, and equals one of the two |
| `LayoutSolver.CirclePose` | components/ui/scroll-morph-hero.tsx:439-445 | a card on the circle is rotated by its angle plus 90 degrees, so it faces along the tangent |
| `LayoutSolver.CirclePoseOnCircle` | components/ui/scroll-morph-hero.tsx:438-443 | with `cos² + sin² = 1`, card `i` lies at distance `CircleRadius` from the centre |
| `LayoutSolver.BreakpointConstants` | components/ui/scroll-morph-hero.tsx:447-467 | below width 768 the arc uses spread 100, radius factor 1.4, apex at 35% of the height and scale 1.4; otherwise 130, 1.1, 25% and 1.8; the start angle is −140 or −155; full rotation turns the arc by 80 or 104 degrees |
| `LayoutSolver.IsMobile` | components/ui/scroll-morph-hero.tsx:435 | a container strictly narrower than 768 is mobile; one 768 wide or wider is desktop |
| `LayoutSolver.SpreadAngle` | components/ui/scroll-morph-hero.tsx:452 | the arc spreads the cards over 100 to 130 degrees, and exactly 100 on mobile |
| `LayoutSolver.StartAngle` | components/ui/scroll-morph-hero.tsx:453 | the first card on the unrotated arc is half the spread before straight up (−90) |
| `LayoutSolver.AngleStep` | components/ui/scroll-morph-hero.tsx:454 | the step between arc cards is positive, and 19 steps cover exactly the spread |
| `LayoutSolver.ScrollProgress` | components/ui/scroll-morph-hero.tsx:456 | the rotation signal as a fraction of 360, clamped to `[0, 1]`: 0 at or below 0, 1 at or above 360, exact in between |
| `LayoutSolver.BoundedRotation` | components/ui/scroll-morph-hero.tsx:456-458 | the arc's rigid rotation lies in `[−0.8·spread, 0]`; it is 0 with no rotation and `−0.8·spread` from 360 upwards |
| `LayoutSolver.ArcAngle` | components/ui/scroll-morph-hero.tsx:452-460 | unrotated, card 0 is at the start angle and card 19 at `−90 + spread/2`; under any rotation every card's angle stays in `[start − 0.8·spread, −90 + spread/2]` |
| `LayoutSolver.UnrotatedArcAngle` | components/ui/scroll-morph-hero.tsx:453-460 | with no rotation card `i` is at exactly `startAngle + i·step` |
| `LayoutSolver.ArcEvenlySpaced` | components/ui/scroll-morph-hero.tsx:454-460 | neighbouring cards on the arc are exactly one step apart, whatever the rotation |
| `LayoutSolver.ArcPose` | components/ui/scroll-morph-hero.tsx:460-468 | a card on the arc is rotated by its arc angle plus 90 degrees |
| `LayoutSolver.ArcPoseOnArc` | components/ui/scroll-morph-hero.tsx:447-465 | the arc is a circle of radius `ArcRadius` around `(parallax, ArcCenterY)`: with `cos² + sin² = 1` every card lies on it, and a card with `sin = −1` sits exactly at the apex height |
| `LayoutSolver.ArcRadius` | components/ui/scroll-morph-hero.tsx:447-448 | for a non-negative container the arc radius is non-negative and at most 1.4 times the width and 2.1 times the height (1.1 and 1.65 on desktop); the exact factors are in `BreakpointConstants` |
| `LayoutSolver.ArcApexY` | components/ui/scroll-morph-hero.tsx:449 | the apex sits between 25% and 35% of the container height, at 35% exactly on mobile |
| `LayoutSolver.ArcScale` | components/ui/scroll-morph-hero.tsx:467 | cards on the arc are enlarged, to between 1.4 and 1.8, and to exactly 1.4 on mobile |
| `LayoutSolver.ArcCenterY` | components/ui/scroll-morph-hero.tsx:449-450 | the arc's centre is exactly one arc radius below its apex |
| `LayoutSolver.SteadyTarget` | components/ui/scroll-morph-hero.tsx:470-476 | the steady-state target is always opaque; at morph 0 it is the circle pose at scale 1, at morph 1 the arc pose at the arc scale; for morph in `[0, 1]` each component lies between the two poses' values and the scale is in `[1, arc scale]` |
| `LayoutSolver.SteadyCircleDistance` | components/ui/scroll-morph-hero.tsx:441-472 | at morph 0, with `cos² + sin² = 1`, every card lies at distance `CircleRadius` from the centre |
| `LayoutSolver.ItemTarget` | components/ui/scroll-morph-hero.tsx:425-477 | `scatter` gives the card's scatter pose from its three random draws (scale 0.6) and `line` the line layout; every other phase, `bottom-strip` included, takes the circle/arc blend; a card is invisible exactly in the scatter phase and opaque otherwise |
| `MediaSelection.Mounted` | components/ui/scroll-morph-hero.tsx:127-136 | after mount no video is open and the audio exists at volume 0.3; the state invariant holds |
| `MediaSelection.SelectionEffect` | components/ui/scroll-morph-hero.tsx:182-193 | with a video open the volume is saved and set to 0; with none it is restored from the saved value; without an audio element nothing changes; selection and mute flags are untouched |
| `MediaSelection.SetSelected` | components/ui/scroll-morph-hero.tsx:182-193 | setting the current selection again changes nothing; any other value is stored and the effect runs on it |
| `MediaSelection.Click` | components/ui/scroll-morph-hero.tsx:487 | a click selects card `i` and keeps the invariant; from no selection, with audio, it saves the volume and mutes; clicking the open card changes nothing |
| `MediaSelection.Close` | components/ui/scroll-morph-hero.tsx:525 | close clears the selection and keeps the invariant; with audio and a video open it restores the saved volume; with nothing open it changes nothing |
| `MediaSelection.ToggleMute` | components/ui/scroll-morph-hero.tsx:174-179 | with an audio element `isMuted` flips and the element's mute flag follows it; without one nothing changes; selection and volumes are untouched |
| `MediaSelection.DirectRoundTrip` | components/ui/scroll-morph-hero.tsx:182-193 | from no selection, opening card `i` and closing it restores the whole state, the volume included |
| `MediaSelection.SwitchLosesVolume` | components/ui/scroll-morph-hero.tsx:184-187 | opening card `i`, clicking a different card `j`, then closing leaves both the volume and the saved volume at 0 |
| `MediaSelection.ToggleMuteTwice` | components/ui/scroll-morph-hero.tsx:174-179 | toggling mute twice restores the state |
| `MediaSelection.ReplayKeepsInvariant` | components/ui/scroll-morph-hero.tsx:519 | after any sequence of clicks on cards, closes and mute toggles, the open video is a valid catalog index in 0..19 (so the catalog lookup is in bounds); volumes stay in `[0, 1]`; the mute flag mirrors `isMuted`; the audio is silent while a video is open and at the saved volume otherwise |
| `MediaSelection.NoSwitchKeepsVolume` | components/ui/scroll-morph-hero.tsx:182-193 | if no second card is clicked while a video is open, the saved volume never changes, and whenever no video is open the audio is back at that volume |
| `MediaSelection.HeroMedia.Mount` | components/ui/scroll-morph-hero.tsx:128-136 | the fields hold the mounted state |
| `MediaSelection.HeroMedia.SyncAudioWithSelection` | components/ui/scroll-morph-hero.tsx:182-193 | the fields change exactly as `SelectionEffect` says |
| `MediaSelection.HeroMedia.ClickCard` | components/ui/scroll-morph-hero.tsx:487 | the fields change exactly as `Click` says, and the invariant is kept |
| `MediaSelection.HeroMedia.CloseVideo` | components/ui/scroll-morph-hero.tsx:525 | the fields change exactly as `Close` says, and the invariant is kept |
| `MediaSelection.HeroMedia.ToggleAudioMute` | components/ui/scroll-morph-hero.tsx:174-179 | the fields change exactly as `ToggleMute` says, and the invariant is kept |
| `MediaSelection.HeroMedia.ReleaseAudio` | components/ui/scroll-morph-hero.tsx:164-165 | unmount drops the audio element and changes nothing else |

## Left out

- Rendering is not modelled: JSX, `FlipCard`, CSS classes, the logo, the
  video overlay markup, and the main container's shift and shrink while a
  video is open. None of them holds logic that can be stated.
- framer-motion is not modelled: `useMotionValue`, `useTransform`,
  `useSpring` and the card spring animations. It is library code, and its
  springs are floating-point dynamics. The morph value, the arc rotation
  signal and the parallax value are arbitrary real inputs of the layout
  solver. The 0–600 and 600–3000 scroll mappings, and their clamping, live
  inside the library.
- Floating point is not modelled. Reals stand for doubles, so rounding
  (for example in `i / 20 * 360`) and NaN or infinite deltas are out of scope.
- `Math.cos`, `Math.sin` and `Math.PI` are uninterpreted, given as
  parameters.
- `Math.random` is not modelled. The three draws of each scatter pose are
  parameters of `ScatterPose`.
- `ItemTarget`: takes the card's three draws instead of the memoised table
  of scatter poses, so it does not capture that the draws are made once per
  mount and reused on every render.
- Timer delays (500 ms and 2500 ms) are not modelled, only their firing
  order.
- Event-listener registration and removal, `preventDefault`, and the
  `ResizeObserver` are browser I/O. The container size is an input
  (`Viewport`).
- Audio playback is not modelled: autoplay, the autoplay-blocked fallback
  listeners and `pause`. Only the existence of the audio element and its
  `volume` and `muted` properties are modelled.
- `ScrollInput.MouseParallax`: requires a positive container width. The
  source divides by the width without a guard, and a pointer cannot move
  over a zero-width container.
- The media catalog's URLs and categories are static data. Only its size,
  20, is modelled.
- app/layout.tsx is not part of this model. It holds page metadata and the
  HTML shell, with no logic.

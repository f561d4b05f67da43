# Balloon page: spawn and expiry lifecycle

A Dafny model of the logic in `script.js` of a decorative birthday page:
balloons rise across the screen, sparkles follow the mouse, and a confetti
burst fans out once when the page loads. Stripped of DOM construction and
styling, what remains is a small state machine:

- a **viewport tier** (narrow up to 480 px, medium up to 768 px, wide beyond)
  sets two globals, `MAX_BALLOONS` and `SPAWN_INTERVAL`, at load and again on
  every resize;
- `createBalloon` is **capacity-gated**: it does nothing when the
  `balloonsContainer` element is missing or already holds `MAX_BALLOONS`
  children, and otherwise appends one balloon and schedules its removal at the
  end of its rise animation;
- every other effect (sparkle, confetti particle) is appended and then
  removed by its own timer after a fixed lifetime;
- each random parameter is an affine image of one uniform draw.

Modules, one per concern:

| file | module | contents |
|---|---|---|
| viewport.dfy | `Viewport` | tiers, the `(capacity, interval)` table, monotonicity |
| draws.dfy | `Draws` | the colour palette and every randomised formula, each with its range and the fact that it reaches all of it |
| entities.dfy | `Entities` | balloon, sparkle and confetti records with their removal deadlines; the 60-particle burst |
| lifecycle.dfy | `Lifecycle` | expiry of due entities (`Expire`) and the capacity gate (`Admit`), with their lemmas |
| schedule.dfy | `Schedule` | the initial batch at load and the click/touch pair of spawns |
| scene.dfy | `Balloons` | class `Scene`: the page's globals and child lists, and its handlers as methods |

Time is explicit: every handler takes the clock `now` in milliseconds, an
entity stores the absolute time its removal timer fires, and `Scene.Tick(now)`
fires every removal timer that is due. Each random draw is a caller-supplied
`real` in `[0, 1)`.

Points where the code decides something a summary might state differently,
and which the model follows:

- The gate counts **all** children of the container. Sparkles are appended to
  the same container and so take balloon slots (`Lifecycle.SparkleTakesBalloonSlot`).
  Confetti goes to the document body and does not.
- The repeating spawn timer is registered once, with the load-time interval.
  A resize reassigns `SPAWN_INTERVAL`, but nothing reads it afterwards, so
  the timer keeps its old period (`Scene.timerPeriod` is a constant). A
  resize changes the capacity gate and the window width that later spawns
  read for their position; it leaves the timer and every active entity alone.
- Capacity can be exceeded only by sparkles or by a resize to a narrower tier.
  Handlers run one at a time, and a spawn never takes the container past its
  current capacity.
- Ranges are half-open, as the formulas `a + r * b` with `0 <= r < 1` give
  them. Position is in `[5, 95)` percent, confetti distance in `[200, 350)` px,
  and rotation in `[-6, 6)` degrees.
- The position formula reads the current window width directly, not the tier
  globals, so `Scene` keeps the width.
- A balloon's removal delay is `duration * 1000` ms truncated to a whole number,
  because the timer API truncates its delay. In the model, where a timer fires
  exactly when it is due, removal therefore comes at most 1 ms before the end
  of the rise animation and never after it.

## Model

| member | source | states |
|---|---|---|
| `Viewport.TierOf` | script.js:17-26 | a width is narrow exactly when it is at most 480 and wide exactly when it exceeds 768 |
| `Viewport.TierConfig` | script.js:17-26 | each tier's capacity lies in [4, 10] and its interval in [1400, 2000] ms, a multiple of 5, so one fifth of it is a whole number of milliseconds |
| `Viewport.ConfigByWidth` | script.js:7-13 | `ConfigFor`, the map from width to the two globals, gives capacity 4 and interval 2000 ms for widths up to 480; 6 and 1600 ms for (480, 768]; 10 and 1400 ms beyond 768 |
| `Viewport.TierMonotone` | script.js:17-22 | a wider window never has a narrower tier |
| `Viewport.NarrowerTierFewerAndSlower` | script.js:17-26 | one tier is narrower than another exactly when its capacity is strictly smaller, and exactly when its interval is strictly longer; equal tiers have equal configurations |
| `Viewport.WiderNeverSmallerOrSlower` | script.js:17-26 | as the width grows, capacity never drops and the spawn interval never grows |
| `Balloons.Scene.constructor` | script.js:5-13 | at load the globals hold `ConfigFor` of the load width, the repeating timer takes that interval, and both child lists start empty (the markup is assumed to put no child in the container) |
| `Balloons.Scene.Resize` | script.js:16-27 | the width and both globals follow the new width's tier, exactly as at load (`ConfigFor`); the timer period and every active entity stay unchanged; the period differs from the new interval exactly when the tier differs from the load-time tier |
| `Balloons.Scene.Spawn` | script.js:29-99 | a balloon is added exactly when the container exists and holds fewer children than the capacity; then it is the only change, and the count stays within the capacity; otherwise nothing changes |
| `Balloons.Scene.Sparkle` | script.js:124-141 | a sparkle is appended to the balloon container exactly when the trigger draw exceeds 0.985 (`Draws.SparkleFires`), with no capacity check, and it expires 900 ms later; otherwise nothing changes |
| `Balloons.Scene.Burst` | script.js:144-176 | with no anchor nothing changes; with one, exactly the 60 burst particles are appended to the body, and the container is not touched |
| `Balloons.Scene.Tick` | script.js:95-98 | the entities whose removal time has come leave both lists; all others stay, in order; id invariants are kept |
| `Draws.PaletteIndex` | script.js:39 | the colour index drawn is one of the six palette slots |
| `Draws.ColorOf` | script.js:39 | the colour drawn is in the palette |
| `Draws.PaletteIndexPreimage` | script.js:39 | each colour is selected by exactly one sixth of the draws, `[k/6, (k+1)/6)` |
| `Draws.LeftPercent` | script.js:78-86 | at width up to 480 the position lies in `[5, 25)` when the side draw is below one half and in `[75, 95)` otherwise, never in `[25, 75)`; wider windows give `[5, 95)` |
| `Draws.LeftPercentCoversBands` | script.js:78-86 | every position in the permitted bands is produced by some pair of draws |
| `Draws.RiseSeconds` | script.js:89 | the rise duration lies in `[8, 14)` seconds |
| `Draws.RiseSecondsCovers` | script.js:89 | every duration in `[8, 14)` is produced by some draw |
| `Draws.RemovalDelayMs` | script.js:96-98 | the removal delay is the rise in milliseconds truncated to a whole number, in `[8000, 14000)` ms: at most 1 ms short of the rise and never longer |
| `Draws.SwaySeconds` | script.js:90 | the sway period lies in `[3, 5)` seconds |
| `Draws.TiltDegrees` | script.js:91 | the rotation lies in `[-6, 6)` degrees |
| `Draws.SwayAndTiltCover` | script.js:90-91 | every sway period in `[3, 5)` and every rotation in `[-6, 6)` is produced by some draw |
| `Draws.JitterPx` | script.js:129-130 | a sparkle lies within `[-40, 40)` px of the pointer on each axis |
| `Draws.JitterCovers` | script.js:129-130 | every offset in `[-40, 40)` px is produced by some draw |
| `Draws.ConfettiDistancePx` | script.js:164 | confetti travel lies in `[200, 350)` px |
| `Draws.ConfettiDistanceCovers` | script.js:164 | every distance in `[200, 350)` is produced by some draw |
| `Entities.NewBalloon` | script.js:36-98 | a new balloon has a palette colour and position, rise, sway and tilt in range, and its removal deadline between 8 and 14 s after the spawn, matching its rise to within 1 ms |
| `Entities.NewSparkle` | script.js:127-139 | a sparkle has a palette colour, lies within 40 px of the pointer, and is removed 900 ms after creation |
| `Entities.ConfettiParticle` | script.js:156-174 | a particle has a palette colour, a direction within one turn, a distance in `[200, 350)`, and is removed 1800 ms after the burst |
| `Entities.BurstParticles` | script.js:152-175 | the burst has exactly 60 particles with consecutive ids; particle `i` points at `i/60` of a turn, travels `[200, 350)` px and expires at 1800 ms |
| `Entities.BurstIsRadialFan` | script.js:163 | the directions start at 0, step by exactly 1/60 of a turn, are all distinct, and close the circle after the last |
| `Lifecycle.Expire` | script.js:96-98 | after the due timers fire, an entity remains exactly when its deadline is still ahead; survivors are fewer and keep increasing ids |
| `Lifecycle.ExpireAppend` | script.js:96-98 | expiry of a concatenation is the concatenation of the expiries: each entity's removal depends only on its own timer |
| `Lifecycle.ExpireNoneDue` | script.js:96-98 | entities whose deadlines have not passed are left exactly as they were |
| `Lifecycle.ExpireTwice` | script.js:96-98 | firing timers due by `t1` and then by `t2` equals firing those due by the later time |
| `Lifecycle.ExpireShrinksWithTime` | script.js:96-98 | a later clock never brings an entity back |
| `Lifecycle.ExpireAfterAppend` | script.js:93-98 | an appended entity is gone exactly when the clock reaches its deadline; the earlier children expire as they would have without it |
| `Lifecycle.BalloonLifetime` | script.js:89-98 | a spawned balloon stays at least 8 s and at most 14 s, and leaves exactly at its deadline |
| `Lifecycle.ExpireAllDue` | script.js:96-98 | once every deadline has passed the list is empty: no entity outlives its timer (balloons here, sparkles at line 139, confetti at line 174) |
| `Lifecycle.Admit` | script.js:30-34 | the gate appends the new entity exactly when the container exists and is below capacity; otherwise the list is unchanged |
| `Lifecycle.AdmitAllFillsToCapacity` | script.js:30-34 | spawns with no expiry in between fill the container to exactly its capacity, or to the number offered if smaller, and never beyond; what is added is the first offered spawns, in order, after the old children; a full or missing container takes none |
| `Lifecycle.SparkleTakesBalloonSlot` | script.js:126-138 | with one slot left, a sparkle appended first makes the next balloon be refused |
| `Schedule.InitialBatch` | script.js:105 | the initial batch is 4 when the capacity exceeds 8, 2 when it is at most 5, and 3 in between |
| `Schedule.InitialBatchPerTier` | script.js:105 | the narrow, medium and wide tiers start with 2, 3 and 4 balloons, each fewer than their capacity |
| `Schedule.StaggeredDelays` | script.js:106-108 | spawn `i` of the batch is delayed by `i` steps, and the delays strictly increase |
| `Schedule.InitialDelays` | script.js:102-108 | initial spawn `i` is at `i * SPAWN_INTERVAL / 5`, and the whole batch comes before the repeating timer's first firing |
| `Schedule.TapDelays` | script.js:111-121 | a click, or a touch with at least one touch point, schedules spawns at 0 and 180 ms; a touch with no touch point schedules none |

## Left out

- DOM construction and styling: the bulb, gloss and edge elements, the SVG string, inline styles, class names and animation strings (script.js:36-74, 127-137, 156-160). Only the numbers they carry are modelled.
- The injected fade keyframes (script.js:182-186): presentation only.
- The confetti offsets `cos(angle) * distance` and `sin(angle) * distance` (script.js:165-166): this is floating-point trigonometry. The model keeps the direction as a fraction of a turn, `i/60`, and the distance.
- The anchor's bounding box and centre (script.js:148-150): only whether the anchor is present matters.
- `Math.random` itself: each draw is a parameter in `[0, 1)`. The order of draws is recorded in the draw records, but there is no random stream.
- Floating-point rounding: all formulas use exact reals, so the model does not capture results that rounding could move across a bound.
- Event-listener and timer registration (script.js:16, 102, 111-121, 124, 179): each trigger is a method call, and the repeating timer's firings are `Scene.Spawn` calls that a caller makes every `timerPeriod` ms. The mouse-move draw test is `Draws.SparkleFires`; the probability itself is not modelled.
- Balloons.Scene.Tick: it fires all timers due by `now` at once. The order among timers due at the same instant, and their interleaving with spawns inside one tick, is not modelled. Removal does not depend on that order.
- Balloons.Scene.Sparkle: a firing handler does not check that the container exists and would fail on a missing container (script.js:126,138). The model requires the container whenever the trigger draw fires, instead of modelling that failure; non-firing moves are allowed without it.
- Balloons.Scene.constructor: the container's children at load come from the page markup, which is not part of this model. The model assumes the container starts empty; static children would count against `MAX_BALLOONS` (script.js:34).
- Late timers and animation start: a browser may run a timer callback later than its delay (a busy event loop, throttled background tabs), and a CSS animation may start a frame after the element is appended. The model fires every timer exactly when it is due and starts every animation at the spawn time.

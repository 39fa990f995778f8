# Eye-training session timer

The eye-training page moves a ball across a training area while a
once-per-second interval runs a set/rest schedule: three sets of 25 seconds
of training, each followed by 10 seconds of rest. The ball's animation loop
is stopped at the start of each rest period and restarted when training
resumes. When the third rest period ends, the interval clears itself and the
page shows a restart button. Two selectors change the ball's speed multiplier
and its motion pattern.

This project models that core in Dafny:

- `timer.dfy`, module `Timer`: the interval callback as a pure state machine
  over `currentSet`, `timeLeft`, `isResting`, an animation-running flag
  (standing for a live `animationId`) and a `complete` flag (standing for
  `clearInterval`). `Step` is one run of the callback, `Iterate` is `n` runs,
  and `At(n)` is an independent closed form of the whole schedule. The lemmas
  prove that the two agree for every `n`, so the interval is cleared after
  exactly 105 ticks and not earlier.
- `session.dfy`, module `Training`: the page's shared variables as one
  `Session` object. `Tick` is the callback written step by step, with the
  same order of assignments as the source, and is proved to perform `Step`.
  `MoveBall` is the animation start, reduced to the running flag.
  `ChangeSpeed` and `ChangePattern` are the two selector handlers.
  `RunUntilCleared` drives a fresh session the way the host's interval does
  and counts the ticks, training periods and rest periods.

The code resets `isResting` to false and `timeLeft` to 25 *before* it checks
for completion. So the final state is "set counter 4, not resting, 25 seconds,
interval cleared", and the ball stays stopped, because its animation was
cancelled when the last rest period began and is never restarted. `Final`
keeps exactly that state.

## Model

| member | source | states |
|---|---|---|
| `Timer.Initial` | script.js:41-47 | page load starts in set 1, training, 25 seconds left, animation running, not complete; this state satisfies the timer invariant |
| `Timer.Final` | script.js:117-128 | the state once the interval is cleared: complete, not resting, 25 seconds, animation stopped, set counter one past the last set |
| `Timer.DisplayedSet` | script.js:146-147 | the shown set is `min(currentSet, 3)`: never above 3, at least 1 in every invariant state, equal to the counter while the counter is at most 3, and 3 once the counter reaches 3 or more (during the last rest period the counter is 4 and the page shows 3) |
| `Timer.Step` | script.js:112-150 | a cleared interval changes nothing; otherwise the countdown drops by 1 and, if still positive, nothing else changes; an expiring training period starts resting with 10 seconds, counter + 1, animation cancelled; an expiring rest period resets to 25 seconds not resting, and either restarts the animation (counter <= 3) or completes (counter > 3); only the start of a rest period changes the counter; the invariant is preserved |
| `Timer.Iterate` | script.js:112-150 | repeated ticks keep a completed session unchanged and preserve the invariant |
| `Timer.At` | script.js:41-45 | closed form of the schedule after `n` ticks: each 35-tick cycle is 25 ticks of training then 10 of rest; complete exactly when `n >= 105`; the animation runs exactly while training and not complete; every such state satisfies the invariant |
| `Timer.StepAt` | script.js:112-150 | one tick takes the closed form at `n` to the closed form at `n + 1` |
| `Timer.IterateAt` | script.js:112-150 | `n` ticks from page load give exactly the closed-form state `At(n)`, for every `n` |
| `Timer.SessionLength` | script.js:112-150 | the session is complete after `n` ticks from page load if and only if `n >= 105` (= 3 * (25 + 10)) |
| `Timer.Schedule` | script.js:137-146 | for each set k + 1 of the three: at tick 35k it is training with 25 seconds left and the animation running; at tick 35k + 25 it is resting with 10 seconds left and the counter at k + 2 |
| `Training.SpeedFor` | script.js:68-80 | `slow` gives 0.5, `medium` 1, `fast` 2, any other value keeps the current multiplier; a positive multiplier stays positive |
| `Training.Session.constructor` | script.js:41-56 | fresh session: timer in the initial state with the animation started, speed 1, pattern `random`, both curve parameters 0 |
| `Training.Session.MoveBall` | script.js:156-182 | after cancelling any pending frame and running the first frame, the animation runs exactly when not resting |
| `Training.Session.Tick` | script.js:112-150 | the step-by-step callback leaves the timer fields in the state `Step` gives for the old ones, and preserves the object invariant |
| `Training.Session.ChangeSpeed` | script.js:68-80 | the multiplier becomes `SpeedFor(value, old multiplier)`; the timer state is unchanged; the multiplier stays positive |
| `Training.Session.ChangePattern` | script.js:83-88 | the pattern becomes the selected value and both curve parameters become 0; speed and timer state are unchanged |
| `Training.RunUntilCleared` | script.js:112-153 | driving a fresh page with ticks until the interval is cleared takes exactly 105 ticks, with three training periods and three rest periods |

## Left out

- Ball motion: the random-waypoint, infinity-curve and circle trajectories (script.js:184-225) are floating-point code using `Math.sqrt`, `Math.sin` and `Math.cos`. Only the curve parameters' reset on a pattern change is modelled.
- Random target selection (script.js:227-234) and the pixel sizes read from the page.
- Scheduling: `setInterval` becomes explicit `Tick` calls, and `requestAnimationFrame`/`cancelAnimationFrame` become the `animating` flag. Per-frame callbacks are not modelled.
- Rendering: the timer text, the set counter text, the rest indicator, `updateBallPosition` and the completion markup with its reload button (script.js:236-261). `DisplayedSet` covers the value written into the set counter.
- Category tabs and the article modal with its fixed texts (script.js:1-21, 91-107, 264-338), which are page wiring and static content.
- Pattern names: the pattern is kept as the selector's string, as in the source; the model does not restrict it to the three known patterns.

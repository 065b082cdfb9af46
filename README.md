# GolfDemo hole simulation in Dafny

This project models the simulation of one golf hole from the GolfDemo console
game. A `Course` holds the hole's configuration (length, rough, swing budget),
the swings taken on it in order, a swing counter and four end-of-game flags
(`HasEnded`, `HasWon`, `HasLost`, `IsOutOfBounds`). Each `Swing(angle,
velocity)` builds a `Swing` value, which rejects an angle outside the open
interval (0, 90) degrees and clamps a non-positive velocity to 0, then records
it, counts it and checks whether the ball is in the cup or out of bounds.

Files:

- `swing.dfy` (module `Swings`): the `Swing` value of GolfDemo/Swing.cs, its
  constructor `NewSwing`, the `AngleInRadians` and `Distance` getters, the
  `GRAVITY` constant and the facts about the distance.
- `course.dfy` (module `Courses`): the `Course` class of GolfDemo/Course.cs
  with its constructors, the side-effecting `SwingCounter` setter, the
  `DistanceTravelled` and `DistanceFromHole` getters as loops, the `Swing`
  operation and the `Tolerance` constant. It also holds the specification
  functions `Sum` and `Bounce` and the lemmas about them.
- `scenarios.dfy` (module `Scenarios`): the behaviours asserted by the
  repository's unit tests, as client methods of `Course` whose postconditions
  follow from the class's contracts alone.

Modelling decisions:

- `Math.Sin` and `Math.PI` belong to the runtime library. They are a parameter
  `Trig(pi, sin)` that each course keeps as a constant. Nothing is assumed about
  it globally. A lemma that needs a fact about the sine states it as a
  precondition: `sin(pi / 2) == 1` for the 45-degree examples, and
  "`pi > 0` and the sine is non-negative on (0, pi)" for non-negative distances.
- Numbers are exact `real`s rather than IEEE doubles. `Math.Pow(v, 2)` is `v * v`.
- The exception `AngleInvalidExeption` becomes the result `Err(AngleInvalid)`
  of `NewSwing`, and `Fail(AngleInvalid)` from `Course.Swing`. The course is
  left unchanged in that case.
- The order of checks is the source's own. The swing-budget loss is set inside
  the counter setter. Only after that do the win and out-of-bounds checks run.
  No check clears a flag set by another. So a last allowed swing that reaches
  the cup leaves both `HasWon` and `HasLost` true (`Scenarios.WinOnLastSwing`).
  Nothing in `Course.Swing` gives a win precedence over the budget loss, and
  nothing keeps `HasWon` and `HasLost` exclusive.
- `Course.Swing` has no guard against being called after the game has ended.
  The model adds none.
- The private parameterless constructor only creates the swing list. Its work
  is written out in both public constructors. Dafny does not chain constructors.

## Model

| member | source | states |
|---|---|---|
| `Swings.NewSwing` | GolfDemo/Swing.cs:58-74 | fails with `AngleInvalid` exactly when `angle >= 90` or `angle <= 0`; otherwise the swing keeps the angle, so it lies in (0, 90), and its velocity is the input when positive and 0 otherwise, hence never negative |
| `Swings.AngleInRadians` | GolfDemo/Swing.cs:27-31 | pi / 180 times the angle; for positive pi, an accepted angle converts to radians strictly between 0 and pi / 2 |
| `Swings.Distance` | GolfDemo/Swing.cs:41-47 | a swing with velocity 0 travels exactly 0, whatever the sine returns; the distance depends only on the swing's angle and velocity |
| `Swings.DistanceNonNegative` | GolfDemo/Swing.cs:41-47 | a well-formed swing travels a non-negative distance when the sine is non-negative on (0, pi) |
| `Swings.DistanceAtFortyFive` | GolfDemo/Swing.cs:41-47 | if sin(pi / 2) is 1, a 45-degree swing travels velocity^2 / 9.8, which is exactly 320 at 56 m/s |
| `Courses.Sum` | GolfDemo/Course.cs:75-84 | the distance travelled is non-negative when every swing's distance is |
| `Courses.Bounce` | GolfDemo/Course.cs:89-99 | the distance from the hole is non-negative once a swing has been taken, or if the course length is |
| `Courses.DistancesNonNegative` | GolfDemo/Course.cs:79-81 | every distance summed over a course's well-formed swings is non-negative |
| `Courses.BounceWithoutOvershoot` | GolfDemo/Course.cs:89-99 | while the swings together have not reached the cup, distance from hole equals course length minus distance travelled |
| `Courses.BounceBounds` | GolfDemo/Course.cs:89-99 | the distance from the hole lies between course length minus distance travelled and abs(course length) plus distance travelled |
| `Courses.OutOfBoundsNeedsLongSwings` | GolfDemo/Course.cs:166-170 | on a course of non-negative length the out-of-bounds test can only pass once the distance travelled exceeds the rough |
| `Courses.Course.constructor` | GolfDemo/Course.cs:110-120 | `Course(maxSwings)` starts with no swings, counter 0, all four flags false, length and rough 0, and the given budget |
| `Courses.Course.WithLength` | GolfDemo/Course.cs:128-136 | `Course(courseLength, maxSwings = 8, courseRough = 1000)` starts with no swings, counter 0, all flags false and the given configuration |
| `Courses.Course.SetSwingCounter` | GolfDemo/Course.cs:37-48 | stores the value, and sets `HasEnded` and `HasLost` when the value reaches `MaxSwings`; no flag is ever cleared |
| `Courses.Course.DistanceTravelled` | GolfDemo/Course.cs:75-84 | the loop returns the sum of the distances of the recorded swings |
| `Courses.Course.DistanceFromHole` | GolfDemo/Course.cs:89-99 | the loop returns the left fold of `x -> abs(x - d)` over the swings' distances, starting at the course length |
| `Courses.Course.Swing` | GolfDemo/Course.cs:147-171 | an invalid angle fails before any change; otherwise exactly one swing is appended with earlier ones unchanged, the counter rises by 1, then the budget loss, the win at distance <= 0.1 and else the out-of-bounds loss beyond length + rough are applied; flags only become true; the course invariant (counter equals history length, out-of-bounds implies lost and ended, won or lost implies ended, budget reached by at least one swing implies lost and ended) is kept |
| `Scenarios.CorrectDistance` | GolfDemo.Test/GolfDemoTests.cs:15-19 | one 45-degree, 56 m/s swing gives a distance travelled of 320 |
| `Scenarios.SwingCounterIncrease` | GolfDemo.Test/GolfDemoTests.cs:27-32 | any swing with a valid angle raises the counter by exactly 1 |
| `Scenarios.GameEndTooManySwings` | GolfDemo.Test/GolfDemoTests.cs:40-45 | with a budget of 1, any valid swing ends the game lost |
| `Scenarios.GameEndWin` | GolfDemo.Test/GolfDemoTests.cs:53-58 | on a 320 course, the 320 swing ends the game won and not lost |
| `Scenarios.GameEndTooFarFromGoal` | GolfDemo.Test/GolfDemoTests.cs:66-72 | on a 320 course with rough 200, a 100 m/s swing at 45 degrees ends the game lost and out of bounds, not won |
| `Scenarios.AngleOutOfRange` | GolfDemo.Test/GolfDemoTests.cs:79-96 | angles -1 and 91 both fail with `AngleInvalid` and the counter stays 0 |
| `Scenarios.ValidVelocity` | GolfDemo.Test/GolfDemoTests.cs:102-106 | a swing at -10 m/s is recorded with velocity 0 and travels 0 |
| `Scenarios.WinOnLastSwing` | GolfDemo/Course.cs:155-162 | a last allowed swing that reaches the cup leaves the game both won and lost |

## Left out

- GolfDemo/Program.cs, the console loop, is not part of this model. It covers random course generation, input parsing and printing.
- The floating-point behaviour of `Math.Sin`, `Math.Pow` and `Math.PI` is left out. Arithmetic is exact over `real`, and the sine and pi are a parameter. Equalities such as `== 320` hold only under that abstraction.
- A NaN angle is not modelled. `double.Parse` in GolfDemo/Program.cs:34 can produce one, and it fails both comparisons at GolfDemo/Swing.cs:60, so the source accepts and stores it; `real` has no NaN, so `WellFormed` places every stored angle in (0, 90).
- The public setters of the auto-properties (`HasWon`, `Swings`, `MaxSwings`, `CourseLength`, ...) are left out. They allow arbitrary external writes, so the model changes a course only through its constructors and `Swing`.
- The public setters `Angle` and `Velocity` of a `Swing` (GolfDemo/Swing.cs:22, 36) are left out. A swing is an immutable value here, so its angle stays in (0, 90) and its velocity non-negative.
- Writes through the mutable list that the `Swings` getter returns (such as `course.Swings.Add(...)`) are left out. In the model the swing history changes only by the append in `Course.Swing`.
- The `Course` back-reference stored in each `Swing` is left out. It has no behaviour, and so the distance depends on angle and velocity alone by construction.
- `SwingCounter` is a 32-bit `int` in the source. Its overflow after 2^31 swings is not modelled.
- The unit tests are not modelled as an MSTest harness. Their assertions are the `Scenarios` methods. Those are stated for any velocity and any valid angle where the outcome does not depend on the distance.

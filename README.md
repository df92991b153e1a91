# Contour tracer of touchscan.py, modelled in Dafny

`touchscan.py` drives a touch probe on a LinuxCNC machine around an unknown
object in the XY plane and logs an estimate of the object's outline. It
probes outward along +X until it touches the object. Then it walks around
the object in short probes. After each contact it turns the probing
direction to the travel direction rotated by 3π/2. After each miss it turns
the direction by 2π/`probing_segments`. Every contact is turned into an
estimated surface point, one probe radius from the contact. The run counts
a round each time a contact comes back within 1.5 probe radii of the first
estimate after having left that area. It stops after `rounds` rounds with a
release probe and a contact probe back at the start position.

The model has three modules:

- `Geometry` (geometry.dfy) holds points, `TargetPoint` (`target_point`)
  and `AddAngle` (`add_angle`). π is an abstract positive constant. cos,
  sin and atan2 are function values inside a `Trig` record. Only two
  properties of them are ever assumed: atan2 returns a value in (−π, π],
  and, for `ProjectionDistance` and `Tracer.NextTarget`, cos² + sin² = 1.
- `Closure` (closure.dfy) is the round counter of lines 126-141 as a
  pure state machine. `Observe` handles one closure verdict and `After`
  folds it over a sequence of verdicts. `AfterIsReturns` gives the
  counter's exact value, and the other lemmas bound what it can reach.
- `Tracing` (tracing.dfy) holds the run itself:
  - `Begin` is the initial outward probe and its no-contact exit.
  - The `Tracer` class holds the variables the loop reassigns. Its
    constructor is the set-up after the first contact.
  - `Tracer.Step` is one pass of the `while True` body. It takes the probe
    outcome as input and returns the motion commands it issued.
  - `Trace` runs passes over a script of outcomes until the loop would
    break.

Behaviour follows the code in these cases:

- The first contact's estimate is projected along angle 0. That is the
  outward probing direction, towards the object (touchscan.py:85). It is
  not projected along π. The working angle then becomes π, and the reverse
  of π is 0 again (the constructor's `StartedAt`). So every estimate, the first
  included, is projected opposite to the working angle that follows it.
- On a miss, `position` becomes the position the probe reports
  (touchscan.py:111). It is not kept.
- On a miss, `first` is false afterwards. If it was set, line 107 cleared
  it before the probe.
- `add_angle` corrects the sum by one full turn at most. It therefore
  normalises into [0, 2π) exactly when the sum lies in [−2π, 4π). It is not
  a general modulo. Every call in the script stays inside that range.
- The closure test compares the first *estimate* `hits[0]` with the
  newest *raw* contact. The square root is replaced by a comparison of
  squares (`NearStartIsDistanceTest`).

## Model

| member | source | states |
|---|---|---|
| `Geometry.TargetPoint` | touchscan.py:35-39 | a projection of length 0 returns the origin itself, whatever the angle |
| `Geometry.ProjectionDistance` | touchscan.py:35-39 | when cos and sin lie on the unit circle, the projected point is exactly `len` from its origin (squared distance `len*len`), so every estimate is one probe radius from its contact |
| `Geometry.AddAngle` | touchscan.py:58-64 | the result is in [0, 2π) if and only if the plain sum a+b lies in [−2π, 4π) |
| `Geometry.AddAngleCongruent` | touchscan.py:58-64 | the result is a+b, a+b−2π or a+b+2π, and it is a+b exactly when a+b is already in [0, 2π) |
| `Geometry.SweepWithinTurn` | touchscan.py:142-143 | k successive advances by a positive step from an angle in [0, 2π), covering at most a full turn, give the plain sum, reduced by 2π once if it reached 2π |
| `Geometry.SweepFullTurn` | touchscan.py:142-143 | n advances by 2π/n bring an angle in [0, 2π) back to itself exactly |
| `Geometry.SqrtComparison` | touchscan.py:129-130 | for a non-negative root s of d and a non-negative bound k, s < k holds if and only if d < k*k |
| `Closure.Observe` | touchscan.py:130-141 | after a contact, the in-start-area flag equals the contact's closure verdict; the round count grows by at most one, and by one exactly when the contact is near while the flag was false |
| `Closure.RoundsNeedDepartures` | touchscan.py:126-141 | rounds counted, plus one while outside the start area, never exceed the number of contacts that lay outside it |
| `Closure.RoundsNeedTwoHits` | touchscan.py:126-141 | twice the rounds counted, plus one while outside the start area, never exceed the number of contacts seen |
| `Closure.NoRoundWithoutDeparture` | touchscan.py:126-141 | because the flag starts true, a positive round count implies some contact lay at 1.5 probe radii or more from the first estimate |
| `Closure.StayingNearCountsNothing` | touchscan.py:126-141 | contacts that all stay near the first estimate leave the counter at zero rounds, inside the start area |
| `Closure.AfterIsReturns` | touchscan.py:126-141 | for every sequence of closure verdicts, the round count is the number of near verdicts that directly follow a far one, and the in-start-area flag is the latest verdict (true before any contact) |
| `Closure.LeaveAndReturn` | touchscan.py:126-141 | one far contact followed by one near contact completes exactly one more round and ends inside the start area |
| `Tracing.Config.SweepStep` | touchscan.py:143 | the turn applied on a miss, 2π/`probing_segments`, is positive and at most a full turn |
| `Tracing.Config.ProbeLen` | touchscan.py:77 | the forward probe length is `probing_radius` times the miss turn 2π/`probing_segments`: one arc of the nominal circle per sweep step, non-negative for a non-negative radius |
| `Tracing.ScriptIsValid` | touchscan.py:73-77 | the script's constants satisfy the configuration's assumptions, and the forward probe length is π/20 |
| `Tracing.MissesComeFullCircle` | touchscan.py:142-143 | `probing_segments` misses in a row turn the probing direction through a full turn, back to the angle it started from |
| `Tracing.NearStartIsDistanceTest` | touchscan.py:127-130 | the squared-distance closure test `NearStart` agrees with the script's test `sqrt(dx²+dy²) < 1.5·probe_radius` |
| `Tracing.HitAngles` | touchscan.py:119-123 | for any atan2 result in (−π, π], the new probing angle (rotated by 3π/2) and the estimate angle (that plus π) both lie in [0, 2π) |
| `Tracing.Tracer.constructor` | touchscan.py:85-93 | after the first contact: `hits` holds the contact projected along angle 0, which is the reverse of the new working angle π, `first` and `in_start_area` are set, `round` is 0, and `prev_hit` and `position` are the contact |
| `Tracing.Tracer.Emit` | touchscan.py:50-56 | appends exactly one element, the estimate one probe radius from the contact along the given angle, and keeps every earlier entry |
| `Tracing.Tracer.NextTarget` | touchscan.py:96 | the point the next pass probes towards lies exactly one forward probe length from the current position (squared distance `probe_len²`) when cos and sin lie on the unit circle |
| `Tracing.Tracer.Step` | touchscan.py:95-143 | the commands are a positioning move if `first` was set, then a probe towards `target_point(position, probe_len, angle)`, then, if the last round just closed, a release probe and a contact probe at the start position. `position` becomes the probe result. A miss turns the angle by the sweep step, leaves `first` false and changes nothing else. A contact sets the angle from atan2 rotated by 3π/2, appends the estimate along that angle plus π, sets `first` and `prev_hit`, and moves the round counter by one closure verdict. The loop is finished exactly when `round == rounds`, and the invariant (angle in [0, 2π), round ≤ rounds) is kept |
| `Tracing.Tracer.OnHit` | touchscan.py:112-141 | the contact branch: the new angle, the appended estimate, `first`, `prev_hit` and the closure verdict of the contact against `hits[0]` |
| `Tracing.Tracer.CountClosure` | touchscan.py:130-141 | applies one closure verdict to `round` and `in_start_area` as `Closure.Observe` does, and sets `finished` exactly when `round` reaches `rounds` |
| `Tracing.Begin` | touchscan.py:79-83 | issues one contact probe at `initial_probe_len` along angle 0 from the start; without contact there is no run, and with contact a tracer starts at that contact |
| `Tracing.Verdicts` | touchscan.py:112-130 | a script of probe outcomes yields exactly one closure verdict per contact; misses yield none |
| `Tracing.Trace` | touchscan.py:95-143 | runs passes until the loop breaks or the outcomes run out, and no earlier pass had counted the last round, so `used` is the pass at which the loop broke. Each contact adds one estimate and earlier estimates stay unchanged. The closure verdicts recorded are exactly those of the contacts used, each raw contact tested against the first estimate, so for a run from the first contact the round count is the number of contacts back near the first estimate right after one away from it. A finished run ends with the release and contact probes at the start, and no release probe is issued anywhere else |

## Left out

- LinuxCNC interaction is left out: `ok_for_mdi` (touchscan.py:20-26), `get_position` (28-33), the MDI mode switch (66-67) and the waiting in `probe_to` (41-48). The start position and every probe outcome are inputs. A probe or move appears only as a `Command` value.
- The feed rate `probe_speed` and the G-code text of each command are not modelled. These are I/O formatting.
- The log file is not modelled: its opening, the formatted `estimated … hitpos … angle …` line, the flush (touchscan.py:11-13, 53-55) and every `print`. The model keeps only the in-memory `hits` list.
- The unreachable `if False:` branch (touchscan.py:99-103) is not modelled.
- Floating point is modelled with exact reals. The actual values of cos, sin, atan2 and sqrt are not modelled.
- The model does not claim that the `while True` loop terminates. Whether it ever closes a round depends on the physical object. `Trace` runs only as many passes as it is given outcomes.
- `Tracing.Config.Valid` assumes `rounds >= 1` and `probing_segments >= 1`, as the script's values 5 and 20 are. With `rounds == 0` the script would never break, because it tests `round == rounds` only right after an increment.
- Tracing.Trace: for a whole scripted run it states the estimates' count and prefix, the closure verdicts and round count, and the final commands; the angle and position after each pass are stated only by `Tracing.Tracer.Step`.

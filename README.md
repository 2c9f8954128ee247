# Twilight light transitions: a Dafny model

This project models the scheduling and light-curve logic of a home-automation script. Near dawn and near sunset, the script fades a smart light between dim/warm and full/cool. It does this by sending voice commands to a cloud assistant. The model covers the deterministic core of `main.py`:

- **Window selection** (module `SunWindow`, `sun.dfy`). The script gets today's and tomorrow's dawn, sunrise, sunset and dusk. Relative to the current instant, it picks the next dawn/sunrise pair and the next sunset/dusk pair, then arms a dawn→sunrise window and a dusk→sunset window.
- **Light curve** (module `Curve`, `curve.dfy`). `get_ratio` maps a window and an instant to an eased progress ratio using a half-sine. `get_light_brightness` and `get_light_temperature` map that ratio onto an integer brightness in [1, 100] and a colour temperature in [1000, 10000] K.
- **Transition loop** (module `Transition`, `transition.dfy`). `run_light` starts at the earlier endpoint. Each round it sleeps, reads the clock and adjusts the light, until the reading reaches the later endpoint. It then adjusts once more. `perform_light_adjust` computes the two levels for one tick.

Modelling choices:

- Instants are integer timestamps.
- Floating point is replaced by exact reals. `math.radians` multiplies by the rational constant `Pi` (3.141592653589793, the value of `math.pi`).
- `math.sin` is a parameter `sin: real -> real`. All the model knows about it is `SineLaws`: its values lie in [-1, 1], sin(π/2) = 1, sin(3π/2) = −1 and sin(5π/2) = 1.
- Two lemmas also need the sine's shape. `RatioFollowsTime` assumes the sine rises on [3π/2, 5π/2] and falls on [π/2, 3π/2]. `ReversedWindowMirrors` assumes sin(x + π) = −sin(x). Each lemma states these facts in its own `requires`.
- Python's `int()` is truncation toward zero (`Curve.Trunc`). It truncates the affine level (`main.py:71`, `main.py:80`); the level is not rounded.
- The wall clock is the sequence of readings `run_light` takes after each sleep. `RunLight` requires that some reading is at or past the window's later endpoint. Without that, the source loop never ends.
- A window with `start == end` makes `get_ratio` divide by zero, so every operation over a window requires `start != end`.

## Model

| member | source | states |
|---|---|---|
| `SunWindow.NextSun` | main.py:156-163 | dawn and sunrise are taken from the same day: today's exactly when `now` is before today's dawn, otherwise tomorrow's. Sunset and dusk are taken from the same day: today's exactly when `now` is before today's sunset, otherwise tomorrow's |
| `SunWindow.NextSunIsUpcoming` | main.py:158-163 | on days ordered dawn < sunrise < sunset < dusk, with tomorrow later than today and `now` before tomorrow's dawn: the chosen dawn and sunset lie after `now`, each is the earliest such instant of the two days, and each chosen pair is in day order |
| `SunWindow.EveningKeyedOnSunset` | main.py:162-163 | between today's sunset and today's dusk, the chosen dusk is already tomorrow's even though today's dusk has not passed; the choice is keyed on sunset |
| `SunWindow.SunriseWindow` | main.py:174 | the morning window runs from dawn to sunrise; on an ordered day it is not inverted, its earlier endpoint is dawn and its later endpoint is sunrise |
| `SunWindow.SunsetWindow` | main.py:175 | the evening window runs from dusk to sunset; on an ordered day it is inverted, its earlier endpoint is sunset and its later endpoint is dusk |
| `SunWindow.WindowsStartAhead` | main.py:174-175 | the earlier endpoint of each window, where `run_light` starts (main.py:119), is the selected dawn (sunset), which lies after `now`; the morning window brightens and the evening window dims |
| `Curve.Progress` | main.py:52-58 | normalised progress is at most 1; it is non-negative exactly when `now` is at or after the earlier endpoint (there is no lower clamp); it is 0 at the earlier endpoint and 1 at or past the later one |
| `Curve.ProgressMonotone` | main.py:55-58 | progress never decreases as `now` increases |
| `Curve.PhaseAtEndpoints` | main.py:60 | the sine's argument is π/2 (inverted) or 3π/2 at the earlier endpoint, and 3π/2 (inverted) or 5π/2 at or past the later one |
| `Curve.GetRatio` | main.py:45-62 | for every `now` the ratio is in [0, 1]; at the earlier endpoint it is 0 (1 when inverted); at or past the later endpoint it is 1 (0 when inverted) |
| `Curve.ClampedAbove` | main.py:55 | any `now` at or past the later endpoint gives the same progress and ratio as the later endpoint itself |
| `Curve.SwapChangesOnlyOffset` | main.py:50-60 | swapping start and end leaves progress unchanged, flips the inversion flag, and moves the phase by exactly half a turn |
| `Curve.ReversedWindowMirrors` | main.py:50-62 | if sin(x + π) = −sin(x), a window and its reverse give ratios that sum to 1 |
| `Curve.RatioFollowsTime` | main.py:57-62 | if the sine rises on [3π/2, 5π/2] and falls on [π/2, 3π/2], then from the earlier endpoint onward the ratio never decreases in time for a non-inverted window and never increases for an inverted one |
| `Curve.Trunc` | main.py:71 | `int()` truncates toward zero: for x ≥ 0 the result is the largest integer ≤ x; for x < 0 it is the smallest integer ≥ x |
| `Curve.LevelInRange` | main.py:65-80 | a ratio in [0, 1] maps to a level in [lo, hi]; ratio 0 gives lo and ratio 1 gives hi |
| `Curve.LevelMonotone` | main.py:65-80 | a larger ratio never gives a smaller level |
| `Curve.LevelTruncates` | main.py:71 | for a non-negative ratio, the level is the affine value rounded down |
| `Curve.LevelsTruncateNotRound` | main.py:65-80 | ratio 0.01 gives brightness 1 (affine value 1.99) and ratio 0.0001 gives 1000 K (affine value 1000.9); rounding would give 2 and 1001 |
| `Curve.GetLightTemperature` | main.py:65-71 | temperature is in [1000, 10000]; it is 1000 at the start of a sunrise and 10000 at its end, and the reverse for a sunset |
| `Curve.GetLightBrightness` | main.py:74-80 | brightness is in [1, 100]; it is 1 at the start of a sunrise and 100 at its end, and the reverse for a sunset |
| `Transition.PerformLightAdjust` | main.py:105-107 | one adjustment's brightness and temperature are both in range; at the earlier endpoint it sets the start state, and at or past the later endpoint the end state (full daylight after sunrise, full dim after sunset) |
| `Transition.FirstReading` | main.py:120-123 | the loop stops at the first clock reading at or past the later endpoint: every earlier reading is before it |
| `Transition.RunLight` | main.py:118-127 | at least one tick runs; the adjusted instants are exactly the clock readings up to and including the first one at or past the later endpoint, followed by one more adjustment at that same reading |
| `Transition.FinalAdjustmentIsEndState` | main.py:126-127 | the last adjustment of a transition sets the window's end state, however far the last tick overshot the end |

## Left out

- `run_command` (main.py:24-42) and `assistant/pushtotalk.py`: the assistant session pool, gRPC streaming, OAuth credentials, temporary audio files, speech recognition and the retry decorator. These are I/O and foreign calls.
- The concurrency in `set_brightness`, `set_temp` and `perform_light_adjust` (main.py:83-115): two asyncio tasks and executor calls. One adjustment is a single `Levels` value, and the command strings and console lines are not modelled.
- `Transition.RunLight`: the 60-second sleep (`SLEEP_SECONDS`) is not modelled. The readings are given directly, so the model does not say that consecutive readings are at least a poll interval apart.
- `Transition.RunLight`: the loop is modelled only for clocks that reach the window's later endpoint. A clock that never does would make the source loop forever.
- `Curve.GetRatio`: IEEE rounding of `math.sin`, `math.radians` and the division is not modelled. Exact reals show the curve's shape, but not values such as a float ratio just below 1 that would truncate brightness to 99.
- `Curve.RatioFollowsTime` and `Curve.ReversedWindowMirrors` hold only for a sine with the extra properties named in their `requires`. The four laws of `SineLaws` do not determine the curve between its endpoints.
- The astronomy computation `sun(...)` (main.py:144-154), time zones, and the `timesched` one-shot timers keyed by time of day (main.py:173-177) are not modelled, nor are the unbounded daily loop and the console output (main.py:130-171). Each day's instants are an input record.

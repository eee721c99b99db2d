# VoIP network simulator: call-quality scorer, sample generator and tick driver

This project is a Dafny model of the computing core of the `VoIPNetworkSimulator` React
component (`src/App.jsx`). The model has four modules:

- `JsMath` (`jsmath.dfy`) covers the JavaScript number operations the core uses, over exact
  reals: `Math.max`, `Math.min`, `Math.round` and `parseFloat(x.toFixed(d))`.
  `Math.round(x)` is `floor(x + 0.5)`. `toFixed` rounds the magnitude to the nearest multiple
  of 10^-d, a tie going to the larger magnitude.
- `Scoring` (`scoring.dfy`) covers `calculateMOS` and `getQualityColor`.
  - The R-factor starts at 93.2. It loses 0.2 per ms of delay above 150 ms, 25 per percent of
    loss and 0.1 per ms of jitter. It gains 5 with QoS and is clamped to [0, 100].
  - The R-factor is turned into a MOS by the R-to-MOS mapping of Annex B of ITU-T
    Recommendation G.107. The MOS is clamped to [1, 5] and labelled Excellent, Good, Fair,
    Poor or Bad at 4.0, 3.5, 3.0 and 2.0.
  - `Score` is the specification function. `CalculateMOS` is the method that makes the
    source's sequential assignments, its two dead guards and its two identical polynomial
    branches. It is proved to equal `Score`.
  - The QoS flag, which the source reads from the component's settings, is a parameter.
- `Sampling` (`sampling.dfy`) covers the deterministic part of `generateNetworkData`:
  - the QoS scaling of loss (x0.3) and jitter (x0.5);
  - the random latency penalty, which only applies without QoS;
  - the copied bandwidth, the 64 kbps voice bandwidth and the time stamp.
  The values of `Math.sin(time / 10)` and the four `Math.random()` draws are a `Draws`
  parameter. `DrawsInRange` states their ranges.
- `Simulator` (`simulator.dfy`) is the component state as the class `VoipSimulator`, with
  the fields `isRunning`, `currentTime`, `networkData` and `callQuality`.
  - `Tick` is the interval callback. Its history half is the method `Advance`.
  - `Toggle` is the start/stop button. `Reset` is `reset`.
  - The ghost field `stream` records every sample appended since the last reset.
  - `Valid()` ties the history to the last 30 entries of `stream`. It also ties the
    counter to the length of `stream`, and states that the stamps of `stream` run
    1, 2, 3, ... in order.

Two facts about the scorer come out of the proofs:

- The G.107 polynomial drops below 1 near R = 5 (about 0.992). So the MOS clamp to 1 at
  line 47 does take effect (`MosPolynomialDipsBelowOne`). On [0, 100] the polynomial never
  exceeds 4.5, so the clamp to 5 never takes effect (`MosPolynomialAtMost`).
- `status` is computed from the unrounded MOS. The page colours both the shown MOS and the
  status by the rounded MOS (`getQualityColor(callQuality.mos)`, src/App.jsx:415-419).
  - Example: loss 0.55 %, delay 20 ms and jitter 1.5 ms without QoS give R = 79.3 and a
    MOS of 3.99727....
  - That MOS is shown as 4 and labelled Good, in the colour of Excellent
    (`StatusAndColorCanDisagree`).
  - The model keeps the source's behaviour.

Two further facts about the code, which the model keeps:

- `CalculateMOS` keeps the source's two guards and its two identical polynomial branches
  (src/App.jsx:41-45).
- `generateNetworkData` does not clamp the settings (src/App.jsx:59-74). Its bounds rely on
  the slider ranges (`SampleRanges`).

## Model

| member | source | states |
|---|---|---|
| `JsMath.Max` | src/App.jsx:39 | `Math.max`: the result is one of the arguments and at least both |
| `JsMath.Min` | src/App.jsx:47 | `Math.min`: the result is one of the arguments and at most both |
| `JsMath.Round` | src/App.jsx:56 | `Math.round`: the result lies in (x - 0.5, x + 0.5], a half rounded up |
| `JsMath.RoundHalfAway` | src/App.jsx:56 | the whole number `toFixed` writes for an already scaled value v: the unique integer in (v - 0.5, v + 0.5] for v >= 0 and in [v - 0.5, v + 0.5) for v < 0, so a tie goes to the larger magnitude |
| `JsMath.ToFixed1` | src/App.jsx:70 | `parseFloat(x.toFixed(1))` is a whole number of tenths, the nearest one to x, a tie going to the larger magnitude; not negative for a non-negative x |
| `JsMath.ToFixed2` | src/App.jsx:69 | `parseFloat(x.toFixed(2))` is a whole number of hundredths, the nearest one to x, a tie going to the larger magnitude; not negative for a non-negative x |
| `Scoring.ClampR` | src/App.jsx:39 | the clamped R lies in [0, 100]: it is 0 below the range, 100 above it, and R itself inside it |
| `Scoring.ClampMos` | src/App.jsx:47 | the clamped MOS lies in [1, 5]: it is 1 below 1, 5 above 5, and the MOS itself inside [1, 5] |
| `Scoring.Score` | src/App.jsx:25-57 | the returned mos, rounded to two decimals, lies in [1, 4.5] and the rounded rFactor in [0, 100] |
| `Scoring.CalculateMOS` | src/App.jsx:25-57 | the sequential computation, including the dead guards and the duplicated branch, returns exactly `Score`: mos in [1, 5] and rFactor in [0, 100] |
| `Scoring.RFactorNonIncreasing` | src/App.jsx:28-33 | raising delay, loss or jitter never raises the unclamped R |
| `Scoring.DelayFreeUpTo150` | src/App.jsx:28-30 | any two delays up to 150 ms give the same R |
| `Scoring.DelaySlopeFrom150` | src/App.jsx:28-30 | from 150 ms on, R drops by exactly 0.2 per ms of extra delay |
| `Scoring.QosBonusExact` | src/App.jsx:35-39 | with QoS the unclamped R is exactly 5 higher; the clamped and the rounded R are never lower |
| `Scoring.MosGuardsDead` | src/App.jsx:39-45 | after the clamp neither `rFactor < 0` nor `rFactor > 100` holds, and the conversion is the single polynomial |
| `Scoring.MosPolynomialAtMost` | src/App.jsx:44-47 | on [0, 100] the polynomial is at most 4.5, so the clamp to 5 never binds |
| `Scoring.MosPolynomialDipsBelowOne` | src/App.jsx:44-47 | at R = 5 the polynomial is below 1 and the clamp lifts the MOS to 1 |
| `Scoring.ClampedMosRange` | src/App.jsx:39-47 | the clamped MOS of any input lies in [1, 4.5] |
| `Scoring.StatusBands` | src/App.jsx:49-54 | each label holds exactly on its band: Excellent iff mos >= 4, Good iff 3.5 <= mos < 4, and so on down to Bad iff mos < 2 |
| `Scoring.StatusMonotone` | src/App.jsx:49-54 | a larger MOS never gets a worse label |
| `Scoring.QualityColor` | src/App.jsx:107-113 | `getQualityColor` uses the label thresholds: the colour of a MOS is the colour of that MOS's label |
| `Scoring.StatusAndColorCanDisagree` | src/App.jsx:49-56 | for loss 0.55, delay 20, jitter 1.5 without QoS, mos rounds to 4.0 while status is Good, so the shown colour is not Good's |
| `Scoring.IdealLineScores` | src/App.jsx:25-57 | zero loss, delay and jitter score {4.41, 93, Excellent} without QoS and {4.48, 98, Excellent} with it |
| `Sampling.DefaultSettingsInUiRange` | src/App.jsx:10-16 | the initial settings lie within the slider ranges |
| `Sampling.GenerateNetworkData` | src/App.jsx:59-74 | the sample carries the given time, the configured bandwidth and 64 kbps of voice; for in-range draws the load lies in [10, 60] and loss, jitter and latency lie in their noise bands around the QoS-scaled settings |
| `Sampling.QosScaling` | src/App.jsx:61-63 | with QoS, loss and jitter start from 0.3x and 0.5x the settings and the sample does not depend on the latency draw; without QoS they start from the settings and latency gets 10 x the draw |
| `Sampling.QosNeverWorsens` | src/App.jsx:61-71 | for non-negative settings and the same draws, QoS never gives a higher loss, jitter or latency |
| `Sampling.SampleRanges` | src/App.jsx:60-71 | settings within the slider ranges give load in [10, 60], loss in [0, 10.5], jitter in [0, 52] and latency in [10, 210] |
| `Simulator.Window` | src/App.jsx:85-86 | `slice(-30)` keeps min(n, 30) entries, and they are a suffix of the input |
| `Simulator.WindowOfAppend` | src/App.jsx:85-86 | appending and trimming gives min(n + 1, 30) entries: the new sample is last, and before it come the kept old entries in their order |
| `Simulator.WindowAppend` | src/App.jsx:84-87 | trimming after each append equals trimming the whole appended stream once |
| `Simulator.StampedAppend` | src/App.jsx:81-85 | appending the sample stamped n + 1 to a stream stamped 1..n keeps the stamps in order |
| `Simulator.WindowStamps` | src/App.jsx:80-92 | the window of a stream stamped 1..n holds the consecutive stamps n-len+1..n, e.g. ticks 6..35 after 35 ticks |
| `Simulator.VoipSimulator.constructor` | src/App.jsx:7-21 | starts stopped, at time 0, with no history and quality {4.5, 85, Excellent} |
| `Simulator.VoipSimulator.Advance` | src/App.jsx:80-87 | the counter rises by 1; the history becomes the window of old ++ [the sample stamped with the new count]; the stamps stay consecutive |
| `Simulator.VoipSimulator.Tick` | src/App.jsx:80-92 | the effect of `Advance`, and the quality becomes the score of the new sample's loss, latency and jitter |
| `Simulator.VoipSimulator.Toggle` | src/App.jsx:385 | flips `isRunning` and changes nothing else |
| `Simulator.VoipSimulator.Reset` | src/App.jsx:100-105 | from any state: stopped, time 0, empty history and quality {4.5, 85, Excellent} |

## Left out

- `Math.random()` and `Math.sin(time / 10)` (src/App.jsx:60-70) are not computed. They are the
  `Draws` parameter, with ranges stated by `DrawsInRange`.
- IEEE-754 double arithmetic is not modelled. Every value is an exact `real`, and `toFixed` and
  `Math.round` are modelled as exact decimal rounding. An error in the last bit of a double
  that could move a rounding tie is not modelled.
- The slider and checkbox handlers that replace `settings` (src/App.jsx:311-370) are not
  modelled. `Tick` takes the settings snapshot of its closure as a parameter.
- `setInterval`, the 500 ms period and the re-subscription of the effect on settings changes
  (src/App.jsx:76-98) are scheduling. `Tick` requires `isRunning`, because the interval
  exists only while the simulator runs (line 78).
- React's state-update machinery is not modelled. This includes the batching of the three
  setters inside the `setCurrentTime` updater and its double invocation in development mode.
- The MOS is not proved to rise with R, and so it is not proved to fall as loss rises. That
  needs reasoning about the cubic polynomial, which the code does not assert.
- `getQualityIcon`, `NetworkTopology` and all JSX, SVG and chart rendering
  (src/App.jsx:115-577) are presentation.
- vite.config.js is build configuration. It is not part of this model.

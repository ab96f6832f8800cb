# ADCP QARTOD quality control, modelled in Dafny

This project models the real-time quality-control core of a TRDI acoustic
Doppler current profiler (ADCP) processor that follows the QARTOD manual for
in-situ current observations. It has two parts.

- `qartod_tests.dfy`, module `QartodTests`, is the library of tests. Each test
  maps the readings of one ensemble to the quality flags `good` (1),
  `no_test` (2), `suspect` (3), `bad` (4) and `missing_data` (9). The
  readings are either scalars (tilt, sound speed, status) or one value or
  beam vector per depth bin. Constant tests and scalar tests are functions.
  Each vector test is a method whose loop builds the flag list one append
  at a time, as the source does. Every such method is proved equal, index by
  index, to a rule function that classifies one bin or one pair of adjacent
  bins. Its output length is proved too: one flag per element, the shorter
  list for the paired tests, and `max(1, n)` for the two differential tests.
  Those two start with a synthetic `good`. Beam counting uses one counting
  function, `CountTrue`, over per-beam indicator sequences. Lemmas connect
  each count to a plain logical statement: no beam, every beam, exactly one
  beam, two different beams.
- `trdi.dfy`, module `Trdi`, is the single-ensemble session `TRDIQAQC`. It is
  a class:
  - its constructor reads the velocity columns into the lists `u`, `v`, `w`,
    `z`, `currentSpeed` and `currentDirection`;
  - it then scans adjacent echo-intensity bins for the bottom;
  - it stores the cut-offs `bottomStats`, `lastGoodBin` and
    `lastGoodCounter`.

  Both steps are methods with loops. They are proved against a reference
  definition of the bottom bin (`BottomBin`), which is unique, and against
  the geometry function `ComputeBottomStats`. Each accessor cuts the per-bin
  data at a cut-off with Python's literal `xs[:k]` semantics (`PrefixSlice`)
  and hands it to the library. Each accessor contract says which bins are
  flagged and by which rule.

Numbers are modelled as follows. Correlations, percent-good counters, echo
intensities, sound speed and the raw leader fields are `int`. Echo
intensities are taken to be Python integers, so `int(...)` at
`adcp_qartod_qaqc/tests.py:278` is the identity and the differences at
`adcp_qartod_qaqc/trdi.py:89` and `adcp_qartod_qaqc/tests.py:278` cannot
wrap. Velocities, speeds, directions and tilts are `real`. The distance to
the first bin (`Bin1Distance`) is an `int`: the division at
`adcp_qartod_qaqc/trdi.py:101` is between two integers, Python 2 rounds it
down, and Dafny's `/` does the same for the positive divisor 100. Only the
range to the bottom (`RangeToBottom`) is `real`. `int(...)` of a float
becomes `Truncate`, which rounds toward zero.

In these places the model keeps the code's literal behaviour:

- `last_good_counter` is not clamped at zero, and `xs[:k]` with a negative
  `k` drops the last `-k` bins instead of returning nothing. See
  `PrefixSliceCutoff` and `ComputeBottomStats`.
- Sibling lists of different lengths are paired up to the shorter one, as
  `izip` does. They are not rejected.
- The current-speed accessor never passes on its `max_speed` argument, and
  the echo-intensity accessor never passes on its `tolerance`. The test
  defaults (150 and 2) therefore always apply.
- The speed-gradient accessor uses the full, uncut speed list.

## Model

| member | source | states |
|---|---|---|
| `QartodTests.Code` | adcp_qartod_qaqc/tests.py:14-20 | every flag reports one of the codes 1, 2, 3, 4, 9 |
| `QartodTests.CodeInjective` | adcp_qartod_qaqc/tests.py:14-20 | two flags have the same code only when they are the same flag |
| `QartodTests.BatteryFlagTest` | adcp_qartod_qaqc/tests.py:23-31 | `no_test` whatever the ensemble |
| `QartodTests.ChecksumTest` | adcp_qartod_qaqc/tests.py:34-42 | `good` whatever the ensemble |
| `QartodTests.BitTest` | adcp_qartod_qaqc/tests.py:45-53 | `good` exactly when the status reads `"0"`, otherwise `bad` |
| `QartodTests.OrientationTest` | adcp_qartod_qaqc/tests.py:56-66 | `good` exactly when both `abs(pitch) < max_pitch` and `abs(roll) < max_roll`, both strict; otherwise `bad` |
| `QartodTests.SoundSpeedTest` | adcp_qartod_qaqc/tests.py:69-78 | `good` exactly when `min <= ssv <= max`, both ends included; otherwise `bad` |
| `QartodTests.ScalarDefaults` | adcp_qartod_qaqc/tests.py:56-78 | with the defaults a tilt of exactly 20 degrees is bad, and 1400 and 1600 m/s are good while 1399 and 1601 are bad |
| `QartodTests.NoiseFloorTest` | adcp_qartod_qaqc/tests.py:81-87 | `no_test` whatever the ensemble |
| `QartodTests.SignalStrengthFlag` | adcp_qartod_qaqc/tests.py:90-96 | `no_test` whatever the ensemble |
| `QartodTests.SignalToNoiseTest` | adcp_qartod_qaqc/tests.py:99-105 | `no_test` whatever the ensemble |
| `QartodTests.AtLeast` | adcp_qartod_qaqc/tests.py:119-121 | one indicator per beam: the beam reaches `good_tolerance` |
| `QartodTests.InBand` | adcp_qartod_qaqc/tests.py:119-123 | one indicator per beam: the beam is below `good_tolerance` and reaches `suspect_tolerance` |
| `QartodTests.CorrelationBinFlag` | adcp_qartod_qaqc/tests.py:127-132 | the flag of one bin is good, suspect or bad, and an empty bin is never bad |
| `QartodTests.CorrelationMagnitudeTest` | adcp_qartod_qaqc/tests.py:108-134 | exactly one flag per bin, in order. Each bin's flag comes from its three beam counts, and the loop counters equal those counts |
| `QartodTests.CorrelationGoodIff` | adcp_qartod_qaqc/tests.py:127-128 | a bin is `good` exactly when every beam is `>= good_tolerance` (so an empty bin is good) |
| `QartodTests.CorrelationSuspectIff` | adcp_qartod_qaqc/tests.py:118-132 | if `suspect_tolerance <= good_tolerance`: a bin is `suspect` exactly when some beam is below `good_tolerance` and at least 3 beams are `>= suspect_tolerance` |
| `QartodTests.CorrelationExamples` | adcp_qartod_qaqc/tests.py:108-134 | with the defaults [120,120,120,120] is good, [120,120,70,70] suspect, [10,10,10,10] bad |
| `QartodTests.PercentGoodFlag` | adcp_qartod_qaqc/tests.py:149-155 | the flag of one bin is good, suspect or bad, and good exactly when the counter sum reaches `percent_good` |
| `QartodTests.PercentGoodTest` | adcp_qartod_qaqc/tests.py:137-157 | output length is `min(len(a), len(b))`; flag i classifies `a[i] + b[i]` |
| `QartodTests.PercentGoodOutcomes` | adcp_qartod_qaqc/tests.py:149-155 | sum `>= percent_good` is good; otherwise `<= percent_bad` is bad; suspect exactly strictly between (when `percent_bad < percent_good`) |
| `QartodTests.PercentGoodDefaults` | adcp_qartod_qaqc/tests.py:137-157 | with the defaults sum 21 is good, 17 bad, 19 suspect |
| `QartodTests.SpeedFlag` | adcp_qartod_qaqc/tests.py:169-172 | bad exactly when the speed exceeds `max_speed`, otherwise good |
| `QartodTests.CurrentSpeedTest` | adcp_qartod_qaqc/tests.py:160-174 | one flag per speed; `good` exactly when `speed <= max_speed`, else `bad` |
| `QartodTests.AdjustedDirection` | adcp_qartod_qaqc/tests.py:187-188 | the direction is kept or moved up by exactly 360; anything from -360 up ends non-negative; a non-negative direction is kept |
| `QartodTests.DirectionFlag` | adcp_qartod_qaqc/tests.py:187-193 | good or bad, and every negative direction is good |
| `QartodTests.DirectionMeaning` | adcp_qartod_qaqc/tests.py:185-193 | -10 becomes 350, [0,360) is unchanged, [-360,0) lands in [0,360), values above 360 are never reduced; so a direction is good exactly when it is `<= 360` |
| `QartodTests.CurrentDirectionTest` | adcp_qartod_qaqc/tests.py:177-195 | one flag per direction, each by the adjust-then-compare rule |
| `QartodTests.HorizontalVelocityFlag` | adcp_qartod_qaqc/tests.py:209-212 | good exactly when `-max_u <= u <= max_u` and `-max_v <= v <= max_v`, otherwise bad |
| `QartodTests.HorizontalVelocityTest` | adcp_qartod_qaqc/tests.py:198-214 | output length `min(len u, len v)`; `bad` exactly when `abs(u) > max_u` or `abs(v) > max_v` |
| `QartodTests.VerticalVelocityFlag` | adcp_qartod_qaqc/tests.py:226-229 | good exactly when `-max_w <= w <= max_w`, otherwise bad |
| `QartodTests.VerticalVelocityTest` | adcp_qartod_qaqc/tests.py:217-231 | one flag per value; `good` exactly when `abs(w) <= max_w` |
| `QartodTests.VerticalVelocityDefaults` | adcp_qartod_qaqc/tests.py:217-231 | with the default 15, -15 and 15 are good and 16 and -15.5 are bad |
| `QartodTests.ErrorVelocityFlag` | adcp_qartod_qaqc/tests.py:246-251 | good exactly below the suspect limit, bad exactly at or above both limits, suspect otherwise |
| `QartodTests.ErrorVelocityOutcomes` | adcp_qartod_qaqc/tests.py:234-253 | with the defaults: below 2.6 good, [2.6, 5.2) suspect, from 5.2 up bad; no absolute value, so every negative error velocity is good |
| `QartodTests.ErrorVelocityTest` | adcp_qartod_qaqc/tests.py:234-253 | one flag per error velocity, each by the signed two-threshold rule |
| `QartodTests.StuckSensorTest` | adcp_qartod_qaqc/tests.py:256-265 | `no_test` whatever the ensemble |
| `QartodTests.EchoShortfalls` | adcp_qartod_qaqc/tests.py:277-279 | one indicator per beam pair, up to the shorter bin: the echo falls by less than `tolerance` |
| `QartodTests.EchoPairFlag` | adcp_qartod_qaqc/tests.py:276-287 | good, suspect or bad, and never bad when fewer than two beams are paired |
| `QartodTests.EchoPairMeaning` | adcp_qartod_qaqc/tests.py:276-287 | a bin is good when every beam falls by at least `tolerance` from the previous bin, suspect when exactly one beam does not, and bad when two different beams do not (beams paired up to the shorter bin) |
| `QartodTests.EchoIntensityTest` | adcp_qartod_qaqc/tests.py:268-289 | output length `max(1, n)`; first flag good; flag i+1 classifies bin i+1 against bin i, and the loop counter equals the beam count |
| `QartodTests.Below` | adcp_qartod_qaqc/tests.py:303-305 | one indicator per beam: the beam is below `drop_off_limit` |
| `QartodTests.RangeDropOffFlag` | adcp_qartod_qaqc/tests.py:302-310 | good or bad, and a bin with fewer than two beams is good |
| `QartodTests.RangeDropOffBadIff` | adcp_qartod_qaqc/tests.py:300-310 | a bin is bad exactly when two different beams are below `drop_off_limit` |
| `QartodTests.RangeDropOffTest` | adcp_qartod_qaqc/tests.py:292-312 | one flag per bin; bad when the below-limit count is at least 2, else good |
| `QartodTests.GradientFlag` | adcp_qartod_qaqc/tests.py:325-329 | good exactly when `speed_prev - tolerance <= speed_curr <= speed_prev + tolerance`, otherwise bad |
| `QartodTests.CurrentSpeedGradientTest` | adcp_qartod_qaqc/tests.py:315-331 | output length `max(1, n)`; first flag good; flag i+1 good exactly when `abs(speed[i+1] - speed[i]) <= tolerance` |
| `Trdi.PrefixSlice` | adcp_qartod_qaqc/trdi.py:228 | `xs[:k]` is a prefix of `xs` of length `min(k, len)` for `k >= 0` and `max(0, len + k)` for `k < 0` |
| `Trdi.PrefixSliceCutoff` | adcp_qartod_qaqc/trdi.py:117-123 | a non-negative cut-off keeps no bin at or past it; a negative cut-off smaller in size than the list keeps a non-empty list minus its last bins; every kept element is the original at the same index |
| `Trdi.Column` | adcp_qartod_qaqc/trdi.py:212-215 | `imap(itemgetter(c), rows)` has one entry per row, equal to column c of that row |
| `Trdi.Jumps` | adcp_qartod_qaqc/trdi.py:88-90 | one indicator per beam pair, up to the shorter bin: `abs(curr - prev) > tolerance` |
| `Trdi.IsJumpIff` | adcp_qartod_qaqc/trdi.py:86-96 | a bin pair stops the scan exactly when two different beams differ by more than `tolerance` |
| `Trdi.BottomBin` | adcp_qartod_qaqc/trdi.py:84-96 | the bottom bin is between 1 and `max(1, n)`, no pair before it jumps, and the pair after it jumps unless it is the last bin |
| `Trdi.BottomBinUnique` | adcp_qartod_qaqc/trdi.py:84-96 | that characterisation determines the bottom bin |
| `Trdi.BottomBinEdgeCases` | adcp_qartod_qaqc/trdi.py:84-97 | fewer than 2 bins give 1; no jump gives `max(1, n)`; a jump between the first two bins gives 1 |
| `Trdi.BottomBinTwenty` | adcp_qartod_qaqc/trdi.py:84-96 | 25 bins with no jump through bin 20 and a jump between bins 20 and 21 give bottom bin 20 |
| `Trdi.Bin1Distance` | adcp_qartod_qaqc/trdi.py:100-102 | integer division rounding down: `100*d <= raw + depth < 100*d + 100` |
| `Trdi.Truncate` | adcp_qartod_qaqc/trdi.py:108-116 | `int(x)` keeps the sign: non-negative for `x >= 0`, non-positive for `x <= 0` |
| `Trdi.TruncateBounds` | adcp_qartod_qaqc/trdi.py:108-116 | `int(x)` moves x toward zero by less than one |
| `Trdi.TruncateMonotone` | adcp_qartod_qaqc/trdi.py:108-116 | truncation keeps the order of two values |
| `Trdi.RangeToBottom` | adcp_qartod_qaqc/trdi.py:103-107 | the range to the bottom is non-negative when the bottom bin, the cell length and the first-bin distance are |
| `Trdi.RangeToBottomMonotone` | adcp_qartod_qaqc/trdi.py:100-107 | with a non-negative cell length, a larger bottom bin never gives a shorter range to the bottom |
| `Trdi.SideLobeStart` | adcp_qartod_qaqc/trdi.py:108-116 | the side-lobe start is non-negative for a non-negative cosine and range |
| `Trdi.SideLobeStartBounds` | adcp_qartod_qaqc/trdi.py:108-116 | for a non-negative scaled range, the side-lobe start is non-negative and is the whole part of `cos*range` |
| `Trdi.SideLobeStartOrder` | adcp_qartod_qaqc/trdi.py:108-116 | with a positive cosine, a longer range never gives an earlier side-lobe start |
| `Trdi.ComputeBottomStats` | adcp_qartod_qaqc/trdi.py:98-123 | the range to the bottom is `RangeToBottom` of the bottom bin (`bottom_bin*cell_length/100 + bin_1_distance`), the side-lobe start is `int(cos*range)`, `last_good_bin` is one less and `last_good_counter` two less; nothing is clamped |
| `Trdi.SideLobeStartMonotone` | adcp_qartod_qaqc/trdi.py:100-123 | with a positive cosine and non-negative cell length, a larger bottom bin never gives a smaller side-lobe start or `last_good_counter` |
| `Trdi.TRDIQAQC.constructor` | adcp_qartod_qaqc/trdi.py:44-55 | the transducer depth is the given one or the leader's; afterwards the velocity lists are read and the bottom stats are those of the scan with tolerance 30 |
| `Trdi.TRDIQAQC.ReadVelocities` | adcp_qartod_qaqc/trdi.py:57-81 | one entry per velocity row on each of six lists: u, v, w are columns 0, 1, 2; z is (u, v); speed and direction are computed from (u, v) |
| `Trdi.TRDIQAQC.CalcBottomStats` | adcp_qartod_qaqc/trdi.py:83-123 | the scanned bottom bin meets the characterisation and equals `BottomBin`; the stored stats and the two cut-off fields are those derived from it |
| `Trdi.TRDIQAQC.BatteryFlag` | adcp_qartod_qaqc/trdi.py:125-133 | `no_test` |
| `Trdi.TRDIQAQC.ChecksumFlag` | adcp_qartod_qaqc/trdi.py:135-142 | `good` |
| `Trdi.TRDIQAQC.BitFlag` | adcp_qartod_qaqc/trdi.py:144-150 | good exactly when the leader's built-in-test result is `"0"`, else bad |
| `Trdi.TRDIQAQC.OrientationFlags` | adcp_qartod_qaqc/trdi.py:152-159 | pitch and roll are divided by 100 and then tested strictly against the limits |
| `Trdi.TRDIQAQC.SoundSpeedFlags` | adcp_qartod_qaqc/trdi.py:161-168 | good exactly when the leader's speed of sound is within the closed limits |
| `Trdi.TRDIQAQC.NoiseFloorFlag` | adcp_qartod_qaqc/trdi.py:170-175 | `no_test` |
| `Trdi.TRDIQAQC.SignalStrengthFlag` | adcp_qartod_qaqc/trdi.py:177-182 | `no_test` |
| `Trdi.TRDIQAQC.SignalToNoiseFlag` | adcp_qartod_qaqc/trdi.py:184-189 | `no_test` |
| `Trdi.TRDIQAQC.StuckSensorFlag` | adcp_qartod_qaqc/trdi.py:280-289 | `no_test` |
| `Trdi.TRDIQAQC.CorrelationMagnitudeFlags` | adcp_qartod_qaqc/trdi.py:191-203 | one flag per bin of `correlation[:last_good_bin]`, by the correlation rule with the given tolerances |
| `Trdi.TRDIQAQC.PercentGoodFlags` | adcp_qartod_qaqc/trdi.py:205-219 | one flag per row of `percent_good[:last_good_bin]`, classifying counters 2 plus 3 |
| `Trdi.TRDIQAQC.CurrentSpeedFlags` | adcp_qartod_qaqc/trdi.py:221-228 | one flag per speed of `current_speed[:last_good_counter]`, always against 150 (the argument is ignored) |
| `Trdi.TRDIQAQC.CurrentDirectionFlags` | adcp_qartod_qaqc/trdi.py:230-238 | one flag per direction of `current_direction[:last_good_counter]` |
| `Trdi.TRDIQAQC.HorizontalVelocityFlags` | adcp_qartod_qaqc/trdi.py:240-251 | one flag per bin of `u[:last_good_counter]`, from u and v of that bin |
| `Trdi.TRDIQAQC.VerticalVelocityFlags` | adcp_qartod_qaqc/trdi.py:253-261 | one flag per value of `w[:last_good_counter]` |
| `Trdi.TRDIQAQC.ErrorVelocityFlags` | adcp_qartod_qaqc/trdi.py:263-278 | one flag per row of `velocity[:last_good_counter]`, classifying column 3 |
| `Trdi.TRDIQAQC.EchoIntensityFlags` | adcp_qartod_qaqc/trdi.py:291-298 | `max(1, n)` flags over `echo_intensity[:last_good_counter]`, the first good, always with tolerance 2 (the argument is ignored) |
| `Trdi.TRDIQAQC.RangeDropOffFlags` | adcp_qartod_qaqc/trdi.py:300-309 | one flag per bin of `echo_intensity[:last_good_counter]` |
| `Trdi.TRDIQAQC.CurrentSpeedGradientFlags` | adcp_qartod_qaqc/trdi.py:311-318 | `max(1, n)` flags over the whole, uncut speed list |

## Left out

- Decoding: `read_PD0_file`, the reader's decoders and the command-line `main` (argument parsing, printing) are I/O. The reader library is not part of this model. The session takes an already decoded `Ensemble`.
- Floating point: `abs(u + 1j*v)` and `atan2(u, v)*180/pi` (`adcp_qartod_qaqc/trdi.py:79-81`) become the function parameters `speedOf` and `directionOf`. The model states which arguments they receive, not what they compute.
- `math.cos(beam_angle*pi/180)` (`adcp_qartod_qaqc/trdi.py:110-113`) becomes the parameter `cosBeamAngle`. The ensemble therefore has no beam-angle field.
- Arithmetic on `real` is exact, so float rounding in the range to the bottom and in the tilt scaling is not modelled.
- Trdi.TRDIQAQC.constructor: requires `WellFormed`, i.e. every velocity row has the three columns u, v, w that `__read_velocities` indexes (`adcp_qartod_qaqc/trdi.py:69-72`). A shorter row, on which Python raises `IndexError`, is not modelled as an error path.
- Trdi.TRDIQAQC.PercentGoodFlags: requires four counters in every row of `percent_good[:last_good_bin]`, the rows that `adcp_qartod_qaqc/trdi.py:212-215` indexes. Python raises `IndexError` on a shorter row in the window; that error path is not modelled, and rows past the window are unconstrained.
- Trdi.TRDIQAQC.ErrorVelocityFlags: requires four columns in every row of `velocity[:last_good_counter]`, the rows that `adcp_qartod_qaqc/trdi.py:274-275` indexes. Python raises `IndexError` on a shorter row in the window; that error path is not modelled, and rows past the window are unconstrained.
- Keyword defaults: Dafny has no default arguments, so the accessors' and the tests' defaults (`adcp_qartod_qaqc/trdi.py:152, 161, 191, 205, 240, 253, 263, 300, 311` and the test signatures in `adcp_qartod_qaqc/tests.py`) are the `Default*` constants of `QartodTests`, which a caller passes explicitly. Only the bottom-scan tolerance 30 is applied by the constructor itself.
- Trdi.TRDIQAQC.BitFlag: the built-in-test result is taken to be text. If the reader delivers a number, the comparison with `'0'` is always false in Python, and that case is not modelled.
- Trdi.TRDIQAQC.SignalStrengthFlag: `adcp_qartod_qaqc/trdi.py:14` imports `signal_strength_test`, which the library does not define (it defines `signal_strength_flag`), so the Python module fails at import. The model delegates to the library's `signal_strength_flag` and does not model the failed import.
- The sample-data check that `last_good_bin` is 20 (`adcp_qartod_qaqc/tests.py:27-28`) needs a recorded data file that is not part of this model, and is not modelled. `BottomBinTwenty` is a separate synthetic case (25 bins, a jump between bins 20 and 21) about the bottom scan only; it says nothing about the sample file or its `last_good_bin`.
- `adcp_qartod_qaqc/trdiUH.py` and `tester.py` are other variants of the session (numpy-based, partly not runnable) and are not part of this model. Their timestamp and configuration readers are not modelled either.
- The code does not clamp `last_good_counter` at 0, does not reject sibling lists of unequal length, does not validate thresholds, and handles one ensemble per session; the model does the same.

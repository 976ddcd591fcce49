# RSI and Stochastic %K engines, modelled in Dafny

This project models the two technical-analysis engines of stockwatcher. Each
engine takes a chronological price history and returns an indicator series:

- **RSI** (`src/stock/ta/rsi.rs`, `run`). The engine needs at least 15
  prices. A seeding pass over prices 0..=14 sums the rises and the drops
  between consecutive prices and divides both sums by 14. It emits
  `100 - 100/(1 + ag/al)` for the seeded averages. Every later price then
  updates the averages with Wilder's recurrence, and the engine emits one
  value per price. Output length: `len - 14`.
- **Stochastic %K** (`src/stock/ta/stochastic_oscillator.rs`, `run`). The
  engine needs at least 14 (close, low, high) samples. For each window end
  `i` it seeds the lowest low and the highest high with sample `i`. It then
  rescans samples `i+1-14 .. i-1` and emits
  `((close - low14)/(high14 - low14)) * 100`. Output length: `len - 13`.

Each engine has three parts:

- A pure reference definition built from recursive functions. For RSI these
  are the seed sums, the Wilder step and the averages in force at index `i`.
  For %K they are the window minimum and maximum.
- A method that mirrors the source's loops (`Rsi.SeedPass`, `Rsi.Run`,
  `Stochastic.WindowScan`, `Stochastic.Run`). Loop invariants prove each
  method equal to its reference definition.
- Lemmas about the reference definition: bounds, telescoping,
  undefinedness, causality, window locality and the source's test vectors.

Modelling decisions:

- **Numbers are `real`.** The source uses `f32`. Its test literals
  (57.69231, 49.492382, 66.66667, 36.363636, …) agree with the exact
  rationals proved here (750/13, 9750/197, 200/3, 400/11, …) to within one
  f32 ulp. The engine rounds after each operation, so a literal need not be
  the single-precision rounding of the exact value: 57.69231, 49.492382 and
  66.66667 are each one ulp away from it.
- **Failure.** The source panics when there are too few prices. The model
  returns `Err(InsufficientData(received, required))` instead, and never a
  partial series.
- **Zero denominators.** Each output element is an `Option<real>`.
  - RSI with `al > 0`: the formula's value.
  - RSI with `al == 0` and `ag > 0`: IEEE arithmetic gives `ag/0 = +inf`,
    so the source yields exactly 100, and so does the model.
  - RSI with `ag == al == 0`: the source's ratio is `0/0`, a NaN, and the
    model gives `None`.
  - %K with a flat window (`high14 == low14`): the source's result is
    always non-finite, and the model gives `None`.
- **Vector lookups.** The source reads every element through `get`.
  - In RSI, an out-of-range `get` would fall back to `0.0`.
  - In %K, an out-of-range `get` would panic.

  The methods read through `Indicator.Get`, which returns `None` out of
  range, and assert that each lookup is `Some`. So the fallback and the
  panic arms are proved unreachable.
- **Unchanged prices follow the source, not textbook Wilder smoothing.**
  Wilder's scheme decays both RSI averages by 13/14 on an unchanged price.
  The source has no branch for that case, so both averages stay as they were
  (`Rsi.Step`). `Rsi.FlatStepValue` shows the two readings emit the same
  value at that step. They diverge in the averages carried forward, so from
  the next price move on they emit different values: `Rsi.FlatStepDiverges`
  exhibits averages (1, 1), an unchanged price and then a rise of 1, where
  the engine emits 1400/27 and Wilder's scheme 4575/88.

## Model

| member | source | states |
|---|---|---|
| Indicator.Get | src/stock/ta/rsi.rs:76-85 | a lookup yields a value exactly when the index is in range, and that value is the element at the index; the methods assert every lookup is in range, so the `None => 0.0` arms here and at rsi.rs:103-106 and the panicking arms at stochastic_oscillator.rs:47-50 and 55-58 are unreachable |
| Rsi.Run | src/stock/ta/rsi.rs:65-120 | fails with received = len, required = 15 exactly when len < 15; otherwise yields exactly len - 14 values, each in [0, 100] when defined, and equals the reference series `RsiSeries` |
| Rsi.SeedPass | src/stock/ta/rsi.rs:74-96 | the seeding loop over prices 0..=14 leaves `last_price` = prices[14] and averages equal to the rise sum and the drop sum divided by 14 |
| Rsi.RsiSeries | src/stock/ta/rsi.rs:67 | the error case carries received = len and required = 15; the success case has len - 14 elements |
| Rsi.GainSum | src/stock/ta/rsi.rs:86-88 | the accumulated gain over the first n prices is never negative |
| Rsi.LossSum | src/stock/ta/rsi.rs:89-92 | the accumulated loss over the first n prices is never negative |
| Rsi.Gain | src/stock/ta/rsi.rs:86-88 | a move's gain is never negative and is positive exactly when the price rises |
| Rsi.Loss | src/stock/ta/rsi.rs:86-92 | a move contributes to the loss exactly when the price falls, and gain minus loss of a move is the price difference, so a zero difference adds to neither |
| Rsi.NetChange | src/stock/ta/rsi.rs:74-94 | summed gains minus summed losses over the first n prices telescope to prices[n-1] - prices[0] |
| Rsi.SeedNetChange | src/stock/ta/rsi.rs:95-96 | 14 * (ag - al) after seeding equals prices[14] - prices[0] |
| Rsi.FlatPrefix | src/stock/ta/rsi.rs:86-93 | both seed sums are zero exactly when the first n prices are all equal |
| Rsi.Seed | src/stock/ta/rsi.rs:95-96 | the seeded averages are non-negative |
| Rsi.Step | src/stock/ta/rsi.rs:107-113 | a changed price gives 14 * new = 13 * old + (its gain or its loss) for each average; an unchanged price leaves both averages as they were; non-negative averages stay non-negative |
| Rsi.StepZero | src/stock/ta/rsi.rs:107-113 | a step ends with both averages zero exactly when it starts there and the price does not move |
| Rsi.AveragesAt | src/stock/ta/rsi.rs:102-118 | the averages in force at every index from 14 on are non-negative (the recurrence invariant) |
| Rsi.Value | src/stock/ta/rsi.rs:97-98 | whenever ag or al is positive the value is 100 * ag / (ag + al), so al = 0 < ag gives exactly 100 (the IEEE result of 100 - 100/(1 + inf)); it is undefined exactly when ag = al = 0 (NaN in the source); every defined value lies in [0, 100] |
| Rsi.RatioForm | src/stock/ta/rsi.rs:114-115 | 100 - 100 / (1 + ag/al) equals 100 * ag / (ag + al) and lies in [0, 100] whenever al > 0 |
| Rsi.SeedZero | src/stock/ta/rsi.rs:74-96 | the seeded averages are both zero exactly when prices 0..=14 are all equal |
| Rsi.ZeroIffFlat | src/stock/ta/rsi.rs:102-118 | both averages at index i are zero exactly when prices 0..=i are all equal |
| Rsi.UndefinedIffFlat | src/stock/ta/rsi.rs:114-116 | the value emitted for index i is undefined exactly when prices 0..=i are all equal |
| Rsi.SumsIgnoreLater | src/stock/ta/rsi.rs:74-94 | the seed sums over the first n prices do not depend on later prices |
| Rsi.AveragesIgnoreLater | src/stock/ta/rsi.rs:102-118 | the averages at index i do not depend on prices after i |
| Rsi.Causal | src/stock/ta/rsi.rs:99-118 | appending prices appends values: the series of a longer history starts with the series of any prefix of at least 15 prices |
| Rsi.FirstValueIsSeed | src/stock/ta/rsi.rs:97-99 | the first value comes from the seeding formula, and with exactly 15 prices it is the only value |
| Rsi.FlatStepValue | src/stock/ta/rsi.rs:107-115 | decaying both averages by 13/14 on an unchanged price, as Wilder's scheme does, emits the same value as leaving them alone |
| Rsi.FlatStepDiverges | src/stock/ta/rsi.rs:107-116 | leaving the averages alone on an unchanged price, as the engine does, changes later output: from averages (1, 1), an unchanged price then a rise of 1 emits 1400/27, where decaying both by 13/14 first would emit 4575/88 |
| RsiVectors.CycleSums | src/stock/ta/rsi.rs:128 | over the prices 10, 12, 15, 13, 18 repeated three times, rises total 30 and drops total 22 |
| RsiVectors.SimpleVector | src/stock/ta/rsi.rs:127-130 | the 15-price test series gives the single value 750/13 |
| RsiVectors.ComplexSeed | src/stock/ta/rsi.rs:134 | the 16-price test series seeds averages 30/14 and 22/14 |
| RsiVectors.ComplexStep | src/stock/ta/rsi.rs:134 | its final drop of 8 moves the averages to 390/196 and 398/196 |
| RsiVectors.ComplexVector | src/stock/ta/rsi.rs:133-136 | the 16-price test series gives 750/13 and then 9750/197 |
| RsiVectors.EmptyFails | src/stock/ta/rsi.rs:144-148 | an empty series fails with received 0 and required 15 |
| Stochastic.Run | src/stock/ta/stochastic_oscillator.rs:41-66 | fails with received = len, required = 14 exactly when len < 14; otherwise yields exactly len - 13 values and equals the reference series `StochasticK`; when every sample has low <= close <= high, each defined value lies in [0, 100] |
| Stochastic.SingleWindow | src/stock/ta/stochastic_oscillator.rs:46 | a series of exactly 14 samples has one window end, index 13, and so yields exactly one value, that window's %K |
| Stochastic.WindowScan | src/stock/ta/stochastic_oscillator.rs:51-61 | seeding with sample i and scanning samples i+1-14 .. i-1 yields the lowest low and the highest high of window i+1-14 ..= i |
| Stochastic.StochasticK | src/stock/ta/stochastic_oscillator.rs:43 | the error case carries received = len and required = 14; the success case has len - 13 elements |
| Stochastic.WindowLow | src/stock/ta/stochastic_oscillator.rs:52-59 | the window minimum of the lows is at most every low in the window and equals one of them |
| Stochastic.WindowHigh | src/stock/ta/stochastic_oscillator.rs:53-60 | the window maximum of the highs is at least every high in the window and equals one of them |
| Stochastic.ExtremaUnique | src/stock/ta/stochastic_oscillator.rs:52-61 | any value that bounds a window's lows from below and is attained is the window minimum; likewise for the highs and the maximum |
| Stochastic.KAt | src/stock/ta/stochastic_oscillator.rs:47-62 | the value for the window ending at i is undefined exactly when its lowest low equals its highest high; when sample i has low <= close <= high it lies in [0, 100]; it is 0 when the close is the window's lowest low and 100 when it is the highest high |
| Stochastic.PercentK | src/stock/ta/stochastic_oscillator.rs:62 | undefined exactly for a flat range; with low <= close <= high and low < high it lies in [0, 100], is 0 at the low and 100 at the high |
| Stochastic.Bounded | src/stock/ta/stochastic_oscillator.rs:5-6 | when every sample has low <= close <= high, every defined value lies in [0, 100], and a value is undefined exactly where the window's lowest low equals its highest high |
| Stochastic.WindowLocal | src/stock/ta/stochastic_oscillator.rs:46-63 | the value at window end i depends only on samples i+1-14 ..= i |
| Stochastic.Causal | src/stock/ta/stochastic_oscillator.rs:46-64 | appending samples appends values: the series of a longer history starts with the series of any prefix of at least 14 samples |
| StochasticVectors.SimpleWindow | src/stock/ta/stochastic_oscillator.rs:75-83 | the window of the 14-sample test series spans 10 ..= 22 |
| StochasticVectors.SimpleValue | src/stock/ta/stochastic_oscillator.rs:75-84 | the one window of the 14-sample test series places close 18 within 10 ..= 22, giving 200/3 |
| StochasticVectors.SimpleVector | src/stock/ta/stochastic_oscillator.rs:74-85 | the 14-sample test series gives the single value 200/3 |
| StochasticVectors.ComplexRange | src/stock/ta/stochastic_oscillator.rs:89-99 | every session of the 18-sample test series lies within 10 ..= 32 |
| StochasticVectors.ComplexWindow | src/stock/ta/stochastic_oscillator.rs:89-99 | each of its five windows spans exactly 10 ..= 32 |
| StochasticVectors.ComplexValue | src/stock/ta/stochastic_oscillator.rs:100 | window k yields the k-th expected value |
| StochasticVectors.ComplexVector | src/stock/ta/stochastic_oscillator.rs:88-101 | the 18-sample test series gives 400/11, 400/11, 50, 100/11, 200/11 |
| StochasticVectors.SingleSampleFails | src/stock/ta/stochastic_oscillator.rs:103-107 | a single sample fails with received 1 and required 14 |

## Left out

- Single-precision rounding: all arithmetic is exact over `real`. The test
  vectors are stated as exact rationals, which the f32 literals match to
  within one ulp, not always as their correct rounding.
- The third RSI test (`test_run_random`, 24 prices, ten values) is not
  restated. Its exact values have denominators up to about 4.6e11.
- IEEE infinities and NaN are not values here. A zero denominator is `None`
  in the output, as described above. The RSI case `al == 0 < ag` is modelled
  by its finite IEEE result, 100.
- Panic message strings: the failure is the `InsufficientData` datatype with
  the same `received` and `required` numbers.
- The period is the source's constant 14. It is not a parameter.
- The doc comments' trading guidance (overbought and oversold thresholds,
  swing rejections, divergence) and the placeholder usage examples. None of
  them is behaviour of `run`.
- Stochastic.Bounded: the [0, 100] bound is stated only for samples with
  low <= close <= high. The source's doc comment promises it without that
  condition, but the source does not check it and does not hold it otherwise.

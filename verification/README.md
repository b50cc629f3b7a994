# Interest-rate trading environments, modelled in Dafny

The repository is a reinforcement-learning playground. Its core is a
simulator of trading episodes over a series of periodic interest-rate
observations (funding rates, one every 4 hours). The simulator comes in two
variants:

- **The continuous environment** (`InterestEnv`, deep_rl/interest_rate_environment_pytorch.py).
  The agent picks a position in [-1, 1]. Each step accrues the realised
  rate on the old position and then charges a 0.075% fee on the position
  change. The agent observes a window of `window_length` normalised rates.
- **The discrete environment** (`InterestRateEnv`, q_learning/solution_interest_rate_environment.py).
  The agent picks action 0, 1 or 2 (short, flat, long). Each step charges
  the fee first and then accrues the raw rate. The agent observes one of
  40 buckets of a trailing rolling mean of the normalised rates.

The model keeps the simulator state `(current_step, current_position, current_value)`
as an immutable record. Every operation is a pure function over `seq<real>`
(or over sequences of small row records), and all arithmetic is over exact
`real`s.

| file | module | what it models |
|---|---|---|
| common.dfy | `Common` | `Option` (absent configuration) and `Result` (the Python exceptions) |
| rates.dfy | `Rates` | the rate normalisation and `unscale_interest_rate` |
| series.dfy | `Series` | input rows, sorting by timestamp, timestamp range filters |
| rolling.dfy | `Rolling` | the trailing rolling mean: reference definition and a running-sum implementation |
| preprocess.dfy | `Preprocess` | `create_observations` and `create_interest_rates` |
| ledger.dfy | `Ledger` | the fee and the two orders of the fee/accrual update |
| buckets.dfy | `Buckets` | `get_state_for_interest_rate`, `get_interest_rate_for_state`, the action→position map |
| continuous_env.dfy | `ContinuousEnv` | `InterestEnv.reset` / `step`, and episodes as sequences of steps |
| discrete_env.dfy | `DiscreteEnv` | `InterestRateEnv.reset` / `step`, and episodes as sequences of steps |

How the model treats the source:

- **Logarithm.** `np.log` is a parameter `log: real -> real` of every step
  function. The reward lemmas therefore hold for *any* logarithm; they only
  use telescoping.
- **Exceptions.** A step that would raise `IndexError` returns `Err`. It
  also returns the environment as the Python object is left at that point.
  In the continuous step, the read at line 118 fails after the ledger update
  and the step increment. In the discrete step, the read at line 92 fails
  after the fee haircut at line 91, and the read at line 105 fails after the
  full update.
- **Step before reset (continuous).** The constructor sets
  `current_position` to the integer `0`, which has no `.copy()`. So a
  `step` before the first `reset` fails; the model returns `Err(NotReset)`.
  The discrete constructor already sets the reset state, so its `step` works
  without a reset.
- **Ruin.** The code tests `current_value < 0` strictly. A value of exactly
  0 is therefore not ruin; its reward is `log(0) - log(value_0)`. The model
  follows the code.
- **Normalisation.** `(r - 0.002) / 0.002 + 1` reads like a shift into
  [0, 2], but it equals `r / 0.002`. It maps [-0.002, 0.002] onto [-1, 1]
  and 0 onto 0, which matches the "[-1; 1]" comment. `Rates.Normalize`
  proves this.
- **Range filters.** The two variants disagree, and both are kept:
  - The continuous variant sorts the table by timestamp and keeps `start <= t < end`.
  - The discrete variant does not sort and keeps `start < t < end`.
- **Short series.** A discrete episode from reset lasts `len(avg) - 1`
  steps when `len(avg) >= 2`. With fewer points, the very first step already
  reads past the end and fails.
- **Reset observation.** The continuous `reset` copies the first
  `window_length` rates into a zero matrix. numpy broadcasts a single-point
  series into every slot, and refuses any other series shorter than the
  window. The model returns the same.

## Model

| member | source | states |
|---|---|---|
| Rates.Normalize | deep_rl/interest_rate_environment_pytorch.py:67-69 | the normalised rate is exactly the raw rate divided by 0.002, and unscaling it gives the raw rate back |
| Rates.Unscale | deep_rl/interest_rate_environment_pytorch.py:7-8 | unscaling multiplies by 0.002 (the method copy at lines 84-85 is the same function) |
| Rates.NormalizeUnscale | deep_rl/interest_rate_environment_pytorch.py:84-85 | normalising an unscaled value gives it back: the two maps are exact inverses |
| Rates.NormalizeMonotone | deep_rl/interest_rate_environment_pytorch.py:69 | normalisation preserves and reflects strict order and equality of rates |
| Rates.NormalizeBand | deep_rl/interest_rate_environment_pytorch.py:67-69 | raw 0 maps to 0 and ±0.002 to ±1; a raw rate is in [-0.002, 0.002] iff its normalised value is in [-1, 1] |
| Series.Insert | deep_rl/interest_rate_environment_pytorch.py:65 | inserting a row into a time-sorted table gives a time-sorted table with exactly one more copy of that row |
| Series.SortByTime | deep_rl/interest_rate_environment_pytorch.py:65 | the sorted table is time-ordered and a permutation of the input table |
| Series.SortSortedIsIdentity | deep_rl/interest_rate_environment_pytorch.py:65 | sorting a table that is already time-ordered leaves it unchanged |
| Series.ConsSorted | deep_rl/interest_rate_environment_pytorch.py:65 | a row no later than the head of a sorted table can be prepended and the table stays sorted |
| Series.Keep | q_learning/solution_interest_rate_environment.py:57-60 | every kept row passes the timestamp test, and the result is no longer than the table |
| Series.KeepAppend | q_learning/solution_interest_rate_environment.py:57-60 | filtering distributes over concatenation, so kept rows stay in their original order |
| Series.KeepCounts | q_learning/solution_interest_rate_environment.py:57-60 | a row that passes the test occurs in the result as often as in the table; any other row does not occur |
| Series.KeepAtOrBefore | deep_rl/interest_rate_environment_pytorch.py:71-77 | a row no later than every row of a table is no later than every row the filter keeps |
| Series.KeepSorted | deep_rl/interest_rate_environment_pytorch.py:71-77 | filtering a time-sorted table keeps it time-sorted |
| Series.KeepAlways | q_learning/solution_interest_rate_environment.py:57-60 | with no bound configured, the filter step leaves the table unchanged |
| Series.KeepKeep | q_learning/solution_interest_rate_environment.py:57-60 | two successive filters keep exactly the rows that pass both tests |
| Rolling.MeanBounds | q_learning/solution_interest_rate_environment.py:67 | a mean of points that all lie in [lo, hi] lies in [lo, hi] |
| Rolling.MeanBetweenMinMax | q_learning/solution_interest_rate_environment.py:67 | a window's mean lies between the window's smallest and largest point |
| Rolling.RollingMean | q_learning/solution_interest_rate_environment.py:66-70 | the rolling mean has `L - w + 1` entries (none when `L < w`), and each entry lies between its window's min and max |
| Rolling.RunningRollingMean | q_learning/solution_interest_rate_environment.py:67 | a running-sum computation (add the entering point, subtract the leaving one) equals the reference rolling mean |
| Preprocess.NormalizeRows | deep_rl/interest_rate_environment_pytorch.py:69 | the normalised series keeps each row's timestamp and raw rate, and each normalised value unscales to its raw rate |
| Preprocess.CreateObservations | deep_rl/interest_rate_environment_pytorch.py:59-81 | the continuous series is no longer than the table, and every normalised value unscales to its raw rate |
| Preprocess.HalfOpenRange | deep_rl/interest_rate_environment_pytorch.py:71-77 | a timestamp passes the continuous range test iff it is at or after the start and before the end, each bound applying only when set |
| Preprocess.CreateObservationsIsSortedRange | deep_rl/interest_rate_environment_pytorch.py:63-81 | the continuous series is the part of the time-sorted table with `start <= t < end` (each bound only when set) |
| Preprocess.ObservationsSorted | deep_rl/interest_rate_environment_pytorch.py:65 | the continuous series is in time order |
| Preprocess.ObservationsCount | deep_rl/interest_rate_environment_pytorch.py:71-77 | a row is in the continuous series as often as in the table if its timestamp is in range, and otherwise not at all |
| Preprocess.ObservationsPointwise | deep_rl/interest_rate_environment_pytorch.py:69-79 | every point of the continuous series is in range and carries the normalised value of its own raw rate |
| Preprocess.OpenRangeRows | q_learning/solution_interest_rate_environment.py:56-60 | the two optional filters together keep exactly the rows with `start < t < end` |
| Preprocess.OpenRange | q_learning/solution_interest_rate_environment.py:56-60 | a timestamp passes the discrete range test iff it is strictly after the start and before the end, each bound applying only when set |
| Preprocess.NormalizedRates | q_learning/solution_interest_rate_environment.py:62-64 | the normalised column has one entry per row, and each entry unscales to that row's raw rate |
| Preprocess.CreateInterestRates | q_learning/solution_interest_rate_environment.py:52-76 | the discrete series has `L - w + 1` rows for the `L` rows in range (none when `L < w`) |
| Preprocess.AlignTrailing | q_learning/solution_interest_rate_environment.py:69-75 | dropping the rows without a rolling mean removes exactly the first `w - 1` rows (all of them when fewer than `w` remain), pairing each mean with the last row of its window |
| Preprocess.InterestRatesPointwise | q_learning/solution_interest_rate_environment.py:66-75 | row `i` of the discrete series has the timestamp and raw rate of in-range row `i + w - 1`, and the mean of the `w` normalised rates ending there, between their min and max |
| Ledger.Fee | deep_rl/interest_rate_environment_pytorch.py:92-100 | the fee is non-negative, zero iff the position does not change, and proportional to the size of the change |
| Ledger.FeeSymmetric | q_learning/solution_interest_rate_environment.py:87-88 | moving from a to b costs the same fee as moving from b to a |
| Ledger.FeeBound | deep_rl/interest_rate_environment_pytorch.py:45-48 | for positions in the action-space bounds [-1, 1], the fee is at most 2 × 0.075% |
| Ledger.AccrueThenCharge | deep_rl/interest_rate_environment_pytorch.py:97-103 | from a flat position only the fee applies; re-submitting the held position only accrues interest on it |
| Ledger.ChargeThenAccrue | q_learning/solution_interest_rate_environment.py:86-93 | from a flat position only the fee applies; keeping the held position only accrues interest on it |
| Ledger.OrdersAgree | q_learning/solution_interest_rate_environment.py:90-93 | over exact reals, fee-then-accrual and accrual-then-fee give the same value |
| Ledger.UpdateKeepsPositive | q_learning/solution_interest_rate_environment.py:88-96 | with a rate below 100% in magnitude and positions in [-1, 1], a positive value stays positive under either order |
| Buckets.Trunc | q_learning/solution_interest_rate_environment.py:133 | `int()` truncates toward zero: the result is within 1 of the input and not beyond it |
| Buckets.NumStatesValue | q_learning/solution_interest_rate_environment.py:44 | `int(2 / 0.05)` is 40 states |
| Buckets.StateForRate | q_learning/solution_interest_rate_environment.py:132-137 | a rate in [-1, 1] gets a bucket in [0, 39]; a rate in [1, 1.05), 1.0 included, is clamped to 39 |
| Buckets.RateForState | q_learning/solution_interest_rate_environment.py:140-141 | the rate of bucket `s` is the lower edge of bucket `s`; buckets 0..39 give rates in [-1, 1) |
| Buckets.StateMonotone | q_learning/solution_interest_rate_environment.py:132-137 | the bucket map is monotone non-decreasing over all reals, clamp included |
| Buckets.StateOfRateForState | q_learning/solution_interest_rate_environment.py:132-141 | for every state 0..39, the bucket of that state's rate is the state itself |
| Buckets.StateIffInBucket | q_learning/solution_interest_rate_environment.py:132-137 | below 1.0, a rate gets bucket `s` iff it lies in `[rate(s), rate(s) + 0.05)` |
| Buckets.ZeroRateState | q_learning/solution_interest_rate_environment.py:123 | the reset observation, the bucket of rate 0, is 20 |
| Buckets.PositionForAction | q_learning/solution_interest_rate_environment.py:83-84 | an action is in {0, 1, 2} iff its position is in {-1, 0, 1}; action 1 is flat |
| ContinuousEnv.Init | deep_rl/interest_rate_environment_pytorch.py:35-42 | construction keeps the series and the window length and starts no episode |
| ContinuousEnv.StepBeforeReset | deep_rl/interest_rate_environment_pytorch.py:87-89 | before the first reset a step fails (the integer position has no `.copy()`) and changes nothing; a reset then starts at step 0, position 0, value 1 |
| ContinuousEnv.Window | deep_rl/interest_rate_environment_pytorch.py:124-128 | the observation holds `w` rates: slot `k` is the normalised rate of point `from + k` |
| ContinuousEnv.WindowSlides | deep_rl/interest_rate_environment_pytorch.py:124-128 | the observation after a step is the one before it shifted by one point, with the rate at `from + w` entering last |
| ContinuousEnv.Reset | deep_rl/interest_rate_environment_pytorch.py:134-142 | reset always sets step 0, position 0, value 1; it returns the first `w` rates, fills every slot with the single rate of a one-point series, and fails on any other series shorter than `w` |
| ContinuousEnv.Step | deep_rl/interest_rate_environment_pytorch.py:87-132 | fails before a reset; otherwise succeeds iff not done. Then: step +1, position = action, value = accrual on the old position then fee, ruin (`< 0`) gives done and reward `log(value_0)`, else reward is the log return and done iff `step + w >= L - 1`. The observation is the window after the step, whose last entry is the rate just accrued |
| ContinuousEnv.DoneIffNextStepFails | deep_rl/interest_rate_environment_pytorch.py:115-120 | without ruin, a successful step reports done iff the step after it fails |
| ContinuousEnv.PlayToEnd | deep_rl/interest_rate_environment_pytorch.py:105-115 | with `n` steps left, exactly `n` steps succeed; each is done iff ruin or last, and the environment is done afterwards |
| ContinuousEnv.EpisodeLength | deep_rl/interest_rate_environment_pytorch.py:115-128 | with `L >= w + 2`, an episode from reset has exactly `L - w - 1` successful steps, done only on ruin or at the last, and the next step fails |
| ContinuousEnv.RewardsTelescope | deep_rl/interest_rate_environment_pytorch.py:107-113 | without ruin, the rewards of a run sum to `log(final value) - log(initial value)` |
| ContinuousEnv.EpisodeReturn | deep_rl/interest_rate_environment_pytorch.py:134-137 | a ruin-free run from reset earns `log(final value) - log(1)` in total |
| ContinuousEnv.StepAccruesRawRate | deep_rl/interest_rate_environment_pytorch.py:94-98 | on a preprocessed series, the rate accrued is the raw rate of the point at `step + w` |
| DiscreteEnv.Init | q_learning/solution_interest_rate_environment.py:34-46 | construction sets step 0, position 0 and value 1 |
| DiscreteEnv.InitIsReset | q_learning/solution_interest_rate_environment.py:118-125 | a reset right after construction changes nothing, and a step works without a reset iff the series has at least 2 points |
| DiscreteEnv.Reset | q_learning/solution_interest_rate_environment.py:118-125 | reset restores the state the constructor sets (step 0, position 0, value 1) and returns bucket 20, a valid state |
| DiscreteEnv.Step | q_learning/solution_interest_rate_environment.py:79-115 | succeeds iff not done. Then: step +1, position = action − 1, value = fee then accrual of the raw rate at the old step on the old position, reward = log return, done iff `step >= len - 1`, and the observation is the bucket of the mean at the new step. Past the end, only the fee has been charged |
| DiscreteEnv.DoneIffNextStepFails | q_learning/solution_interest_rate_environment.py:100-105 | a successful step reports done iff the step after it fails |
| DiscreteEnv.PlayToEnd | q_learning/solution_interest_rate_environment.py:100-102 | with `n` steps left, exactly `n` steps succeed, only the last reports done, and the environment is done afterwards |
| DiscreteEnv.EpisodeLength | q_learning/solution_interest_rate_environment.py:100-112 | with `len >= 2`, an episode from reset has exactly `len - 1` successful steps, done only at the last, and the next step fails; with `len < 2` the first step fails |
| DiscreteEnv.RewardsTelescope | q_learning/solution_interest_rate_environment.py:95-96 | the rewards of a run sum to `log(final value) - log(initial value)` |
| DiscreteEnv.ValueStaysPositive | q_learning/solution_interest_rate_environment.py:86-96 | with valid actions and rates below 100% in magnitude, the value stays positive and the position stays in {-1, 0, 1} throughout a run |
| DiscreteEnv.ObservationInRange | q_learning/solution_interest_rate_environment.py:111-113 | when the rolling means lie in [-1, 1], every observation is a valid state |

## Left out

- Reading the CSV file, `pd.to_datetime` and DataFrame indexing are not modelled. The input is a sequence of rows holding an integer timestamp and a real rate, with no missing values. `dropna` therefore drops only the leading rows that lack a full window.
- Floating point is not modelled: `float32` arrays, IEEE rounding of 0.05 and 0.002, and the pandas rolling-sum arithmetic. Everything is over exact reals.
- Buckets.StateOfRateForState: the round trip holds over exact reals only. In IEEE doubles, `int((round(s * 0.05 - 1, 2) + 1) / 0.05)` falls one bucket short of `s` for several states (2, 4, 7, 9, 12, 14, 19, 23, 24, 28, 29, 33 and 38), because the division lands just below the integer.
- Buckets.RateForState: the `round(..., 2)` is not modelled. Over exact reals, `s * 0.05 - 1` never has more than two decimals for an integer `s`, so the rounding changes nothing. The unused `round_nearest` helper is left out.
- `np.log` is a parameter of the step functions; no property of the logarithm is assumed.
- Gym plumbing is not modelled: the `spaces.Box` and `spaces.Discrete` objects (only their bounds appear, as `NumStates`, `NumActions` and the [-1, 1] hypothesis of `Ledger.FeeBound`), the 4-D `np.newaxis` reshaping, the `info` dictionary (kept as a record), `print`, `render`, `close` and `maximum_episode_steps`.
- Preprocess.CreateInterestRates: requires `window_length >= 1`. The pandas behaviour of a rolling window of 0 is not modelled.
- Series.SortByTime: rows with equal timestamps are kept in input order. pandas' default sort does not promise any order among ties.
- The continuous action is modelled as a real number. The source passes a one-element array, whose `.copy()` the next step relies on; a plain float action would make that next step fail, and this failure is not modelled.
- Neither environment refuses a `step` after `done`; the model does not either. The step contracts state exactly when such a step fails with an index error.
- The unfinished exercise template q_learning/interest_rate_environment.py has `???` placeholders, so it is not modelled.

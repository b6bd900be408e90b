# Recursive filters

A Dafny model of the Python filter classes in `python/filters.py`:

- `LP_first_order`: a first-order low-pass filter. Its three coefficients come from the sampling period `Te`, the cut-off frequency `wc` and one of four discrete-time approximations (`bilinear`, `homographic`, `step_matching`, `impulse_matching`).
- `LP_second_order`: a second-order low-pass filter (a biquad). Its five coefficients come from `Te`, the resonant frequency `w0` and the quality factor `Q`. Only the bilinear approximation exists.
- `Moving_average`: the mean of the last `N` samples, kept in a ring buffer of `N` slots with a running sum.

Each class is a Dafny `class` with the source's fields. Its methods assign those fields as the Python methods do. Each class also has a value-level twin: a datatype for the whole state and a `Step` function for one sample. The methods are proved against that twin.

Files:

- `outcomes.dfy` (module `Outcomes`): the exceptions the classes raise, as values.
- `sequential.dfy` (module `Sequential`): `Feeds`, batch filtering as a left fold over the samples, with its lemmas.
- `transforms.dfy` (module `Transforms`): the approximation names. They replace the `getattr(self, 'init_' + transform)` dispatch.
- `first_order.dfy` (module `FirstOrder`), `second_order.dfy` (module `SecondOrder`), `moving_average.dfy` (module `Averaging`): the three filters.

Every quantity is a Dafny `real`. The results of `math.tan` and `math.exp` come from the function parameters `tan` and `exp`. Where the code divides by zero, it raises `ZeroDivisionError`, and the model returns `Err(ZeroDivisionError)`. A transform name with no `init_` method raises `AttributeError`. Feeding a moving average whose buffer is empty raises `IndexError`.

Facts about the code that a reader might not expect:

- The second-order filter has only the bilinear approximation.
- No parameter is checked for sign. `Te <= 0` or `wc <= 0` is accepted, and only an exact zero denominator fails.
- There is no "not initialised" state, because the constructor always runs an `init_` method.
- The homographic approximation uses `tan(wc*Te/2)`, a prewarped bilinear map. It does not place the pole at `exp(-wc*Te)`.

## Model

| member | source | states |
|---|---|---|
| `Sequential.Feeds` | python/filters.py:77-82 | a batch call gives exactly one output per input sample, fed in order with the state carried from sample to sample |
| `Sequential.FeedsSnoc` | python/filters.py:77-82 | feeding one more sample appends that sample's output and moves the final state one step on |
| `Sequential.FeedsAt` | python/filters.py:77-82 | output `k` of a batch is the output for sample `k` in the state reached after the first `k` samples |
| `Sequential.FeedsAppend` | python/filters.py:77-82 | a batch `xs ++ ys` is the batch `xs` followed by the batch `ys` from the state `xs` leaves |
| `Sequential.FeedsFixedPoint` | python/filters.py:77-82 | a state that outputs `v` for input `v` and stays put passes a constant run of `v` through unchanged |
| `Transforms.ParseFirstOrder` | python/filters.py:25-28 | a name selects a first-order transform exactly when an `init_<name>` method exists for it, and the selected transform carries that name |
| `Transforms.ParseSecondOrder` | python/filters.py:102-105 | the second-order filter accepts exactly the name `bilinear` |
| `Transforms.Name` | python/filters.py:28-60 | the name of each transform is the non-empty lower-case suffix of its `init_<name>` method; `ParseFirstOrderName` proves that each name selects its own transform and no other |
| `Transforms.ParseFirstOrderName` | python/filters.py:25-28 | each transform is selected by its own name and by no other name |
| `FirstOrder.BilinearDesign` | python/filters.py:34-40 | fails with a division by zero exactly when `2 + wc*Te = 0`; otherwise the two feed-forward taps are equal and the coefficients sum to 1, so every constant level is a fixed point (a unity DC gain wherever `Cy1 != 1`) |
| `FirstOrder.HomographicDesign` | python/filters.py:42-49 | fails exactly when `tan(wc*Te/2) = -1`; otherwise the feed-forward taps are equal and the coefficients sum to 1 |
| `FirstOrder.StepMatchingDesign` | python/filters.py:51-58 | the pole is `exp(-wc*Te)`, the current input has no weight and the coefficients sum to 1 |
| `FirstOrder.ImpulseMatchingDesign` | python/filters.py:60-67 | the pole is `exp(-wc*Te)`, the previous input has no weight and the coefficients sum to 1 |
| `FirstOrder.Design` | python/filters.py:28-67 | every transform that succeeds gives coefficients summing to 1 (a unity DC gain wherever `Cy1 != 1`); only bilinear and homographic can fail, and then only with a division by zero |
| `FirstOrder.Initial` | python/filters.py:30-32 | the state after `reset`: the given coefficients with both history values at zero |
| `FirstOrder.Step` | python/filters.py:69-75 | the output is `Cy1*y_k1 + Cx0*x + Cx1*x_k1`; the next state keeps the coefficients and holds (output, input); with history `(x, x)` the output is the coefficient sum times `x` |
| `FirstOrder.FeedsKeepCoefficients` | python/filters.py:69-82 | feeding any batch leaves the coefficients unchanged |
| `FirstOrder.FeedsHistory` | python/filters.py:69-82 | after a non-empty batch the history holds the last output and the last input |
| `FirstOrder.SteadyState` | python/filters.py:34-75 | with coefficients summing to 1, a filter whose history is `(v, v)` outputs `v` for input `v` and keeps its state |
| `FirstOrder.LevelsFixedIffSumOne` | python/filters.py:69-75 | the coefficients sum to 1 exactly when every constant level `v` (history `(v, v)`, input `v`) is a fixed point of the recurrence |
| `FirstOrder.HoldsConstant` | python/filters.py:69-82 | with coefficients summing to 1, a filter at rest at `v` passes a constant run of `v` through unchanged |
| `FirstOrder.SilenceFromRest` | python/filters.py:69-82 | whatever the coefficients, a filter with a cleared history fed only zeros outputs only zeros and keeps its cleared history |
| `FirstOrder.LowPassFirstOrder.constructor` | python/filters.py:25-32 | a new object has a zero history |
| `FirstOrder.LowPassFirstOrder.Reset` | python/filters.py:30-32 | clears both history values and keeps the coefficients |
| `FirstOrder.LowPassFirstOrder.Install` | python/filters.py:36-47 | a failed formula reports its error and changes nothing; otherwise the three coefficients are assigned and the history is kept |
| `FirstOrder.LowPassFirstOrder.InitBilinear` | python/filters.py:34-40 | installs the bilinear coefficients and keeps the history; on a zero denominator raises and changes nothing |
| `FirstOrder.LowPassFirstOrder.InitHomographic` | python/filters.py:42-49 | installs the homographic coefficients and keeps the history; on a zero denominator raises and changes nothing |
| `FirstOrder.LowPassFirstOrder.InitStepMatching` | python/filters.py:51-58 | installs the step-matching coefficients and keeps the history |
| `FirstOrder.LowPassFirstOrder.InitImpulseMatching` | python/filters.py:60-67 | installs the impulse-matching coefficients and keeps the history |
| `FirstOrder.LowPassFirstOrder.Feed` | python/filters.py:69-75 | returns `Cy1*y_k1 + Cx0*x + Cx1*x_k1`, then the history becomes (output, input) and the coefficients do not change |
| `FirstOrder.LowPassFirstOrder.Call` | python/filters.py:81-82 | a scalar call is exactly one feed |
| `FirstOrder.LowPassFirstOrder.CallBatch` | python/filters.py:79-80 | a batch call returns the outputs and reaches the final state of feeding the samples one by one |
| `FirstOrder.Create` | python/filters.py:25-28 | construction resets and then runs the named `init_` method; an unknown name raises `AttributeError` for `init_<name>`, and a failing formula propagates its error |
| `SecondOrder.BilinearDesign` | python/filters.py:113-123 | fails exactly when `2*w0*Te + 4*Q + Q*(w0*Te)^2 = 0`; otherwise `Cx1 = 2*Cx0`, `Cx2 = Cx0` and the five coefficients sum to 1 |
| `SecondOrder.Initial` | python/filters.py:125-129 | the state after `reset`: the given coefficients with all four history values at zero |
| `SecondOrder.Step` | python/filters.py:131-139 | the output is the five-term recurrence; the next state keeps the coefficients, puts (output, input) newest and moves the previous newest one place back; with a whole history at `x` the output is the coefficient sum times `x` |
| `SecondOrder.FeedsKeepCoefficients` | python/filters.py:131-146 | feeding any batch leaves the coefficients unchanged |
| `SecondOrder.FeedsHistory` | python/filters.py:131-146 | after a batch of two or more samples the history holds the last two outputs and the last two inputs, newest first |
| `SecondOrder.SteadyState` | python/filters.py:113-139 | with coefficients summing to 1, a filter whose whole history is `v` outputs `v` for input `v` and keeps its state |
| `SecondOrder.LevelsFixedIffSumOne` | python/filters.py:131-139 | the five coefficients sum to 1 exactly when every constant level `v` is a fixed point of the recurrence |
| `SecondOrder.HoldsConstant` | python/filters.py:131-146 | with coefficients summing to 1, a filter at rest at `v` passes a constant run of `v` through unchanged |
| `SecondOrder.SilenceFromRest` | python/filters.py:131-146 | whatever the coefficients, a filter with a cleared history fed only zeros outputs only zeros and keeps its cleared history |
| `SecondOrder.LowPassSecondOrder.constructor` | python/filters.py:102-111 | a new object has a zero history |
| `SecondOrder.LowPassSecondOrder.Reset` | python/filters.py:125-129 | clears all four history values and keeps the coefficients |
| `SecondOrder.LowPassSecondOrder.InitBilinear` | python/filters.py:113-123 | installs the bilinear coefficients and keeps the history; on a zero denominator raises and changes nothing |
| `SecondOrder.LowPassSecondOrder.Feed` | python/filters.py:131-139 | returns the five-term recurrence, then shifts the history (`y_k2 := y_k1`, `x_k2 := x_k1`, `y_k1 :=` output, `x_k1 :=` input) and the coefficients do not change |
| `SecondOrder.LowPassSecondOrder.Call` | python/filters.py:145-146 | a scalar call is exactly one feed |
| `SecondOrder.LowPassSecondOrder.CallBatch` | python/filters.py:143-144 | a batch call returns the outputs and reaches the final state of feeding the samples one by one |
| `SecondOrder.Create` | python/filters.py:102-105 | construction resets and then runs `init_<transform>`; any name other than `bilinear` raises `AttributeError`, and a zero denominator propagates its error |
| `Averaging.SumUpdate` | python/filters.py:172-174 | overwriting one slot changes the sum of the buffer by the new value minus the old one |
| `Averaging.Step` | python/filters.py:170-180 | a feed keeps the buffer length and keeps the index in range; it overwrites only slot `i`, with `x/N`; it advances the index cyclically to `(i+1) mod N`; it returns the new running sum |
| `Averaging.StepKeepsSum` | python/filters.py:172-174 | if the running sum equals the sum of the buffer, it still does after a feed |
| `Averaging.Empty` | python/filters.py:165-168 | the state after `reset` with `N >= 1`: `N` zero slots, index 0 and running sum 0; `EmptyTracks` proves it satisfies the ring-buffer invariant for the empty history |
| `Averaging.LastSnoc` | python/filters.py:149-157 | one more sample joins the window of the last `N` samples, and once the window is full its oldest sample leaves |
| `Averaging.StepMean` | python/filters.py:170-180 | if the running sum is the window mean and slot `i` holds the oldest sample, the new sum is the mean of the window grown by the new sample |
| `Averaging.StepSlots` | python/filters.py:170-180 | a feed keeps every slot equal to the sample written there last (or 0 if never written) |
| `Averaging.StepTracks` | python/filters.py:170-180 | a feed keeps the whole ring-buffer invariant: slot contents, running sum equal to the slot sum, and running sum equal to the window mean |
| `Averaging.EmptyTracks` | python/filters.py:165-168 | a reset averager satisfies the invariant for the empty history |
| `Averaging.FeedsTrack` | python/filters.py:165-180 | after any samples fed since a reset, the invariant holds and the length is unchanged |
| `Averaging.OutputIsMean` | python/filters.py:170-180 | after any history, the output for the next sample is the sum of the last `min(k, N)` samples divided by `N` |
| `Averaging.FeedsMeans` | python/filters.py:149-157 | in a batch fed after any history, each output is the mean of the last `N` samples up to and including that sample (fewer, counting as zero, before `N` were fed) |
| `Averaging.BatchMeans` | python/filters.py:182-187 | from the state any history leaves, every output of a batch is the window mean at that point |
| `Averaging.MovingAverage.constructor` | python/filters.py:160-163 | keeps `N` and resets |
| `Averaging.MovingAverage.Reset` | python/filters.py:165-168 | a fresh buffer of `max(N, 0)` zero slots, index 0, running sum 0 |
| `Averaging.MovingAverage.Feed` | python/filters.py:170-180 | on an empty buffer raises `IndexError` and changes nothing; otherwise performs `Step` in place, keeps the invariant and returns the mean of the last `min(k, N)` samples |
| `Averaging.MovingAverage.Call` | python/filters.py:186-187 | a scalar call is exactly one feed: the same error case, the same new state, the history extended by the sample, and the window mean as result |
| `Averaging.MovingAverage.CallBatch` | python/filters.py:182-187 | a batch call on an empty buffer returns `[]` for no samples and otherwise raises `IndexError`; with `N >= 1` it returns the fold's outputs and state, and each output is the window mean at that point |

## Left out

- Floating-point rounding and overflow: all arithmetic is over `real`.
- The definitions of `math.tan` and `math.exp`: their results come from the `tan` and `exp` parameters. An `OverflowError` from `math.exp` is not modelled.
- Convergence, stability and frequency-response behaviour: these need analysis of the transcendental functions.
- The `isinstance(input, Iterable)` test in `__call__`: the scalar and sequence forms are the two methods `Call` and `CallBatch`.
- `TypeError` from non-numeric arguments, and from a non-string transform name.
- The default argument `transform='bilinear'`: callers of `Create` always pass the name.
- The `return self` of the `init_` methods, used for chaining: they return an `Outcome` instead.
- Before an `init_` method runs, the Python object has no coefficient attributes. In the model the constructor sets them to 0. `Create` hands out an object only after its `init_` method succeeds, so the zeros are never seen.
- If an `init_` method raises inside the Python constructor, the half-built object is dropped. `Create` returns only the error.
- `LP_second_order` defines `reset` twice (lines 107-111 and 125-129). The two bodies are identical and the second one takes effect. The model has one `Reset`.
- `MovingAverage.fed` is a ghost record of the samples fed since the last reset. It exists only to state the window-mean property.
- The C++ versions of the filters and `python/setup.py` are not part of this model.
- The model proves that the coefficients sum to 1 (`CoefficientSum`), which makes every constant level a fixed point. It does not prove that a filter converges to a constant input. For example, at `wc*Te = 0` the bilinear design gives `Cy1 = 1`: the output stays where it was for any constant input.

# %DS control-loop simulator — Dafny model

A model of the closed-loop simulation step of the %DS (percent dry solids)
simulator `simulador_ds.py`. Each press of the "Simular" button runs the
process model and a controller, then moves the TQ3 flow:

- the process model corrects the flour density for humidity;
- it estimates the %DS after TQ1 and after stage 2 by interpolating between
  the water density (998 kg/m³) and the corrected flour density;
- it computes the solids loss between the two streams;
- the error `erro = setpoint - %DS(TQ1)` goes to the selected controller,
  either the discrete PID update or the fuzzy-inference engine;
- the controller's adjustment moves the manipulated TQ3 flow (`vazao_tq3`),
  floored at zero;
- one record is appended to each of the four history lists.

Files and modules:

- `process_model.dfy`, module `ProcessModel`: density correction, %DS
  estimate and its inverse, solids loss.
- `controller.dfy`, module `Controller`: the PID update and the fuzzy engine
  type.
- `control_loop.dfy`, module `ControlLoop`: the session state `LoopState`,
  the `Step` function, the session function `Run`, and the invariants.

Modelling choices:

- Quantities are Dafny `real`s.
- The session state is an immutable `LoopState` value threaded through
  `Step`. In the source it lives in Streamlit's session dictionary.
- The form's inputs (measurements, setpoint, controller choice and PID
  gains) form a `Command`. The controller choice is `Pid(gains) | Fuzzy`,
  because the gains exist only in PID mode.
- The fuzzy engine is a parameter of type `(real, real) -> Option<real>`
  (error, delta ↦ adjustment). Its rule base is fixed for the session, so it
  is a function of its two inputs.
- The engine may decline to answer (`None`). The inference library raises an
  error when no rule of the five-rule table fires. For example, an error at
  the low edge of its universe with a zero delta fires no rule.
- On the form's defaults in fuzzy mode the error is 30 − 21400/229, about
  −63.45, below the error universe [−50, 50] (`DefaultFuzzyRepeat`). A second
  identical press feeds the engine that error with a zero delta
  (`RepeatFeedsZeroDelta`). Once the library clips the error to −50, that
  input fires none of the five rules, so the second press raises. The model
  shows the inputs the engine receives; the library behaviour that follows
  is a property of the opaque engine.
- A corrected flour density of exactly 998 makes the %DS division divide by
  zero. A float division by zero raises `ZeroDivisionError` in Python
  (simulador_ds.py:23, reached at line 92). The model follows the code and
  aborts the press; no non-finite value is produced.
- Either failure aborts the press (`Aborted`, with reason `DensityGapZero`
  or `FuzzyNoOutput`). It happens before any of `vazao_tq3`, `prev_erro`,
  `integral`, `historico` or `sim_count` is written, so the state stays as it
  was (`After`). On the fuzzy path the engine's inputs were already set
  (simulador_ds.py:110-111); the next press sets both again, so that leaves
  no visible trace.
- The engine's output range [-500, 500] is an ASSUMPTION about the library,
  not something proved. It is the predicate `WithinOutputUniverse`, and only
  `FuzzyStepBounded` requires it.

## Model

| member | source | states |
|---|---|---|
| ProcessModel.CorrectFlourDensity | simulador_ds.py:19-20 | at humidity 0 the corrected density is the base density, at 100 it is zero; for humidity in [0, 100) a positive base stays positive and never exceeds the base (below 100 % it stays positive even for negative humidity) |
| ProcessModel.CorrectFlourDensityDecreasing | simulador_ds.py:19-20 | for a positive base density, the corrected density strictly decreases as humidity rises |
| ProcessModel.CorrectFlourDensityDefaults | simulador_ds.py:62-63 | the form's defaults (base 1250, humidity 11) give exactly 1112.5 |
| ProcessModel.EstimateDS | simulador_ds.py:22-23 | for flour density ≠ 998, %DS times (flour − 998) equals (mixture − 998) × 100; 0 at the water density, 100 at the flour density |
| ProcessModel.MixtureDensityFor | simulador_ds.py:22-23 | the inverse interpolation: %DS 0 gives the water density, 100 the flour density |
| ProcessModel.EstimateDSRoundTrip | simulador_ds.py:22-23 | the %DS estimate and the inverse interpolation undo each other in both directions |
| ProcessModel.EstimateDSWithinRange | simulador_ds.py:22-23 | a mixture density between water and a flour heavier than water gives a %DS in [0, 100] |
| ProcessModel.EstimateDSMonotone | simulador_ds.py:22-23 | with flour heavier than water, a denser mixture has a strictly higher %DS |
| ProcessModel.EstimateSolidsLoss | simulador_ds.py:25-26 | loss plus the solids carried by the stage-2 stream equals the solids carried by the mixture stream |
| ProcessModel.SolidsLossAntisymmetric | simulador_ds.py:25-26 | swapping the two (flow, %DS) pairs negates the loss; equal pairs give zero |
| ProcessModel.SolidsLossChains | simulador_ds.py:25-26 | the loss from A to C is the loss from A to B plus the loss from B to C |
| ProcessModel.SolidsLossCanBeNegative | simulador_ds.py:25-26 | a net solids gain gives a negative loss, which is a valid result |
| Controller.PidControl | simulador_ds.py:28-32 | the new integral is the old integral plus the error; the returned previous error is the error; the output is Kp·e + Ki·integral' + Kd·(e − prev) |
| Controller.PidZeroGains | simulador_ds.py:28-32 | with Kp = Ki = Kd = 0 the output is 0 while the integral still accumulates the error |
| Controller.PidLinearInGains | simulador_ds.py:28-32 | the output is additive in the gains, and the integral does not depend on them |
| Controller.PidAtRest | simulador_ds.py:28-32 | with zero current and previous error only the integral action remains (Ki × integral), and the integral is unchanged |
| ControlLoop.EmptyHistory | simulador_ds.py:8-14 | the four history lists start aligned and empty, a prefix of every later history |
| ControlLoop.Init | simulador_ds.py:75-80 | a new session starts with flow 1000.0, previous error 0, integral 0 (lines 75-80), step counter 1 and an empty history (lines 8-16), and satisfies the loop invariant |
| ControlLoop.History.Record | simulador_ds.py:121-124 | appends exactly one element to each of the four lists, keeps the old lists as prefixes, and keeps them aligned |
| ControlLoop.ApplyAdjustment | simulador_ds.py:117-118 | the new flow is never negative; it is old + adjustment when that sum is non-negative and 0 otherwise |
| ControlLoop.Step | simulador_ds.py:90-125 | a press aborts exactly when the flour density is 998 (reason `DensityGapZero`) or the fuzzy engine declines (reason `FuzzyNoOutput`); otherwise both %DS values satisfy the interpolation equation, the loss balances the solids flows, the previous error becomes setpoint − %DS(TQ1), PID adds the error to the integral and outputs the three-term sum, Fuzzy leaves the integral unchanged and uses the engine's answer at (error, error − previous error), the flow moves by the adjustment floored at 0, and exactly one record (step counter, %DS, loss, new flow) is appended with the counter incremented |
| ControlLoop.After | simulador_ds.py:90-114 | an aborted press (division by zero at lines 92-93, engine error at line 112, both before any of `vazao_tq3`, `prev_erro`, `integral`, `historico` or `sim_count` is written) leaves the state unchanged; a completed press yields exactly the state `Step` computed, whose history gains exactly one record and keeps the old one as a prefix |
| ControlLoop.StepPreservesValid | simulador_ds.py:117-125 | every press keeps the invariant: flow ≥ 0, aligned lists, numbering 1..n, counter = n + 1, and the last recorded flow is the current flow |
| ControlLoop.Run | simulador_ds.py:90-125 | over any sequence of presses the invariant is kept, the old history is a prefix of the new one in every list, at most one record is added per press and exactly one when every press is PID on a flour density other than 998, and the integral ends as the start value plus the errors of the completed PID steps (fuzzy steps and aborted presses leave it alone; nothing bounds it) |
| ControlLoop.SessionKeepsInvariant | simulador_ds.py:117-125 | starting from the initial state, after any sequence of presses the flow and every recorded flow stay ≥ 0, the four lists stay aligned and numbered 1, 2, ..., n, and the counter is n + 1 |
| ControlLoop.RepeatFeedsZeroDelta | simulador_ds.py:96-114 | after a completed fuzzy step, repeating the same press feeds the engine (error, 0), and the result is exactly the engine's answer there |
| ControlLoop.FuzzyStepBounded | simulador_ds.py:109-118 | assuming the engine answers within [-500, 500], a fuzzy press moves a non-negative flow by at most 500 |
| ControlLoop.DefaultFuzzyRepeat | simulador_ds.py:62-114 | on the form's defaults in fuzzy mode the error is 30 − 21400/229, below −50, and a repeated press after a completed one succeeds exactly when the engine answers at (that error, 0) |
| ControlLoop.DefaultFirstPidStep | simulador_ds.py:62-107 | a first PID press on the form's defaults with gains 0.5/0.05/0.01 gives %DS = 21400/229, an adjustment of 0.56 × error, and flow 1000 + 0.56 × (30 − 21400/229), recorded as step 1 |

## Left out

- The Streamlit form, the result messages and the page setup
  (simulador_ds.py:56-72, 84-87, 127-132) are input/output plumbing. Their
  values are the fields of `Command`.
- Plotting of the history (simulador_ds.py:134-153) only renders it.
- The fuzzy engine's internals (simulador_ds.py:35-53) are a foreign
  library. This covers the three automatic membership terms per universe,
  the five Mamdani rules, centroid defuzzification and the library's own
  clipping of inputs to their universes. The engine is an opaque parameter.
- The engine's output bound is assumed, not proved. It is stated as a
  precondition of `FuzzyStepBounded` only.
- Floating point is not modelled: rounding, overflow to infinity, NaN.
  Python's `max(0, nan)` returns 0, and nothing in the model corresponds.
- `st.session_state` persistence and its lazy per-key initialisation are
  replaced by the explicit `Init` value. In one session all keys are set
  together on the first run, which is what `Init` gives.
- The initial `prev_erro` and `integral` are the Python integer 0. They are
  modelled as the real 0.0, which gives the same arithmetic.
- Run: states the exact number of records only for sessions whose presses
  never abort (PID on a flour density other than 998). Otherwise it states a
  bound of at most one record per press, because which fuzzy presses
  complete depends on the engine; `Step` and `After` state that exactly,
  press by press.

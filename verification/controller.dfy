/**
 The two controllers that compute a flow adjustment from the %DS error: the
 discrete PID update and the fuzzy-inference engine, which is a black box
 supplied from outside the model.
 */
module Controller {

  datatype Option<T> = None | Some(value: T)

  /** The fuzzy engine: given the error and its change since the previous step
      it either answers a crisp adjustment or declines (the inference library
      raises when no rule of its table fires for the given inputs). Its rule
      base and membership functions are fixed once per session, so it is a
      pure function of its two inputs. */
  type FuzzyEngine = (real, real) -> Option<real>

  /** Bounds of the engine's output universe. */
  const AdjustmentMin: real := -500.0
  const AdjustmentMax: real := 500.0

  /** ASSUMPTION about the inference library, not something the model proves:
      every crisp output is a centroid over the output universe and so lies
      within it. Lemmas that need it take it as a precondition. */
  ghost predicate WithinOutputUniverse(engine: FuzzyEngine)
  {
    forall e: real, d: real ::
      engine(e, d).Some? ==> AdjustmentMin <= engine(e, d).value <= AdjustmentMax
  }

  /** The controller chosen for a step; the PID gains exist only in PID mode. */
  datatype Mode = Pid(gains: PidGains) | Fuzzy

  datatype PidGains = PidGains(kp: real, ki: real, kd: real)

  /** The three values the PID update hands back: the adjustment, the new
      integral accumulator and the error to remember for the next step. */
  datatype PidOutput = PidOutput(output: real, integral: real, prevError: real)

  /** One discrete, unfiltered PID update, without anti-windup or output
      clamping. */
  function PidControl(error: real, prevError: real, integral: real, g: PidGains): (r: PidOutput)
    ensures r.integral - integral == error
    ensures r.prevError == error
    ensures r.output == g.kp * error + g.ki * r.integral + g.kd * (error - prevError)
  {
    var integral' := integral + error;
    var derivative := error - prevError;
    PidOutput(g.kp * error + g.ki * integral' + g.kd * derivative, integral', error)
  }

  /** With all gains zero the adjustment is zero, yet the integral still
      accumulates the error. */
  lemma PidZeroGains(error: real, prevError: real, integral: real)
    ensures PidControl(error, prevError, integral, PidGains(0.0, 0.0, 0.0)).output == 0.0
    ensures PidControl(error, prevError, integral, PidGains(0.0, 0.0, 0.0)).integral == integral + error
  {
  }

  function AddGains(g1: PidGains, g2: PidGains): PidGains
  {
    PidGains(g1.kp + g2.kp, g1.ki + g2.ki, g1.kd + g2.kd)
  }

  /** The adjustment is linear in the gains: the P, I and D actions add up
      independently, and the state part of the update ignores the gains. */
  lemma PidLinearInGains(error: real, prevError: real, integral: real, g1: PidGains, g2: PidGains)
    ensures PidControl(error, prevError, integral, AddGains(g1, g2)).output
         == PidControl(error, prevError, integral, g1).output
          + PidControl(error, prevError, integral, g2).output
    ensures PidControl(error, prevError, integral, g1).integral
         == PidControl(error, prevError, integral, g2).integral
  {
  }

  /** At rest (no error now and none before) only the integral action acts,
      holding the adjustment at Ki times the accumulated integral. */
  lemma PidAtRest(integral: real, g: PidGains)
    ensures PidControl(0.0, 0.0, integral, g).output == g.ki * integral
    ensures PidControl(0.0, 0.0, integral, g).integral == integral
  {
  }
}

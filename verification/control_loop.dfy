/**
 The closed control loop: the state kept across presses of "Simular", the
 step that runs the process model, the selected controller and the clamped
 flow update, and the four parallel history lists it appends to.
 */
module ControlLoop {
  import opened ProcessModel
  import opened Controller

  /** The operator's measurements for one step. */
  datatype Measurement = Measurement(
    humidity: real,        // flour humidity, percent
    baseDensity: real,     // flour base density, kg/m³
    mixtureDensity: real,  // mixture density after TQ1
    stage2Density: real,   // density after stage 2
    mixtureFlow: real,     // mixture flow, kg/h
    stage2Flow: real       // stage-2 flow, kg/h
  )

  /** Everything one press of "Simular" reads from the form. */
  datatype Command = Command(m: Measurement, setpoint: real, mode: Mode)

  /** The four parallel history lists: step number, %DS after TQ1, solids
      loss and the TQ3 flow after the step. */
  datatype History = History(
    simulacao: seq<int>,
    dsTq1: seq<real>,
    perda: seq<real>,
    vazaoTq3: seq<real>)
  {
    /** The lists have one entry per recorded step each. */
    predicate Aligned()
    {
      |simulacao| == |dsTq1| == |perda| == |vazaoTq3|
    }

    /** Appends one record, one element to each list. */
    function Record(step: int, ds: real, loss: real, flow: real): (h: History)
      ensures IsPrefixOf(h)
      ensures |h.simulacao| == |simulacao| + 1 && h.simulacao[|simulacao|] == step
      ensures |h.dsTq1| == |dsTq1| + 1 && h.dsTq1[|dsTq1|] == ds
      ensures |h.perda| == |perda| + 1 && h.perda[|perda|] == loss
      ensures |h.vazaoTq3| == |vazaoTq3| + 1 && h.vazaoTq3[|vazaoTq3|] == flow
      ensures Aligned() <==> h.Aligned()
    {
      History(simulacao + [step], dsTq1 + [ds], perda + [loss], vazaoTq3 + [flow])
    }

    /** `this` is an initial part of `other` in every list: records are only
        ever appended, never removed or rewritten. */
    predicate IsPrefixOf(other: History)
    {
      && simulacao <= other.simulacao
      && dsTq1 <= other.dsTq1
      && perda <= other.perda
      && vazaoTq3 <= other.vazaoTq3
    }
  }

  /** The session state: the manipulated TQ3 flow, the previous error, the
      PID integral, the next step number and the history. */
  datatype LoopState = LoopState(
    vazaoTq3: real,
    prevErro: real,
    integral: real,
    simCount: int,
    history: History)

  /** What a completed step reports to the operator. */
  datatype Report = Report(dsTq1: real, dsEtapa2: real, perda: real, ajuste: real)

  /** Why a press of "Simular" stops before changing anything: the corrected
      flour density equals the water density (a division by zero), or the
      fuzzy engine produced no crisp output. */
  datatype StepError = DensityGapZero | FuzzyNoOutput

  datatype Outcome = Completed(next: LoopState, report: Report) | Aborted(reason: StepError)

  /** The history a new session starts with. */
  function EmptyHistory(): (h: History)
    ensures h.Aligned() && |h.simulacao| == 0
    ensures forall other: History :: h.IsPrefixOf(other)
  {
    History([], [], [], [])
  }

  /** The state a new session starts from. */
  function Init(): (s: LoopState)
    ensures Valid(s)
    ensures s.vazaoTq3 == 1000.0 && s.prevErro == 0.0 && s.integral == 0.0
    ensures s.simCount == 1 && |s.history.simulacao| == 0
  {
    LoopState(1000.0, 0.0, 0.0, 1, EmptyHistory())
  }

  /** The invariant every reachable state keeps: a non-negative flow, aligned
      history lists numbered 1, 2, ... in append order, a step counter one
      past the last number, and a flow history that ends with the current
      flow and never dips below zero. */
  ghost predicate Valid(s: LoopState)
  {
    var h := s.history;
    && 0.0 <= s.vazaoTq3
    && h.Aligned()
    && s.simCount == |h.simulacao| + 1
    && (forall i :: 0 <= i < |h.simulacao| ==> h.simulacao[i] == i + 1)
    && (forall i :: 0 <= i < |h.vazaoTq3| ==> 0.0 <= h.vazaoTq3[i])
    && (|h.vazaoTq3| > 0 ==> h.vazaoTq3[|h.vazaoTq3| - 1] == s.vazaoTq3)
  }

  /** The TQ3 flow after applying an adjustment, floored at zero. */
  function ApplyAdjustment(flow: real, ajuste: real): (r: real)
    ensures 0.0 <= r
    ensures flow + ajuste >= 0.0 ==> r == flow + ajuste
    ensures flow + ajuste < 0.0 ==> r == 0.0
  {
    if flow + ajuste < 0.0 then 0.0 else flow + ajuste
  }

  /** The corrected flour density a command produces. */
  function FlourDensity(c: Command): real
  {
    CorrectFlourDensity(c.m.baseDensity, c.m.humidity)
  }

  /** The error against the setpoint a command produces; it is only defined
      when the flour density differs from the water density. */
  function Erro(c: Command): real
    requires FlourDensity(c) != WaterDensity
  {
    c.setpoint - EstimateDS(c.m.mixtureDensity, FlourDensity(c))
  }

  /** One press of "Simular". */
  function Step(s: LoopState, c: Command, engine: FuzzyEngine): (o: Outcome)
    ensures o.Aborted? <==>
      || FlourDensity(c) == WaterDensity
      || (c.mode.Fuzzy? && engine(Erro(c), Erro(c) - s.prevErro).None?)
    ensures FlourDensity(c) == WaterDensity ==> o == Aborted(DensityGapZero)
    ensures FlourDensity(c) != WaterDensity && o.Aborted? ==> o == Aborted(FuzzyNoOutput)
    ensures o.Completed? ==>
      var n, rep := o.next, o.report;
      && rep.dsTq1 * (FlourDensity(c) - WaterDensity) == (c.m.mixtureDensity - WaterDensity) * 100.0
      && rep.dsEtapa2 * (FlourDensity(c) - WaterDensity) == (c.m.stage2Density - WaterDensity) * 100.0
      && rep.perda + SolidsFlow(c.m.stage2Flow, rep.dsEtapa2) == SolidsFlow(c.m.mixtureFlow, rep.dsTq1)
      // both controllers remember the error just processed
      && n.prevErro == c.setpoint - rep.dsTq1
      // only the PID controller touches the integral
      && (c.mode.Pid? ==>
            && n.integral == s.integral + n.prevErro
            && rep.ajuste == c.mode.gains.kp * n.prevErro + c.mode.gains.ki * n.integral
                             + c.mode.gains.kd * (n.prevErro - s.prevErro))
      && (c.mode.Fuzzy? ==>
            && n.integral == s.integral
            && Some(rep.ajuste) == engine(n.prevErro, n.prevErro - s.prevErro))
      // the flow moves by the adjustment, floored at zero
      && 0.0 <= n.vazaoTq3
      && (s.vazaoTq3 + rep.ajuste >= 0.0 ==> n.vazaoTq3 == s.vazaoTq3 + rep.ajuste)
      && (s.vazaoTq3 + rep.ajuste < 0.0 ==> n.vazaoTq3 == 0.0)
      // exactly one record is appended, numbered with the step counter
      && n.history == s.history.Record(s.simCount, rep.dsTq1, rep.perda, n.vazaoTq3)
      && n.simCount == s.simCount + 1
  {
    var flour := FlourDensity(c);
    if flour == WaterDensity then Aborted(DensityGapZero)
    else
      var dsTq1 := EstimateDS(c.m.mixtureDensity, flour);
      var dsEtapa2 := EstimateDS(c.m.stage2Density, flour);
      var perda := EstimateSolidsLoss(c.m.mixtureFlow, dsTq1, c.m.stage2Flow, dsEtapa2);
      var erro := c.setpoint - dsTq1;
      var delta := erro - s.prevErro;
      var control: Option<(real, real, real)> :=
        match c.mode
        case Pid(g) =>
          var pid := PidControl(erro, s.prevErro, s.integral, g);
          Some((pid.output, pid.integral, pid.prevError))
        case Fuzzy =>
          match engine(erro, delta)
          case None => None
          case Some(a) => Some((a, s.integral, erro));
      match control
      case None => Aborted(FuzzyNoOutput)
      case Some((ajuste, integral, prevErro)) =>
        var vazao := ApplyAdjustment(s.vazaoTq3, ajuste);
        var history := s.history.Record(s.simCount, dsTq1, perda, vazao);
        Completed(LoopState(vazao, prevErro, integral, s.simCount + 1, history),
                  Report(dsTq1, dsEtapa2, perda, ajuste))
  }

  /** The state after one press. Both ways a press can fail (the division
      by zero and the engine declining) stop it before the flow, previous
      error, integral, history or step counter is written, so an aborted
      press leaves the state as it was; a completed press gives the state
      the step computed. */
  function After(s: LoopState, c: Command, engine: FuzzyEngine): (r: LoopState)
    ensures Step(s, c, engine).Aborted? ==> r == s
    ensures Step(s, c, engine).Completed? ==> r == Step(s, c, engine).next
    ensures s.history.IsPrefixOf(r.history)
    ensures |r.history.simulacao| == |s.history.simulacao| + (if Step(s, c, engine).Completed? then 1 else 0)
  {
    match Step(s, c, engine)
    case Completed(n, _) => n
    case Aborted(_) => s
  }

  /** Every step keeps the invariant. */
  lemma StepPreservesValid(s: LoopState, c: Command, engine: FuzzyEngine)
    ensures Valid(s) ==> Valid(After(s, c, engine))
  {
  }

  /** The error a command contributes to the PID integral: its error when it
      runs the PID controller on an admissible flour density, else nothing. */
  function PidContribution(c: Command): real
  {
    if c.mode.Pid? && FlourDensity(c) != WaterDensity then Erro(c) else 0.0
  }

  /** The errors a sequence of presses contributes to the PID integral. */
  function PidErrorSum(cmds: seq<Command>): real
    decreases |cmds|
  {
    if |cmds| == 0 then 0.0 else PidContribution(cmds[0]) + PidErrorSum(cmds[1..])
  }

  /** A press that completes whatever the state and the engine: PID mode on
      a flour density other than the water density. */
  predicate NeverAborts(c: Command)
  {
    c.mode.Pid? && FlourDensity(c) != WaterDensity
  }

  /** The state after a whole session of presses. The invariant holds
      throughout, the history only grows, and the integral accumulates
      without bound (no anti-windup): it ends as the starting integral plus
      the errors of the PID steps, whatever fuzzy steps or aborted presses
      came in between. A session of presses that never abort records
      exactly one entry per press. */
  function Run(s: LoopState, cmds: seq<Command>, engine: FuzzyEngine): (r: LoopState)
    ensures Valid(s) ==> Valid(r)
    ensures s.history.IsPrefixOf(r.history)
    ensures |r.history.simulacao| <= |s.history.simulacao| + |cmds|
    ensures (forall i :: 0 <= i < |cmds| ==> NeverAborts(cmds[i])) ==>
              |r.history.simulacao| == |s.history.simulacao| + |cmds|
    ensures r.integral == s.integral + PidErrorSum(cmds)
    decreases |cmds|
  {
    if |cmds| == 0 then s
    else
      StepPreservesValid(s, cmds[0], engine);
      Run(After(s, cmds[0], engine), cmds[1..], engine)
  }

  /** A session started fresh keeps the invariant throughout: the TQ3 flow
      is never negative, however negative the adjustments, and the history
      lists stay aligned and numbered 1, 2, ... in append order. */
  lemma SessionKeepsInvariant(cmds: seq<Command>, engine: FuzzyEngine)
    ensures var r := Run(Init(), cmds, engine);
      && 0.0 <= r.vazaoTq3
      && (forall i :: 0 <= i < |r.history.vazaoTq3| ==> 0.0 <= r.history.vazaoTq3[i])
      && |r.history.simulacao| == |r.history.dsTq1| == |r.history.perda| == |r.history.vazaoTq3|
      && (forall i :: 0 <= i < |r.history.simulacao| ==> r.history.simulacao[i] == i + 1)
      && r.simCount == |r.history.simulacao| + 1
      && |r.history.simulacao| <= |cmds|
  {
  }

  /** Pressing "Simular" again with unchanged fuzzy-mode inputs after a
      completed step feeds the engine a zero change of error, since the step
      remembered the error it processed: the repeated press is decided by the
      engine's answer at (error, 0). */
  lemma RepeatFeedsZeroDelta(s: LoopState, c: Command, engine: FuzzyEngine)
    requires Step(s, c, engine).Completed?
    requires c.mode.Fuzzy?
    ensures var o := Step(Step(s, c, engine).next, c, engine);
      && (o.Aborted? <==> engine(Erro(c), 0.0).None?)
      && (o.Completed? ==> Some(o.report.ajuste) == engine(Erro(c), 0.0))
  {
  }

  /** Under the assumption that the engine answers within its output
      universe, one fuzzy step moves a non-negative flow by at most 500 kg/h. */
  lemma FuzzyStepBounded(s: LoopState, c: Command, engine: FuzzyEngine)
    requires WithinOutputUniverse(engine)
    requires c.mode.Fuzzy?
    requires 0.0 <= s.vazaoTq3
    ensures -AdjustmentMax <= After(s, c, engine).vazaoTq3 - s.vazaoTq3 <= AdjustmentMax
  {
  }

  /** The form's defaults: flour 1250 kg/m³ at 11 % humidity, mixture
      1105 kg/m³, stage 2 1045 kg/m³, flows 5000 and 4900 kg/h, setpoint 30 %. */
  function DefaultMeasurement(): Measurement
  {
    Measurement(11.0, 1250.0, 1105.0, 1045.0, 5000.0, 4900.0)
  }

  /** A first PID press on the defaults (gains 0.5, 0.05, 0.01) from a fresh
      session: %DS after TQ1 is 21400/229 (about 93.45 %), the adjustment is
      0.56 times the error, and the flow drops from 1000 to about 964.47. */
  lemma DefaultFirstPidStep(engine: FuzzyEngine)
    ensures var o := Step(Init(), Command(DefaultMeasurement(), 30.0, Pid(PidGains(0.5, 0.05, 0.01))), engine);
      && o.Completed?
      && o.report.dsTq1 == 21400.0 / 229.0
      && o.report.ajuste == 0.56 * (30.0 - 21400.0 / 229.0)
      && o.next.vazaoTq3 == 1000.0 + 0.56 * (30.0 - 21400.0 / 229.0)
      && o.next.history.simulacao == [1]
      && o.next.simCount == 2
  {
  }

  /** The defaults in fuzzy mode: the error is 30 − 21400/229, about −63.45,
      below the engine's error universe [−50, 50]. If the first press
      completes, an identical second press hands the engine this error with a
      zero change of error, so its outcome is whatever the engine answers at
      (30 − 21400/229, 0). */
  lemma DefaultFuzzyRepeat(engine: FuzzyEngine)
    ensures var c := Command(DefaultMeasurement(), 30.0, Fuzzy);
      && FlourDensity(c) != WaterDensity
      && Erro(c) == 30.0 - 21400.0 / 229.0
      && Erro(c) < -50.0
      && (Step(Init(), c, engine).Completed? ==>
            var o := Step(Step(Init(), c, engine).next, c, engine);
            o.Aborted? <==> engine(30.0 - 21400.0 / 229.0, 0.0).None?)
  {
  }
}

/** The per-step controller: picks an operating mode from the state of charge
    and the power demand, then divides the demand between engine and motor. */
module ModeSelector {
  import opened Parameters

  /** The three operating modes of the state machine. */
  datatype Mode = EV | Hybrid | EngineOnly

  /** The integer the trace records for a mode: 0 = EV, 1 = Hybrid,
      2 = Engine Only. */
  function Code(m: Mode): (k: int)
    ensures 0 <= k <= 2
  {
    match m
    case EV => 0
    case Hybrid => 1
    case EngineOnly => 2
  }

  /** Distinct modes are recorded as distinct codes. */
  lemma CodeInjective(a: Mode, b: Mode)
    requires Code(a) == Code(b)
    ensures a == b
  {
  }

  /** Mode decision, first matching rule wins: a charged battery with demand
      inside the motor's range runs electric; a depleted battery runs the
      engine; otherwise high demand runs Hybrid and low demand runs EV.
      The ensures give each mode's region of (SoC, demand) space outright. */
  function SelectMode(c: Config, soc: real, demand: real): (m: Mode)
    requires Valid(c)
    ensures m == EngineOnly <==> soc < c.socLow
    ensures m == EV <==>
      || (c.socHigh < soc && demand < c.maxElectricPower)
      || (c.socLow <= soc && demand <= c.demandThreshold)
    ensures m == Hybrid <==>
      && c.socLow <= soc
      && c.demandThreshold < demand
      && !(c.socHigh < soc && demand < c.maxElectricPower)
  {
    if c.socHigh < soc && demand < c.maxElectricPower then EV
    else if soc < c.socLow then EngineOnly
    else if c.demandThreshold < demand then Hybrid
    else EV
  }

  /** Engine and motor power for one step, in kW. */
  datatype Split = Split(engine: real, motor: real)

  /** The smaller of two reals. */
  function Min(a: real, b: real): real
  {
    if b < a then b else a
  }

  /** Power split for a mode. EV lets the motor carry the demand up to its
      ceiling and the engine the overflow; Hybrid gives each source half,
      capping the motor's half at the ceiling and dropping the excess;
      Engine Only leaves the motor idle. */
  function PowerSplit(c: Config, mode: Mode, demand: real): (s: Split)
    requires Valid(c)
    ensures s.motor <= c.maxElectricPower
    ensures mode == EV ==>
      && (s.motor == demand || s.motor == c.maxElectricPower)
      && s.engine + s.motor == demand
      && (demand <= c.maxElectricPower <==> s.engine == 0.0)
    ensures mode == Hybrid ==>
      && s.engine == demand / 2.0
      && (s.motor == demand / 2.0 || s.motor == c.maxElectricPower)
      && s.engine + s.motor <= demand
      && (s.engine + s.motor == demand <==> demand / 2.0 <= c.maxElectricPower)
    ensures mode == EngineOnly ==> s.engine == demand && s.motor == 0.0
    ensures 0.0 <= demand ==> 0.0 <= s.engine && 0.0 <= s.motor
    ensures demand == 0.0 ==> s == Split(0.0, 0.0)
  {
    match mode
    case EV =>
      if demand <= c.maxElectricPower then Split(0.0, demand)
      else Split(demand - c.maxElectricPower, c.maxElectricPower)
    case Hybrid =>
      Split(demand / 2.0, Min(demand / 2.0, c.maxElectricPower))
    case EngineOnly =>
      Split(demand, 0.0)
  }

  /** With the demand threshold at or below the motor ceiling, EV is only
      ever chosen for demand the motor can carry, so the engine-overflow
      branch of the EV split is never taken. */
  lemma EVOverflowUnreachable(c: Config, soc: real, demand: real)
    requires Valid(c)
    requires c.demandThreshold <= c.maxElectricPower
    requires SelectMode(c, soc, demand) == EV
    ensures demand <= c.maxElectricPower
    ensures PowerSplit(c, EV, demand) == Split(0.0, demand)
  {
  }

  /** Concrete decisions under the shipped constants. SoC 0.9 with demand 10
      runs EV by the first rule; SoC 0.2 runs the engine whatever the demand;
      SoC 0.5 with demand 25 splits it evenly. SoC 0.9 with demand 35 misses
      the first rule (35 is above the motor ceiling) and, being above the
      demand threshold, runs Hybrid with 17.5 kW from each source. */
  lemma DefaultScenarios(anyDemand: real)
    ensures SelectMode(Default, 0.9, 10.0) == EV
    ensures PowerSplit(Default, EV, 10.0) == Split(0.0, 10.0)
    ensures SelectMode(Default, 0.2, anyDemand) == EngineOnly
    ensures PowerSplit(Default, EngineOnly, anyDemand) == Split(anyDemand, 0.0)
    ensures SelectMode(Default, 0.5, 25.0) == Hybrid
    ensures PowerSplit(Default, Hybrid, 25.0) == Split(12.5, 12.5)
    ensures SelectMode(Default, 0.9, 35.0) == Hybrid
    ensures PowerSplit(Default, Hybrid, 35.0) == Split(17.5, 17.5)
  {
  }
}

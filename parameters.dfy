/** Scalar parameters of one energy-management run: the time base, the
    simplified battery and the thresholds of the mode controller. */
module Parameters {

  /** The script's module-level constants, gathered into one immutable record. */
  datatype Config = Config(
    dt: real,               // time step, seconds
    totalTime: real,        // simulated duration, seconds
    capacityKWh: real,      // battery energy capacity, kWh
    voltage: real,          // nominal battery voltage, V
    socInit: real,          // state of charge at the start of the run
    socHigh: real,          // above this SoC the controller may stay electric
    socLow: real,           // below this SoC the engine must run
    demandThreshold: real,  // kW; above this a mid-range SoC selects Hybrid
    maxElectricPower: real  // kW; ceiling on motor power
  )

  /** Well-formedness of a configuration; the script never checks it, the
      model assumes it. */
  predicate Valid(c: Config)
  {
    && 0.0 < c.socLow < c.socHigh
    && c.voltage > 0.0
    && c.capacityKWh > 0.0
    && c.dt > 0.0
    && c.maxElectricPower > 0.0
  }

  /** Battery capacity in coulombs: the energy in watt-hours times 3600
      joules per watt-hour, divided by the nominal voltage. */
  function CapacityCoulombs(c: Config): (q: real)
    requires Valid(c)
    ensures q > 0.0
    ensures q * c.voltage == c.capacityKWh * 3600000.0
  {
    c.capacityKWh * 1000.0 * 3600.0 / c.voltage
  }

  /** Number of samples of the time axis 0, dt, 2*dt, ... strictly below
      totalTime (the length of the script's time array). */
  function StepCount(totalTime: real, dt: real): (n: nat)
    requires dt > 0.0
    ensures totalTime <= n as real * dt
    ensures n > 0 ==> (n - 1) as real * dt < totalTime
  {
    if totalTime <= 0.0 then 0
    else
      var q := totalTime / dt;
      var up := -((-q).Floor);
      assert q <= up as real < q + 1.0;
      assert q * dt == totalTime;
      ScaleLeq(q, up as real, dt);
      ScaleLess((up - 1) as real, q, dt);
      assert (up - 1) as real * dt < q * dt;
      assert (up - 1) as real * dt < totalTime;
      up
  }

  /** Multiplying by a positive factor keeps a non-strict order. */
  lemma ScaleLeq(a: real, b: real, d: real)
    requires a <= b && d > 0.0
    ensures a * d <= b * d
  {
  }

  /** Multiplying by a positive factor keeps a strict order. */
  lemma ScaleLess(a: real, b: real, d: real)
    requires a < b && d > 0.0
    ensures a * d < b * d
  {
  }

  /** The constants the script runs with. */
  const Default := Config(
    dt := 1.0,
    totalTime := 1800.0,
    capacityKWh := 10.0,
    voltage := 200.0,
    socInit := 0.7,
    socHigh := 0.8,
    socLow := 0.3,
    demandThreshold := 20.0,
    maxElectricPower := 30.0
  )

  /** The shipped constants are well formed, put the demand threshold below
      the motor ceiling, give 180000 C of capacity and 1800 steps. */
  lemma DefaultIsValid()
    ensures Valid(Default)
    ensures 0.0 <= Default.socInit <= 1.0
    ensures Default.demandThreshold <= Default.maxElectricPower
    ensures CapacityCoulombs(Default) == 180000.0
    ensures StepCount(Default.totalTime, Default.dt) == 1800
  {
  }
}

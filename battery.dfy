/** The simplified battery: motor power drawn for one time step removes charge
    in proportion to that power; SoC is then held inside [0, 1]. */
module BatteryIntegrator {
  import opened Parameters

  /** Saturate a value into [0, 1], as `max(0, min(1, x))`. */
  function Clamp01(x: real): (r: real)
    ensures 0.0 <= r <= 1.0
    ensures (0.0 <= x <= 1.0) <==> r == x
    ensures x < 0.0 ==> r == 0.0
    ensures 1.0 < x ==> r == 1.0
  {
    var upper := if 1.0 < x then 1.0 else x;
    if 0.0 < upper then upper else 0.0
  }

  /** Charge in coulombs removed in one step by `batteryPower` kW: the power
      in watts times the step length, divided by the nominal voltage. */
  function ChargeDrawn(c: Config, batteryPower: real): (q: real)
    requires Valid(c)
    ensures q * c.voltage == batteryPower * 1000.0 * c.dt
    ensures batteryPower > 0.0 ==> q > 0.0
  {
    batteryPower * 1000.0 * c.dt / c.voltage
  }

  /** SoC after one step before saturation. Positive power discharges the
      battery; zero or negative power leaves SoC alone (charging is not
      modelled). The drop equals the energy drawn (kW times seconds) as a
      fraction of the capacity (kWh times 3600 s/h), whatever the voltage. */
  function Discharge(c: Config, soc: real, batteryPower: real): (r: real)
    requires Valid(c)
    ensures batteryPower > 0.0 ==> soc - r == batteryPower * c.dt / (c.capacityKWh * 3600.0)
    ensures batteryPower > 0.0 ==> r < soc
    ensures batteryPower <= 0.0 ==> r == soc
  {
    if batteryPower > 0.0 then
      var dQ := ChargeDrawn(c, batteryPower);
      EnergyFraction(c, batteryPower);
      soc - dQ / CapacityCoulombs(c)
    else
      soc
  }

  /** Charge drawn over capacity in coulombs equals energy drawn over
      capacity in kilowatt-seconds: the voltage cancels. */
  lemma EnergyFraction(c: Config, p: real)
    requires Valid(c)
    ensures ChargeDrawn(c, p) / CapacityCoulombs(c) == p * c.dt / (c.capacityKWh * 3600.0)
  {
  }

  /** One step of the battery model: discharge, then saturate into [0, 1]. */
  function Integrate(c: Config, soc: real, batteryPower: real): (r: real)
    requires Valid(c)
    ensures 0.0 <= r <= 1.0
    ensures batteryPower > 0.0 ==>
      r == Clamp01(soc - batteryPower * c.dt / (c.capacityKWh * 3600.0))
    ensures batteryPower <= 0.0 ==> r == Clamp01(soc)
    ensures batteryPower <= 0.0 && 0.0 <= soc <= 1.0 ==> r == soc
    ensures 0.0 <= soc ==> r <= soc
    ensures batteryPower > 0.0 && 0.0 < soc ==> r < soc
  {
    var d := Discharge(c, soc, batteryPower);
    assert batteryPower > 0.0 ==> d == soc - batteryPower * c.dt / (c.capacityKWh * 3600.0);
    Clamp01(d)
  }
}

# Hybrid powertrain energy management

A model of the energy-management loop of a hybrid-electric vehicle
simulation (`energyManagement.py`). At each time step a three-state controller
picks an operating mode from the battery's state of charge (SoC) and the power
demand: 0 = EV, 1 = Hybrid, 2 = Engine Only. The demand is then split between
engine and motor. The motor's power is drawn from a simplified battery, whose
SoC is lowered by the charge drawn and clamped to [0, 1]. The loop threads SoC
from step to step and writes each step's SoC, mode, engine power, motor power
and battery power into five preallocated arrays at the step's index.

Modules, following the components of the loop:

- `Parameters` (parameters.dfy): the script's constants as a `Config` record,
  its well-formedness predicate `Valid`, the capacity in coulombs, the
  length of the time axis and the shipped constants `Default`.
- `ModeSelector` (mode_selector.dfy): the `Mode` state machine, its integer
  code, the mode decision and the power split.
- `BatteryIntegrator` (battery.dfy): discharge and clamp of SoC.
- `Simulation` (simulation.dfy): one step, the SoC after `i` steps, the
  trace lemmas and the `Simulate` method that fills the five arrays in a
  `for` loop.

All quantities are Dafny `real`. Configuration well-formedness
(`0 < SoC_Low < SoC_High`, positive voltage, capacity, time step and motor
ceiling) is a precondition: the script never checks it. The demand profile
is an input sequence whose length must equal the number of time samples,
which the script guarantees by generating it from the time array. There is
no I/O, clock or randomness in the model.

Two consequences of the rule order are worth spelling out. With SoC 0.9 and
demand 35, the first rule fails because 35 is not below the 30 kW motor
ceiling. The third rule then picks Hybrid, because 35 is above the 20 kW demand
threshold, and each source supplies 17.5 kW (`ModeSelector.DefaultScenarios`).
With the shipped constants, EV mode never overflows to the engine
(`ModeSelector.EVOverflowUnreachable`).

## Model

| member | source | states |
|---|---|---|
| `Parameters.CapacityCoulombs` | energyManagement.py:27-31 | capacity in coulombs is positive and times the voltage gives the energy in joules (kWh × 3.6e6) |
| `Parameters.StepCount` | energyManagement.py:7-9 | length of `arange(0, total_time, dt)`: the smallest n ≥ 0 with total_time ≤ n·dt, so (n−1)·dt < total_time when n > 0 |
| `Parameters.DefaultIsValid` | energyManagement.py:7-47 | the shipped constants are well formed, start SoC is in [0,1], demand threshold ≤ motor ceiling, capacity is 180000 C, and the run has 1800 steps |
| `ModeSelector.Code` | energyManagement.py:74-86 | every mode is recorded as 0, 1 or 2 |
| `ModeSelector.CodeInjective` | energyManagement.py:54 | distinct modes have distinct codes |
| `ModeSelector.SelectMode` | energyManagement.py:74-86 | the rule priority, restated as one region per mode. Engine Only exactly when SoC < SoC_Low, for any demand. EV exactly when (SoC > SoC_High and demand < ceiling) or (SoC ≥ SoC_Low and demand ≤ threshold). Hybrid exactly in the rest of SoC ≥ SoC_Low with demand > threshold |
| `ModeSelector.PowerSplit` | energyManagement.py:88-110 | motor ≤ ceiling in every mode. EV: motor is min(demand, ceiling), engine + motor = demand, and engine = 0 iff demand ≤ ceiling. Hybrid: engine = demand/2, motor = min(demand/2, ceiling), engine + motor ≤ demand, with equality iff demand/2 ≤ ceiling. Engine Only: engine = demand, motor = 0. Non-negative demand gives non-negative powers; zero demand gives zero powers |
| `ModeSelector.EVOverflowUnreachable` | energyManagement.py:46-98 | when threshold ≤ ceiling, choosing EV implies demand ≤ ceiling, so the engine supplies 0 and the motor supplies all of the demand |
| `ModeSelector.DefaultScenarios` | energyManagement.py:43-110 | under the shipped constants: (0.9, 10) is EV with (0, 10); SoC 0.2 is Engine Only for any demand; (0.5, 25) is Hybrid with (12.5, 12.5); (0.9, 35) is Hybrid with (17.5, 17.5) |
| `BatteryIntegrator.Clamp01` | energyManagement.py:130-131 | the result is in [0,1], equals the input iff the input is in [0,1], and is 0 below the range and 1 above it |
| `BatteryIntegrator.ChargeDrawn` | energyManagement.py:118-121 | the charge drawn in one step, times the voltage, equals the energy drawn in joules (P·1000·dt), and it is positive when power is drawn |
| `BatteryIntegrator.EnergyFraction` | energyManagement.py:116-123 | the charge drawn (P·1000·dt/V) over the capacity in coulombs equals P·dt/(3600·kWh): the voltage cancels |
| `BatteryIntegrator.Discharge` | energyManagement.py:112-128 | positive battery power lowers the unclamped SoC by exactly P·dt/(3600·kWh), which is strictly positive. Zero or negative power leaves SoC unchanged, because the charging path does nothing |
| `BatteryIntegrator.Integrate` | energyManagement.py:112-131 | new SoC is in [0,1] and is the clamp of the discharged value. It never exceeds a non-negative old SoC and is strictly below a positive old SoC when power is drawn. An in-range SoC is unchanged when no power is drawn |
| `Simulation.Step` | energyManagement.py:70-131 | battery power = motor power ≤ ceiling. Engine + motor ≤ demand for every demand, with equality in EV. New SoC is in [0,1] and does not rise from a non-negative SoC. SoC < SoC_Low gives Engine Only with engine = demand and motor = 0. If threshold ≤ ceiling, EV has engine = 0. Zero demand uses no power |
| `Simulation.SoCAfter` | energyManagement.py:66-131 | SoC after i ≥ 1 steps is in [0,1], and never exceeds a non-negative starting SoC |
| `Simulation.TraceAt` | energyManagement.py:133-138 | the record for step k stores the SoC after k + 1 steps, which is the post-update SoC and lies in [0,1], and a battery power equal to its motor power |
| `Simulation.SoCNonIncreasing` | energyManagement.py:119-131 | from a non-negative start, SoC after k steps ≤ SoC after j steps for all j ≤ k, because there is no charging path |
| `Simulation.ZeroDemandHoldsSoC` | energyManagement.py:66-131 | with all-zero demand and an in-range start, SoC after every step equals the starting SoC |
| `Simulation.DischargeStrictlyDecreases` | energyManagement.py:119-131 | if the motor draws power at step k from a positive SoC, then SoC after k steps is strictly below SoC after any earlier j steps |
| `Simulation.RecordedTraceProperties` | energyManagement.py:133-138 | arrays holding the trace have SoC in [0,1], mode codes in 0..2 and battery power = motor power at every index, and the SoC array is non-increasing from a non-negative start |
| `Simulation.RecordStep` | energyManagement.py:70-138 | one loop iteration: returns the SoC after the step and writes that step's output at index i of the five arrays, leaving every other index unchanged |
| `Simulation.Simulate` | energyManagement.py:60-138 | the five arrays are freshly allocated and have one entry per step. Index k holds step k's post-update SoC, mode code, engine, motor and battery power, as `Simulation.TraceAt` defines them from the demand prefix. SoC entries are in [0,1], modes in 0..2, battery = motor, and SoC does not increase along the array from a non-negative start |

## Left out

- Generation of the demand and speed profiles with a seeded random normal
  distribution, absolute value and clipping (energyManagement.py:14-22): the
  demand is an arbitrary input sequence; no `0 ≤ demand ≤ 40` bound is assumed.
- Plotting and the mode labels (energyManagement.py:55, 143-171): presentation only.
- The battery internal resistance, `SoC_Cruise` and the regeneration efficiency
  (energyManagement.py:37, 45, 50): declared but never read.
- The speed sample and the time value `t` of each step (energyManagement.py:69-71):
  read but never used.
- The initial `current_mode = 0` (energyManagement.py:67): overwritten by the
  mode decision before it is first read.
- Charging and regeneration: the source's charging branch is an empty `pass`,
  and the model keeps it as "SoC unchanged".
- Configuration checks: the script validates no configuration and raises
  nothing. The model assumes only the conditions in `Parameters.Valid`, which
  do not include `SoC_High < 1`.
- IEEE double rounding and numpy dtypes: all quantities are exact reals. The
  bounds and identities proved here hold for real arithmetic. Rounding could
  make, for example, the energy-fraction identity inexact in floating point.
- Determinism across runs is not stated separately: every member is a
  mathematical function of its inputs.

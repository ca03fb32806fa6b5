/** The simulation driver: one pass over the demand samples, threading the
    state of charge from step to step and recording each step's outcome. */
module Simulation {
  import opened Parameters
  import opened ModeSelector
  import opened BatteryIntegrator

  /** What one step records: the mode, the engine, motor and battery power
      (kW) and the SoC after the step. */
  datatype StepOutput = StepOutput(mode: Mode, engine: real, motor: real, battery: real, soc: real)

  /** One step of the loop: select a mode, split the demand, draw the motor
      power from the battery and update SoC. */
  function Step(c: Config, soc: real, demand: real): (o: StepOutput)
    requires Valid(c)
    ensures o.battery == o.motor
    ensures o.motor <= c.maxElectricPower
    ensures o.engine + o.motor <= demand
    ensures 0.0 <= o.soc <= 1.0
    ensures 0.0 <= soc ==> o.soc <= soc
    ensures o.motor > 0.0 && 0.0 < soc ==> o.soc < soc
    ensures o.motor <= 0.0 && 0.0 <= soc <= 1.0 ==> o.soc == soc
    ensures soc < c.socLow ==> o.mode == EngineOnly && o.engine == demand && o.motor == 0.0
    ensures o.mode == EV ==> o.engine + o.motor == demand
    ensures c.demandThreshold <= c.maxElectricPower && o.mode == EV ==>
      o.engine == 0.0 && o.motor == demand
    ensures demand == 0.0 ==> o.engine == 0.0 && o.motor == 0.0
  {
    var mode := SelectMode(c, soc, demand);
    var split := PowerSplit(c, mode, demand);
    var batteryPower := split.motor;
    StepOutput(mode, split.engine, split.motor, batteryPower, Integrate(c, soc, batteryPower))
  }

  /** SoC after the first `i` steps of a run that starts from `soc0`. After
      at least one step it lies in [0, 1]; from a non-negative start it never
      exceeds the start. */
  function SoCAfter(c: Config, soc0: real, demand: seq<real>, i: nat): (r: real)
    requires Valid(c)
    requires i <= |demand|
    ensures i > 0 ==> 0.0 <= r <= 1.0
    ensures 0.0 <= soc0 ==> r <= soc0
    decreases i
  {
    if i == 0 then soc0 else Step(c, SoCAfter(c, soc0, demand, i - 1), demand[i - 1]).soc
  }

  /** What step `k` of the run records: the SoC it stores is the SoC after
      k + 1 steps, and its battery power is its motor power. */
  function TraceAt(c: Config, soc0: real, demand: seq<real>, k: nat): (o: StepOutput)
    requires Valid(c)
    requires k < |demand|
    ensures o.soc == SoCAfter(c, soc0, demand, k + 1)
    ensures o.battery == o.motor
    ensures 0.0 <= o.soc <= 1.0
  {
    Step(c, SoCAfter(c, soc0, demand, k), demand[k])
  }

  /** The SoC trace is non-increasing: there is no charging path. */
  lemma {:induction false} SoCNonIncreasing(c: Config, soc0: real, demand: seq<real>, j: nat, k: nat)
    requires Valid(c)
    requires 0.0 <= soc0
    requires j <= k <= |demand|
    ensures SoCAfter(c, soc0, demand, k) <= SoCAfter(c, soc0, demand, j)
    decreases k
  {
    if j < k {
      SoCNonIncreasing(c, soc0, demand, j, k - 1);
      var prev := SoCAfter(c, soc0, demand, k - 1);
      assert 0.0 <= prev;
      assert Step(c, prev, demand[k - 1]).soc <= prev;
    }
  }

  /** With zero demand throughout, an in-range start SoC is kept at every step. */
  lemma {:induction false} ZeroDemandHoldsSoC(c: Config, soc0: real, demand: seq<real>, i: nat)
    requires Valid(c)
    requires 0.0 <= soc0 <= 1.0
    requires forall k :: 0 <= k < |demand| ==> demand[k] == 0.0
    requires i <= |demand|
    ensures SoCAfter(c, soc0, demand, i) == soc0
    decreases i
  {
    if i > 0 {
      ZeroDemandHoldsSoC(c, soc0, demand, i - 1);
      assert demand[i - 1] == 0.0;
    }
  }

  /** A step in which the motor draws power from a positive SoC ends strictly
      below the SoC of every earlier step; so while the motor draws power and
      SoC stays positive, the trace strictly decreases. */
  lemma DischargeStrictlyDecreases(c: Config, soc0: real, demand: seq<real>, j: nat, k: nat)
    requires Valid(c)
    requires 0.0 <= soc0
    requires j < k <= |demand|
    ensures TraceAt(c, soc0, demand, k - 1).motor > 0.0 && 0.0 < SoCAfter(c, soc0, demand, k - 1) ==>
      SoCAfter(c, soc0, demand, k) < SoCAfter(c, soc0, demand, j)
  {
    SoCNonIncreasing(c, soc0, demand, j, k - 1);
  }

  /** Index `k` of the five output arrays holds the step output `o`. */
  predicate Recorded(o: StepOutput, k: nat, socArray: array<real>, modeArray: array<int>,
                     enginePowerArray: array<real>, motorPowerArray: array<real>,
                     batteryPowerArray: array<real>)
    reads socArray, modeArray, enginePowerArray, motorPowerArray, batteryPowerArray
  {
    && k < socArray.Length && k < modeArray.Length && k < enginePowerArray.Length
    && k < motorPowerArray.Length && k < batteryPowerArray.Length
    && socArray[k] == o.soc
    && modeArray[k] == Code(o.mode)
    && enginePowerArray[k] == o.engine
    && motorPowerArray[k] == o.motor
    && batteryPowerArray[k] == o.battery
  }

  /** Arrays holding a run's trace inherit the trace's properties: SoC in
      [0, 1], a valid mode code, battery power equal to motor power and, from
      a non-negative start, a non-increasing SoC. */
  lemma RecordedTraceProperties(c: Config, demand: seq<real>, socArray: array<real>,
                                modeArray: array<int>, enginePowerArray: array<real>,
                                motorPowerArray: array<real>, batteryPowerArray: array<real>)
    requires Valid(c)
    requires socArray.Length == modeArray.Length == enginePowerArray.Length == |demand|
    requires motorPowerArray.Length == batteryPowerArray.Length == |demand|
    requires forall k :: 0 <= k < |demand| ==>
      Recorded(TraceAt(c, c.socInit, demand, k), k, socArray, modeArray,
               enginePowerArray, motorPowerArray, batteryPowerArray)
    ensures forall k :: 0 <= k < |demand| ==>
      && 0.0 <= socArray[k] <= 1.0
      && 0 <= modeArray[k] <= 2
      && batteryPowerArray[k] == motorPowerArray[k]
    ensures 0.0 <= c.socInit ==>
      forall j, k :: 0 <= j <= k < |demand| ==> socArray[k] <= socArray[j]
  {
    forall k | 0 <= k < |demand|
      ensures 0.0 <= socArray[k] <= 1.0 && 0 <= modeArray[k] <= 2
      ensures batteryPowerArray[k] == motorPowerArray[k]
    {
      assert Recorded(TraceAt(c, c.socInit, demand, k), k, socArray, modeArray,
                      enginePowerArray, motorPowerArray, batteryPowerArray);
    }
    if 0.0 <= c.socInit {
      forall j, k | 0 <= j <= k < |demand|
        ensures socArray[k] <= socArray[j]
      {
        assert Recorded(TraceAt(c, c.socInit, demand, j), j, socArray, modeArray,
                        enginePowerArray, motorPowerArray, batteryPowerArray);
        assert Recorded(TraceAt(c, c.socInit, demand, k), k, socArray, modeArray,
                        enginePowerArray, motorPowerArray, batteryPowerArray);
        SoCNonIncreasing(c, c.socInit, demand, j + 1, k + 1);
      }
    }
  }

  /** Body of the loop: one controller step from `soc` with demand `d`,
      written at index `i` of the five arrays; returns the new SoC. */
  method RecordStep(c: Config, soc: real, d: real, i: nat, socArray: array<real>,
                    modeArray: array<int>, enginePowerArray: array<real>,
                    motorPowerArray: array<real>, batteryPowerArray: array<real>)
    returns (newSoc: real)
    requires Valid(c)
    requires i < socArray.Length && i < modeArray.Length && i < enginePowerArray.Length
    requires i < motorPowerArray.Length && i < batteryPowerArray.Length
    requires socArray != enginePowerArray && socArray != motorPowerArray && socArray != batteryPowerArray
    requires enginePowerArray != motorPowerArray && enginePowerArray != batteryPowerArray
    requires motorPowerArray != batteryPowerArray
    modifies socArray, modeArray, enginePowerArray, motorPowerArray, batteryPowerArray
    ensures newSoc == Step(c, soc, d).soc
    ensures Recorded(Step(c, soc, d), i, socArray, modeArray, enginePowerArray,
                     motorPowerArray, batteryPowerArray)
    ensures forall k :: 0 <= k < socArray.Length && k != i ==> socArray[k] == old(socArray[k])
    ensures forall k :: 0 <= k < modeArray.Length && k != i ==> modeArray[k] == old(modeArray[k])
    ensures forall k :: 0 <= k < enginePowerArray.Length && k != i ==>
      enginePowerArray[k] == old(enginePowerArray[k])
    ensures forall k :: 0 <= k < motorPowerArray.Length && k != i ==>
      motorPowerArray[k] == old(motorPowerArray[k])
    ensures forall k :: 0 <= k < batteryPowerArray.Length && k != i ==>
      batteryPowerArray[k] == old(batteryPowerArray[k])
  {
    var mode := SelectMode(c, soc, d);
    var split := PowerSplit(c, mode, d);
    var batteryPower := split.motor;
    newSoc := Integrate(c, soc, batteryPower);

    socArray[i] := newSoc;
    modeArray[i] := Code(mode);
    enginePowerArray[i] := split.engine;
    motorPowerArray[i] := split.motor;
    batteryPowerArray[i] := batteryPower;
  }

  /** Run the controller over `demand`, one step per sample of the time axis,
      writing each step's SoC, mode code, engine, motor and battery power at
      index i of five zero-initialised arrays. */
  method Simulate(c: Config, demand: seq<real>)
    returns (socArray: array<real>, modeArray: array<int>, enginePowerArray: array<real>,
             motorPowerArray: array<real>, batteryPowerArray: array<real>)
    requires Valid(c)
    requires |demand| == StepCount(c.totalTime, c.dt)
    ensures fresh(socArray) && fresh(modeArray) && fresh(enginePowerArray)
    ensures fresh(motorPowerArray) && fresh(batteryPowerArray)
    ensures socArray.Length == modeArray.Length == enginePowerArray.Length == |demand|
    ensures motorPowerArray.Length == batteryPowerArray.Length == |demand|
    ensures forall k :: 0 <= k < |demand| ==>
      Recorded(TraceAt(c, c.socInit, demand, k), k, socArray, modeArray,
               enginePowerArray, motorPowerArray, batteryPowerArray)
    ensures forall k :: 0 <= k < |demand| ==>
      && 0.0 <= socArray[k] <= 1.0
      && 0 <= modeArray[k] <= 2
      && batteryPowerArray[k] == motorPowerArray[k]
    ensures 0.0 <= c.socInit ==>
      forall j, k :: 0 <= j <= k < |demand| ==> socArray[k] <= socArray[j]
  {
    var n := StepCount(c.totalTime, c.dt);
    socArray := new real[n](_ => 0.0);
    modeArray := new int[n](_ => 0);
    enginePowerArray := new real[n](_ => 0.0);
    motorPowerArray := new real[n](_ => 0.0);
    batteryPowerArray := new real[n](_ => 0.0);

    var soc := c.socInit;
    for i := 0 to n
      invariant soc == SoCAfter(c, c.socInit, demand, i)
      invariant forall k :: 0 <= k < i ==>
        Recorded(TraceAt(c, c.socInit, demand, k), k, socArray, modeArray,
                 enginePowerArray, motorPowerArray, batteryPowerArray)
    {
      assert TraceAt(c, c.socInit, demand, i) == Step(c, soc, demand[i]);
      soc := RecordStep(c, soc, demand[i], i, socArray, modeArray, enginePowerArray,
                        motorPowerArray, batteryPowerArray);
    }

    RecordedTraceProperties(c, demand, socArray, modeArray, enginePowerArray,
                            motorPowerArray, batteryPowerArray);
  }
}

/**
 * The bioreactor engine: the process state, the actuator inputs, the parameter set
 * and one explicit Euler step of the coupled level / temperature / oxygen / pH /
 * biomass / agitation / pressure model.  Python floats are modelled as `real`.
 */
module Sim {
  import opened Wrappers

  /** The process variables. `biomass` is the source's `X`. */
  datatype State = State(
    t: real,             // simulation clock [s]
    level: real,         // liquid level [% of useful height]
    temp: real,          // broth temperature [degC]
    od: real,            // dissolved oxygen [% saturation]
    ph: real,
    agitationRpm: real,
    biomass: real,       // [g/L]
    pressureKpa: real)   // headspace pressure [kPa]

  const DefaultState := State(0.0, 50.0, 30.0, 60.0, 6.8, 200.0, 0.5, 101.3)

  /** The six actuator settings. The valves are integers read by truthiness. */
  datatype Inputs = Inputs(
    valveIn: int,
    valveOut: int,
    heater: real,
    aeration: real,
    agitation: real,
    vent: real)

  const DefaultInputs := Inputs(0, 1, 0.0, 0.3, 0.5, 0.5)

  /** The parameter set assigned by the constructor. */
  datatype Params = Params(
    area: real, qinMax: real, qoutMax: real,
    cp: real, kLoss: real, heaterPower: real, tAmb: real,
    odSat: real, kla0: real,
    patm: real, kPin: real, kPout: real, kPgen: real, pMin: real, pMax: real)
  {
    /** The divisors of the step are non-zero and the pressure band is not empty. */
    predicate WellFormed() {
      area != 0.0 && cp != 0.0 && patm != 0.0 && pMin <= pMax
    }
  }

  const DefaultParams := Params(
    0.05, 0.001, 0.001,
    1.5, 0.05, 5.0, 25.0,
    100.0, 0.2,
    101.3, 2.0, 5.0, 0.2, 95.0, 200.0)

  /** The three `random.random()` draws of one step, in the order the step takes them. */
  datatype Draws = Draws(
    r1: real,   // pH noise
    r2: real,   // temperature sensor noise
    r3: real)   // dissolved-oxygen sensor noise
  {
    predicate InUnitRange() {
      0.0 <= r1 < 1.0 && 0.0 <= r2 < 1.0 && 0.0 <= r3 < 1.0
    }
  }

  /** Logistic growth rate and carrying capacity, local constants of the step. */
  const Mu := 0.08
  const XMax := 5.0

  /** Inputs as the command handlers leave them: valves 0 or 1, the rest in [0,1]. */
  predicate InputsValid(u: Inputs) {
    (u.valveIn == 0 || u.valveIn == 1) && (u.valveOut == 0 || u.valveOut == 1)
    && 0.0 <= u.heater <= 1.0 && 0.0 <= u.aeration <= 1.0
    && 0.0 <= u.agitation <= 1.0 && 0.0 <= u.vent <= 1.0
  }

  /**
   * The bounds every state reached by the engine respects. Dissolved oxygen gets
   * the clamp widened by the sensor noise, which is added after the clamp.
   */
  predicate InBounds(p: Params, x: State) {
    0.0 <= x.level <= 100.0 && 5.5 <= x.ph <= 8.5
    && p.pMin <= x.pressureKpa <= p.pMax
    && 100.0 <= x.agitationRpm <= 700.0
    && -0.05 <= x.od < 150.05
  }

  /** Python's `max(lo, min(hi, v))`, keeping the argument order of the builtins. */
  function Clamp(lo: real, hi: real, v: real): (r: real)
    requires lo <= hi
    ensures lo <= r <= hi
    ensures lo <= v <= hi ==> r == v
    ensures v < lo ==> r == lo
    ensures hi < v ==> r == hi
  {
    var m := if v < hi then v else hi;
    if m > lo then m else lo
  }

  /** Volume balance: the level after this tick, saturated to [0,100]. */
  function LevelAfter(p: Params, level: real, u: Inputs, dt: real): (r: real)
    requires p.WellFormed()
    ensures 0.0 <= r <= 100.0
    ensures u.valveIn == u.valveOut && p.qinMax == p.qoutMax && 0.0 <= level <= 100.0 ==> r == level
  {
    var qin := if u.valveIn != 0 then p.qinMax else 0.0;
    var qout := if u.valveOut != 0 then p.qoutMax else 0.0;
    Clamp(0.0, 100.0, level + (qin - qout) / p.area * dt * 10.0)
  }

  /** Energy balance, before the sensor noise. No clamp. */
  function TempAfterBalance(p: Params, temp: real, u: Inputs, dt: real): real
    requires p.WellFormed()
  {
    temp + (p.heaterPower * u.heater - p.kLoss * (temp - p.tAmb)) / p.cp * dt
  }

  /**
   * Oxygen transfer, before the sensor noise, saturated to [0,150]. It reads the
   * pressure and the biomass as they were at the start of the tick.
   */
  function OxygenAfterTransfer(p: Params, od: real, biomass: real, pressure: real,
                               aeration: real, agitation: real, dt: real): (r: real)
    requires p.WellFormed()
    ensures 0.0 <= r <= 150.0
  {
    var kla := p.kla0 * (1.0 + 2.0 * aeration + 1.5 * agitation);
    var ro2 := 0.03 * biomass;
    var odSatEff := p.odSat * (pressure / p.patm);
    Clamp(0.0, 150.0, od + (kla * (odSatEff - od) - ro2) * dt)
  }

  /** pH relaxation towards 6.8 with noise from the first draw, saturated to [5.5,8.5]. */
  function PhAfter(ph: real, r1: real, dt: real): (r: real)
    ensures 5.5 <= r <= 8.5
    ensures 5.5 <= ph <= 8.5 && dt == 0.0 ==> r == ph
  {
    Clamp(5.5, 8.5, ph + (-0.02 * (ph - 6.8) + 0.01 * (r1 - 0.5)) * dt)
  }

  /** Logistic biomass growth. No clamp. */
  function BiomassAfter(b: real, dt: real): real {
    b + Mu * b * (1.0 - b / XMax) * dt
  }

  /** Agitator speed: an algebraic function of the agitation input alone. */
  function RpmFor(u: Inputs): (r: real)
    ensures 0.0 <= u.agitation <= 1.0 ==> 100.0 <= r <= 700.0
    ensures u.agitation == 0.0 ==> r == 100.0
    ensures u.agitation == 1.0 ==> r == 700.0
  {
    100.0 + 600.0 * u.agitation
  }

  /**
   * Headspace pressure balance, saturated to [pMin,pMax]. `biomass` is the
   * biomass already grown this tick.
   */
  function PressureAfter(p: Params, pressure: real, biomass: real, u: Inputs, dt: real): (r: real)
    requires p.WellFormed()
    ensures p.pMin <= r <= p.pMax
  {
    var dP := p.kPin * u.aeration - p.kPout * u.vent * (pressure - p.patm) + p.kPgen * biomass;
    Clamp(p.pMin, p.pMax, pressure + dP * dt)
  }

  /** Temperature sensor noise from the second draw. */
  function TempNoise(r2: real): (n: real)
    ensures 0.0 <= r2 < 1.0 ==> -0.01 <= n < 0.01
  {
    (r2 - 0.5) * 0.02
  }

  /** Dissolved-oxygen sensor noise from the third draw. */
  function OxygenNoise(r3: real): (n: real)
    ensures 0.0 <= r3 < 1.0 ==> -0.05 <= n < 0.05
  {
    (r3 - 0.5) * 0.1
  }

  /**
   * One tick of the engine as a function of the state at its start. The od noise
   * is added after the od clamp and is not clamped again.
   */
  function Advance(p: Params, x: State, u: Inputs, dt: real, d: Draws): (r: State)
    requires p.WellFormed()
    ensures r.t == x.t + dt
    ensures 0.0 <= r.level <= 100.0
    ensures 5.5 <= r.ph <= 8.5
    ensures p.pMin <= r.pressureKpa <= p.pMax
    ensures r.agitationRpm == RpmFor(u)
    ensures d.InUnitRange() ==> -0.05 <= r.od < 150.05
  {
    var grown := BiomassAfter(x.biomass, dt);
    x.(t := x.t + dt,
       level := LevelAfter(p, x.level, u, dt),
       temp := TempAfterBalance(p, x.temp, u, dt) + TempNoise(d.r2),
       od := OxygenAfterTransfer(p, x.od, x.biomass, x.pressureKpa, u.aeration, u.agitation, dt)
             + OxygenNoise(d.r3),
       ph := PhAfter(x.ph, d.r1, dt),
       biomass := grown,
       agitationRpm := RpmFor(u),
       pressureKpa := PressureAfter(p, x.pressureKpa, grown, u, dt))
  }

  /**
   * The oxygen noise is added after the clamp and nothing clamps again: from an
   * empty vessel a low draw takes the reading below 0.
   */
  lemma OdEscapesClampBelow()
    ensures Advance(DefaultParams, DefaultState.(od := 0.0), DefaultInputs, 0.0, Draws(0.5, 0.5, 0.0)).od < 0.0
  {
  }

  /** Likewise a saturated vessel and a high draw take the reading above 150. */
  lemma OdEscapesClampAbove()
    ensures Advance(DefaultParams, DefaultState.(od := 150.0), DefaultInputs, 0.0, Draws(0.5, 0.5, 0.9)).od > 150.0
  {
  }

  /** A step keeps the engine's bounds whatever state it starts from. */
  lemma StepKeepsInvariant(p: Params, x: State, u: Inputs, dt: real, d: Draws)
    requires p.WellFormed() && InputsValid(u) && d.InUnitRange()
    ensures InBounds(p, Advance(p, x, u, dt, d))
  {
  }

  /** The agitator speed after a step does not depend on the state before it. */
  lemma RpmIgnoresHistory(p: Params, x1: State, x2: State, u: Inputs, dt: real, d1: Draws, d2: Draws)
    requires p.WellFormed()
    ensures Advance(p, x1, u, dt, d1).agitationRpm == Advance(p, x2, u, dt, d2).agitationRpm
  {
  }

  /**
   * The oxygen update reads the pressure from before this tick's pressure update:
   * the vent setting, which only enters the pressure balance, cannot change it.
   */
  lemma OxygenIgnoresVent(p: Params, x: State, u: Inputs, vent: real, dt: real, d: Draws)
    requires p.WellFormed()
    ensures Advance(p, x, u, dt, d).od == Advance(p, x, u.(vent := vent), dt, d).od
  {
    var u2 := u.(vent := vent);
    assert u2.aeration == u.aeration && u2.agitation == u.agitation;
  }

  /** With both valves in the same position and equal flow maxima the level holds. */
  lemma LevelHeldWhenValvesMatch(p: Params, x: State, u: Inputs, dt: real, d: Draws)
    requires p.WellFormed() && p.qinMax == p.qoutMax
    requires u.valveIn == u.valveOut && 0.0 <= x.level <= 100.0
    ensures Advance(p, x, u, dt, d).level == x.level
  {
  }

  /** Arithmetic step for the biomass lemmas: a product of non-negative reals is non-negative. */
  lemma ProductNonNegative(a: real, b: real)
    requires 0.0 <= a && 0.0 <= b
    ensures 0.0 <= a * b
  {
  }

  /** Below the carrying capacity, a forward step never shrinks the biomass. */
  lemma BiomassGrows(b: real, dt: real)
    requires 0.0 <= b <= XMax && 0.0 <= dt
    ensures BiomassAfter(b, dt) >= b
  {
    var room := 1.0 - b / XMax;
    assert room >= 0.0;
    ProductNonNegative(b, room);
    ProductNonNegative(b * room, dt);
    assert BiomassAfter(b, dt) == b + Mu * ((b * room) * dt);
  }

  /**
   * While `Mu * dt <= 1` a step from [0,XMax] stays in [0,XMax]: the Euler step of
   * the logistic law cannot overshoot the carrying capacity.
   */
  lemma BiomassBelowCapacity(b: real, dt: real)
    requires 0.0 <= b <= XMax && 0.0 <= dt && Mu * dt <= 1.0
    ensures b <= BiomassAfter(b, dt) <= XMax
  {
    BiomassGrows(b, dt);
    var shrink := b * (Mu * dt) / XMax;
    assert XMax - BiomassAfter(b, dt) == (XMax - b) * (1.0 - shrink);
    ProductNonNegative(XMax - b, Mu * dt);
    assert b * (Mu * dt) <= XMax * (Mu * dt);
    assert shrink <= 1.0;
    ProductNonNegative(XMax - b, 1.0 - shrink);
  }

  /** With a long enough step the biomass does overshoot the capacity; nothing corrects it. */
  lemma BiomassOvershootsAtLargeStep()
    ensures BiomassAfter(4.0, 25.0) > XMax
  {
  }

  /**
   * With the heater off and a step short enough (`kLoss * dt <= cp`), the energy
   * balance moves a warm broth towards the ambient temperature without crossing it.
   */
  lemma TempRelaxesTowardAmbient(p: Params, temp: real, u: Inputs, dt: real)
    requires p.WellFormed() && p.cp > 0.0 && p.kLoss >= 0.0
    requires u.heater == 0.0 && 0.0 <= dt && p.kLoss * dt <= p.cp
    requires temp >= p.tAmb
    ensures p.tAmb <= TempAfterBalance(p, temp, u, dt) <= temp
  {
    var e := temp - p.tAmb;
    var f := p.kLoss * dt / p.cp;
    assert 0.0 <= f <= 1.0;
    assert TempAfterBalance(p, temp, u, dt) - p.tAmb == e * (1.0 - f);
    assert e * f >= 0.0;
  }

  /** Repeated steps at a fixed dt with fixed inputs, one per element of `ds`. */
  function Run(p: Params, x: State, u: Inputs, dt: real, ds: seq<Draws>): State
    requires p.WellFormed()
    decreases |ds|
  {
    if ds == [] then x else Run(p, Advance(p, x, u, dt, ds[0]), u, dt, ds[1..])
  }

  /** After n steps of dt the clock has advanced by exactly n * dt. */
  lemma {:induction false} RunAdvancesClock(p: Params, x: State, u: Inputs, dt: real, ds: seq<Draws>)
    requires p.WellFormed()
    ensures Run(p, x, u, dt, ds).t == x.t + |ds| as real * dt
    decreases |ds|
  {
    if ds != [] {
      var y := Advance(p, x, u, dt, ds[0]);
      RunAdvancesClock(p, y, u, dt, ds[1..]);
      assert |ds[1..]| as real * dt + dt == |ds| as real * dt;
    }
  }

  /** Any number of steps keeps the engine's bounds. */
  lemma {:induction false} RunKeepsInvariant(p: Params, x: State, u: Inputs, dt: real, ds: seq<Draws>)
    requires p.WellFormed() && InputsValid(u) && InBounds(p, x)
    requires forall i :: 0 <= i < |ds| ==> ds[i].InUnitRange()
    ensures InBounds(p, Run(p, x, u, dt, ds))
    decreases |ds|
  {
    if ds != [] {
      StepKeepsInvariant(p, x, u, dt, ds[0]);
      RunKeepsInvariant(p, Advance(p, x, u, dt, ds[0]), u, dt, ds[1..]);
    }
  }

  /** Any number of steps with `Mu * dt <= 1` keeps the biomass growing and below XMax. */
  lemma {:induction false} RunKeepsBiomassBelowCapacity(p: Params, x: State, u: Inputs, dt: real, ds: seq<Draws>)
    requires p.WellFormed() && 0.0 <= x.biomass <= XMax && 0.0 <= dt && Mu * dt <= 1.0
    ensures x.biomass <= Run(p, x, u, dt, ds).biomass <= XMax
    decreases |ds|
  {
    if ds != [] {
      BiomassBelowCapacity(x.biomass, dt);
      RunKeepsBiomassBelowCapacity(p, Advance(p, x, u, dt, ds[0]), u, dt, ds[1..]);
    }
  }

  /** The published sensor readings; `temperature` and `dissolvedOxygen` are `temp` and `od`. */
  datatype Sensors = Sensors(
    t: real, level: real, temperature: real, dissolvedOxygen: real, ph: real,
    agitationRpm: real, biomass: real, pressureKpa: real,
    actuators: Option<Inputs>)

  /** The simulation engine: one state, one set of inputs, one parameter set. */
  class BioReactorSim {
    var x: State
    var u: Inputs
    var p: Params
    /** The seed last given to the noise generator. */
    var seed: int

    ghost predicate Valid()
      reads this
    {
      p == DefaultParams && InputsValid(u) && InBounds(p, x)
    }

    constructor (seed: int)
      ensures Valid()
      ensures x == DefaultState && u == DefaultInputs && p == DefaultParams
      ensures this.seed == seed
    {
      this.seed := seed;
      x := DefaultState;
      u := DefaultInputs;
      p := DefaultParams;
    }

    /** Re-running the constructor on an existing engine: fresh state and inputs, same parameters. */
    method Reset(seed: int)
      modifies this
      ensures Valid()
      ensures x == DefaultState && u == DefaultInputs && p == DefaultParams
      ensures this.seed == seed
    {
      this.seed := seed;
      x := DefaultState;
      u := DefaultInputs;
      p := DefaultParams;
    }

    /**
     * One Euler step, field by field in the source's order. Only the state is
     * written: the inputs, the parameters and the seed are outside the frame.
     */
    method Step(dt: real, d: Draws)
      requires Valid() && d.InUnitRange()
      modifies this`x
      ensures Valid()
      ensures x == Advance(p, old(x), u, dt, d)
    {
      ghost var x0 := x;
      x := x.(level := LevelAfter(p, x.level, u, dt));
      x := x.(temp := TempAfterBalance(p, x.temp, u, dt));
      x := x.(od := OxygenAfterTransfer(p, x.od, x.biomass, x.pressureKpa, u.aeration, u.agitation, dt));
      x := x.(ph := PhAfter(x.ph, d.r1, dt));
      x := x.(biomass := BiomassAfter(x.biomass, dt));
      x := x.(agitationRpm := RpmFor(u));
      x := x.(pressureKpa := PressureAfter(p, x.pressureKpa, x.biomass, u, dt));
      x := x.(temp := x.temp + TempNoise(d.r2));
      x := x.(od := x.od + OxygenNoise(d.r3));
      x := x.(t := x.t + dt);
      StepKeepsInvariant(p, x0, u, dt, d);
    }

    /** The actuator snapshot: the inputs themselves, valves as 0/1 integers. */
    function Actuators(): (r: Inputs)
      reads this
      requires Valid()
      ensures InputsValid(r)
      ensures r == u
    {
      u
    }

    /** The sensor snapshot, with the actuators merged in on request. */
    function Readout(includeActuators: bool): (r: Sensors)
      reads this
      requires Valid()
      ensures 0.0 <= r.level <= 100.0 && 5.5 <= r.ph <= 8.5
      ensures 95.0 <= r.pressureKpa <= 200.0 && 100.0 <= r.agitationRpm <= 700.0
      ensures -0.05 <= r.dissolvedOxygen < 150.05
      ensures r.t == x.t && r.level == x.level && r.temperature == x.temp && r.dissolvedOxygen == x.od
      ensures r.ph == x.ph && r.agitationRpm == x.agitationRpm && r.biomass == x.biomass
      ensures r.pressureKpa == x.pressureKpa
      ensures r.actuators.Some? <==> includeActuators
      ensures includeActuators ==> InputsValid(r.actuators.value)
      ensures includeActuators ==> r.actuators == Some(u)
    {
      Sensors(x.t, x.level, x.temp, x.od, x.ph, x.agitationRpm, x.biomass, x.pressureKpa,
              if includeActuators then Some(Actuators()) else None)
    }
  }
}

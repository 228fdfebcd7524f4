/**
 * The command side of the simulator process: turning a (topic, payload) pair
 * into a change of the engine's inputs, a reset or a new time scale, the two
 * HTTP control endpoints, and the tick length of the driver loop.
 */
module Control {
  import opened Wrappers
  import opened PyStr
  import opened Sim

  /** A Python float as `float()` may produce it: finite, an infinity, or NaN. */
  datatype PyFloat = Finite(value: real) | PosInf | NegInf | NaN

  /** Python's `float(s)` / `int(s)`: `None` where they raise. Their grammars are not modelled. */
  type FloatParser = string -> Option<PyFloat>
  type IntParser = string -> Option<int>

  /** Python's `f < a` for a finite `a`; every comparison with NaN is false. */
  predicate PyLess(f: PyFloat, a: real) {
    match f
    case Finite(v) => v < a
    case NegInf => true
    case _ => false
  }

  /**
   * Python's `max(lo, min(hi, f))`. `min` keeps its first argument unless the
   * second is strictly smaller, so NaN and +inf both come out as `hi`.
   */
  function ClampPy(lo: real, hi: real, f: PyFloat): (r: real)
    requires lo <= hi
    ensures lo <= r <= hi
    ensures f.Finite? ==> r == Clamp(lo, hi, f.value)
    ensures f.NaN? || f.PosInf? ==> r == hi
    ensures f.NegInf? ==> r == lo
  {
    var m := if PyLess(f, hi) then f else Finite(hi);
    match m
    case Finite(v) => if v > lo then v else lo
    case _ => lo
  }

  const BoolOnWords: set<string> := {"1", "on", "true", "yes"}
  const FloatOnWords: set<string> := {"on", "true", "yes"}
  const FloatOffWords: set<string> := {"off", "false", "no"}

  /** `_to_bool01`: 1 exactly for the four "on" words, after trimming and lower-casing. */
  function ToBool01(v: string): (r: int)
    ensures r == 0 || r == 1
    ensures r == 1 <==> Normalize(v) in BoolOnWords
  {
    if Normalize(v) in BoolOnWords then 1 else 0
  }

  /**
   * What `_to_float01` does with an already trimmed and lower-cased payload:
   * keywords first, then the number clamped to [0,1]; a payload that does not
   * parse gives 0.0, not the previous setting.
   */
  function Float01OfNormalized(s: string, parse: FloatParser): (r: real)
    ensures 0.0 <= r <= 1.0
    ensures s in FloatOnWords ==> r == 1.0
    ensures s in FloatOffWords ==> r == 0.0
    ensures s !in FloatOnWords && s !in FloatOffWords && parse(s).None? ==> r == 0.0
    ensures s !in FloatOnWords && s !in FloatOffWords && parse(s).Some? ==> r == ClampPy(0.0, 1.0, parse(s).value)
  {
    if s in FloatOnWords then 1.0
    else if s in FloatOffWords then 0.0
    else
      var f := match parse(s) case Some(g) => g case None => Finite(0.0);
      ClampPy(0.0, 1.0, f)
  }

  /** `_to_float01`: normalise, then classify; the result is always a valid continuous setting. */
  function ToFloat01(v: string, parse: FloatParser): (r: real)
    ensures 0.0 <= r <= 1.0
  {
    Float01OfNormalized(Normalize(v), parse)
  }

  /** A payload with no whitespace at either end is only lower-cased. */
  lemma NormalizeOfTrimmed(s: string)
    requires s == [] || (!IsSpace(s[0]) && !IsSpace(s[|s| - 1]))
    ensures Normalize(s) == Lower(s)
  {
    assert RStrip(s) == s;
    assert LStrip(s) == s;
  }

  /** The boolean helper accepts padded, upper-case "on" words and nothing numeric but "1". */
  lemma ToBool01Examples()
    ensures ToBool01(" On\t") == 1
    ensures ToBool01("YES") == 1
    ensures ToBool01("1.0") == 0
    ensures ToBool01("off") == 0
  {
    assert RStrip(" On\t") == " On";
    assert LStrip(" On") == "On";
    assert Lower("On") == "on";
    assert Normalize(" On\t") == "on";
    NormalizeOfTrimmed("YES");
    assert Lower("YES") == "yes";
    NormalizeOfTrimmed("1.0");
    assert Lower("1.0") == "1.0";
    NormalizeOfTrimmed("off");
    assert Lower("off") == "off";
  }

  /** An out-of-range number saturates, and garbage gives 0.0 whatever the previous setting. */
  lemma ToFloat01Examples(parse: FloatParser)
    requires parse("2.5") == Some(Finite(2.5))
    requires parse("garbage") == None
    ensures ToFloat01("2.5", parse) == 1.0
    ensures ToFloat01("garbage", parse) == 0.0
    ensures ToFloat01(" False ", parse) == 0.0
  {
    NormalizeOfTrimmed("2.5");
    assert Lower("2.5") == "2.5";
    NormalizeOfTrimmed("garbage");
    assert Lower("garbage") == "garbage";
    assert RStrip(" False ") == " False";
    assert LStrip(" False") == "False";
    assert Lower("False") == "false";
    assert Normalize(" False ") == "false";
  }

  /** Normalising the payload before the helpers see it does not change their result. */
  lemma HelpersIgnoreNormalizedPayload(v: string, parse: FloatParser)
    ensures ToBool01(Normalize(v)) == ToBool01(v)
    ensures ToFloat01(Normalize(v), parse) == ToFloat01(v, parse)
  {
    NormalizeIdempotent(v);
  }

  /** Python's `str.endswith`. */
  predicate EndsWith(s: string, suffix: string) {
    |suffix| <= |s| && s[|s| - |suffix|..] == suffix
  }

  /** Two suffixes of one string: the shorter is a suffix of the longer. */
  lemma SuffixOfSuffix(s: string, a: string, b: string)
    requires EndsWith(s, a) && EndsWith(s, b) && |a| <= |b|
    ensures EndsWith(b, a)
  {
    assert b[|b| - |a|..] == s[|s| - |a|..];
  }

  /** The six inputs a command may address, by the topic suffix that selects each. */
  datatype Actuator = ValveIn | ValveOut | Heater | Aeration | Agitation | Vent
  {
    predicate IsValve() { this == ValveIn || this == ValveOut }

    function Suffix(): string {
      match this
      case ValveIn => "/valve_in"
      case ValveOut => "/valve_out"
      case Heater => "/heater"
      case Aeration => "/aeration"
      case Agitation => "/agitation"
      case Vent => "/vent"
    }
  }

  /** The current setting of one input, valves read as reals. */
  function Setting(u: Inputs, a: Actuator): real {
    match a
    case ValveIn => u.valveIn as real
    case ValveOut => u.valveOut as real
    case Heater => u.heater
    case Aeration => u.aeration
    case Agitation => u.agitation
    case Vent => u.vent
  }

  /** No topic ends with two of the six suffixes, so at most one branch of the handler fires. */
  lemma SuffixesExclusive(topic: string, a: Actuator, b: Actuator)
    requires EndsWith(topic, a.Suffix()) && EndsWith(topic, b.Suffix())
    ensures a == b
  {
    if a != b {
      var (s, l) := if |a.Suffix()| <= |b.Suffix()| then (a.Suffix(), b.Suffix()) else (b.Suffix(), a.Suffix());
      SuffixOfSuffix(topic, s, l);
      assert false;
    }
  }

  /** The input a topic addresses, if any. */
  function ActuatorOf(topic: string): (r: Option<Actuator>)
    ensures r.Some? ==> EndsWith(topic, r.value.Suffix())
    ensures forall a: Actuator :: EndsWith(topic, a.Suffix()) <==> r == Some(a)
  {
    var r :=
      if EndsWith(topic, ValveIn.Suffix()) then Some(ValveIn)
      else if EndsWith(topic, ValveOut.Suffix()) then Some(ValveOut)
      else if EndsWith(topic, Heater.Suffix()) then Some(Heater)
      else if EndsWith(topic, Aeration.Suffix()) then Some(Aeration)
      else if EndsWith(topic, Agitation.Suffix()) then Some(Agitation)
      else if EndsWith(topic, Vent.Suffix()) then Some(Vent)
      else None;
    assert forall a: Actuator :: EndsWith(topic, a.Suffix()) ==> r == Some(a) by {
      forall a: Actuator | EndsWith(topic, a.Suffix()) ensures r == Some(a) {
        SuffixesExclusive(topic, a, r.value);
      }
    }
    r
  }

  /**
   * One actuator command: the addressed input takes the converted payload, and
   * every other input keeps its setting.
   */
  function SetActuator(u: Inputs, a: Actuator, payload: string, parse: FloatParser): (r: Inputs)
    ensures forall b: Actuator :: b != a ==> Setting(r, b) == Setting(u, b)
    ensures a.IsValve() ==> Setting(r, a) == ToBool01(payload) as real
    ensures !a.IsValve() ==> Setting(r, a) == ToFloat01(payload, parse)
    ensures InputsValid(u) ==> InputsValid(r)
  {
    match a
    case ValveIn => u.(valveIn := ToBool01(payload))
    case ValveOut => u.(valveOut := ToBool01(payload))
    case Heater => u.(heater := ToFloat01(payload, parse))
    case Aeration => u.(aeration := ToFloat01(payload, parse))
    case Agitation => u.(agitation := ToFloat01(payload, parse))
    case Vent => u.(vent := ToFloat01(payload, parse))
  }

  /** The inputs after a command that is neither a reset nor a time-scale change. */
  function ApplyActuator(u: Inputs, topic: string, payload: string, parse: FloatParser): (r: Inputs)
    ensures ActuatorOf(topic).None? ==> r == u
    ensures ActuatorOf(topic).Some? ==> r == SetActuator(u, ActuatorOf(topic).value, payload, parse)
    ensures forall b: Actuator :: !EndsWith(topic, b.Suffix()) ==> Setting(r, b) == Setting(u, b)
    ensures InputsValid(u) ==> InputsValid(r)
  {
    match ActuatorOf(topic)
    case None => u
    case Some(a) => SetActuator(u, a, payload, parse)
  }

  predicate IsResetTopic(topic: string) {
    EndsWith(topic, "/simCmd/reset") || EndsWith(topic, "/cmd/reset")
  }

  predicate IsTimeScaleTopic(topic: string) {
    EndsWith(topic, "/simCmd/time_scale")
  }

  /** The seed a reset command applies: the payload's integer, else the configured seed. */
  function SeedFromPayload(payload: string, configured: int, parse: IntParser): (r: int)
    ensures parse(Strip(payload)).None? ==> r == configured
    ensures parse(Strip(payload)).Some? ==> r == parse(Strip(payload)).value
  {
    match parse(Strip(payload))
    case Some(n) => n
    case None => configured
  }

  /**
   * The time scale a time-scale command applies: the payload's float, else the
   * current value, clamped to [0,50] in either case.
   */
  function TimeScaleFromPayload(payload: string, current: real, parse: FloatParser): (r: real)
    ensures 0.0 <= r <= 50.0
    ensures parse(Strip(payload)).None? ==> r == Clamp(0.0, 50.0, current)
    ensures parse(Strip(payload)).Some? && parse(Strip(payload)).value.Finite? ==>
              r == Clamp(0.0, 50.0, parse(Strip(payload)).value.value)
    ensures parse(Strip(payload)).Some? ==> r == ClampPy(0.0, 50.0, parse(Strip(payload)).value)
    ensures parse(Strip(payload)) == Some(NaN) || parse(Strip(payload)) == Some(PosInf) ==> r == 50.0
    ensures parse(Strip(payload)) == Some(NegInf) ==> r == 0.0
  {
    var ts := match parse(Strip(payload)) case Some(f) => f case None => Finite(current);
    ClampPy(0.0, 50.0, ts)
  }

  /** The simulated seconds of one loop iteration: `TICK_MS / 1000 * TIME_SCALE`. */
  function TickDt(tickMs: int, timeScale: real): (dt: real)
    ensures tickMs >= 0 && timeScale >= 0.0 ==> dt >= 0.0
    ensures tickMs >= 0 && timeScale <= 50.0 ==> dt <= tickMs as real / 20.0
  {
    tickMs as real / 1000.0 * timeScale
  }

  /**
   * At the default cadence of 200 ms and any clamped time scale, one tick cannot
   * push the biomass past its carrying capacity.
   */
  lemma DefaultCadenceKeepsBiomassBelowCapacity(timeScale: real, b: real)
    requires 0.0 <= timeScale <= 50.0 && 0.0 <= b <= XMax
    ensures b <= BiomassAfter(b, TickDt(200, timeScale)) <= XMax
  {
    var dt := TickDt(200, timeScale);
    assert dt <= 10.0;
    BiomassBelowCapacity(b, dt);
  }

  /** The process-wide state of the simulator service: the engine and its configuration. */
  class Controller {
    const sim: BioReactorSim
    /** `SEED`, the seed a reset falls back to. */
    const seed: int
    /** `TICK_MS`, the wall-clock length of one loop iteration. */
    const tickMs: int
    /** `TIME_SCALE`, the factor from wall-clock to simulated time. */
    var timeScale: real

    ghost predicate Valid()
      reads this, sim
    {
      sim.Valid()
    }

    /** Start-up: the engine seeded with `SEED`; the initial time scale is taken as configured. */
    constructor (seed: int, tickMs: int, timeScale: real)
      ensures Valid() && fresh(sim)
      ensures sim.x == DefaultState && sim.u == DefaultInputs && sim.seed == seed
      ensures this.seed == seed && this.tickMs == tickMs && this.timeScale == timeScale
    {
      sim := new BioReactorSim(seed);
      this.seed := seed;
      this.tickMs := tickMs;
      this.timeScale := timeScale;
    }

    /**
     * `on_cmd`: a reset reinitialises the engine and stops; a time-scale command
     * sets the time scale and stops; otherwise each matching actuator suffix
     * sets its input. Anything else is ignored.
     */
    method OnCmd(topic: string, payload: string, parseInt: IntParser, parseFloat: FloatParser)
      requires Valid()
      modifies this, sim
      ensures Valid()
      ensures IsResetTopic(topic) ==>
        && sim.x == DefaultState && sim.u == DefaultInputs
        && sim.seed == SeedFromPayload(payload, seed, parseInt)
        && timeScale == old(timeScale)
      ensures !IsResetTopic(topic) && IsTimeScaleTopic(topic) ==>
        && timeScale == TimeScaleFromPayload(payload, old(timeScale), parseFloat)
        && sim.x == old(sim.x) && sim.u == old(sim.u) && sim.seed == old(sim.seed)
      ensures !IsResetTopic(topic) && !IsTimeScaleTopic(topic) ==>
        && sim.u == ApplyActuator(old(sim.u), topic, payload, parseFloat)
        && sim.x == old(sim.x) && sim.seed == old(sim.seed) && timeScale == old(timeScale)
    {
      var raw := payload;
      var v := Normalize(raw);
      if IsResetTopic(topic) {
        var seedVal := match parseInt(Strip(raw)) case Some(n) => n case None => seed;
        sim.Reset(seedVal);
        return;
      }
      if IsTimeScaleTopic(topic) {
        var ts := match parseFloat(Strip(raw)) case Some(f) => f case None => Finite(timeScale);
        timeScale := ClampPy(0.0, 50.0, ts);
        return;
      }
      HelpersIgnoreNormalizedPayload(raw, parseFloat);
      ghost var u0 := sim.u;
      ghost var target := ActuatorOf(topic);
      ghost var want := ApplyActuator(u0, topic, raw, parseFloat);
      if EndsWith(topic, ValveIn.Suffix()) {
        sim.u := sim.u.(valveIn := ToBool01(v));
      }
      assert sim.u == if target == Some(ValveIn) then want else u0;
      if EndsWith(topic, ValveOut.Suffix()) {
        sim.u := sim.u.(valveOut := ToBool01(v));
      }
      assert sim.u == if target in {Some(ValveIn), Some(ValveOut)} then want else u0;
      if EndsWith(topic, Heater.Suffix()) {
        sim.u := sim.u.(heater := ToFloat01(v, parseFloat));
      }
      assert sim.u == if target in {Some(ValveIn), Some(ValveOut), Some(Heater)} then want else u0;
      if EndsWith(topic, Aeration.Suffix()) {
        sim.u := sim.u.(aeration := ToFloat01(v, parseFloat));
      }
      assert sim.u == if target in {Some(ValveIn), Some(ValveOut), Some(Heater), Some(Aeration)} then want else u0;
      if EndsWith(topic, Agitation.Suffix()) {
        sim.u := sim.u.(agitation := ToFloat01(v, parseFloat));
      }
      assert sim.u == if target.Some? && target.value != Vent then want else u0;
      if EndsWith(topic, Vent.Suffix()) {
        sim.u := sim.u.(vent := ToFloat01(v, parseFloat));
      }
    }

    /** `POST /api/sim/reset`: reinitialise with the given seed or `SEED`, and report it. */
    method ApiReset(seedArg: Option<int>) returns (applied: int)
      modifies sim
      ensures Valid()
      ensures applied == (if seedArg.Some? then seedArg.value else seed)
      ensures sim.x == DefaultState && sim.u == DefaultInputs && sim.seed == applied
    {
      applied := match seedArg case Some(s) => s case None => seed;
      sim.Reset(applied);
    }

    /**
     * `POST /api/sim/time_scale`: apply the given value, or the current one when
     * absent, clamped to [0,50], and report what was applied.
     */
    method ApiTimeScale(value: Option<PyFloat>) returns (applied: real)
      modifies this
      ensures applied == timeScale && 0.0 <= applied <= 50.0
      ensures value.None? ==> applied == Clamp(0.0, 50.0, old(timeScale))
      ensures value.Some? && value.value.Finite? ==> applied == Clamp(0.0, 50.0, value.value.value)
      ensures value.Some? ==> applied == ClampPy(0.0, 50.0, value.value)
      ensures value == Some(NaN) || value == Some(PosInf) ==> applied == 50.0
      ensures value == Some(NegInf) ==> applied == 0.0
    {
      var ts := match value case Some(f) => f case None => Finite(timeScale);
      timeScale := ClampPy(0.0, 50.0, ts);
      applied := timeScale;
    }

    /** One iteration of the driver loop without its publishing and sleeping. */
    method Tick(d: Draws)
      requires Valid() && d.InUnitRange()
      modifies sim`x
      ensures Valid()
      ensures sim.x == Advance(DefaultParams, old(sim.x), sim.u, TickDt(tickMs, timeScale), d)
    {
      var dt := TickDt(tickMs, timeScale);
      sim.Step(dt, d);
    }
  }
}

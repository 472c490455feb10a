/**
 * The device status source (services/api.ts): decoding the controller's
 * reply, and the fallback simulator with its two-threshold hysteresis.
 * The three random draws of one simulated reading are parameters
 * in [0, 1); all arithmetic is exact.
 */
module Api {
  import opened Types

  // ---------------------------------------------------------------------
  // Decoding the controller's reply
  // ---------------------------------------------------------------------

  /** A pin level reads as true only when it is exactly "HIGH". */
  predicate IsHigh(level: string)
  {
    level == "HIGH"
  }

  /** `parseStatus`: pin strings become booleans, everything else is copied. */
  function ParseStatus(data: ApiResponse): (s: SystemStatus)
    ensures s.relayState <==> data.relayState == "HIGH"
    ensures s.powerStatus <==> data.powerStatus == "HIGH"
    ensures s.door1Status <==> data.door1Status == "HIGH"
    ensures s.door2Status <==> data.door2Status == "HIGH"
    ensures s.temperature == data.temperature && s.humidity == data.humidity
    ensures s.minTemp == data.minTemp && s.maxTemp == data.maxTemp
    ensures s.alertActive == data.alertActive && s.timeOutOfRange == data.timeOutOfRange
  {
    SystemStatus(
      data.temperature, data.humidity,
      IsHigh(data.relayState), IsHigh(data.powerStatus),
      IsHigh(data.door1Status), IsHigh(data.door2Status),
      data.minTemp, data.maxTemp, data.alertActive, data.timeOutOfRange)
  }

  /** The level a controller reports for a boolean pin: "HIGH" or "LOW". */
  function Level(b: bool): string
  {
    if b then "HIGH" else "LOW"
  }

  /** What a controller would send for a given snapshot. */
  function Encode(s: SystemStatus): ApiResponse
  {
    ApiResponse(
      s.temperature, s.humidity,
      Level(s.relayState), Level(s.powerStatus), Level(s.door1Status), Level(s.door2Status),
      s.minTemp, s.maxTemp, s.alertActive, s.timeOutOfRange)
  }

  /** Parsing what a controller sent for a snapshot gives back that snapshot. */
  lemma ParseEncode(s: SystemStatus)
    ensures ParseStatus(Encode(s)) == s
  {
  }

  /** A reply whose pins are all "HIGH" or "LOW" is exactly the encoding of its parse. */
  lemma EncodeParse(data: ApiResponse)
    requires data.relayState in {"HIGH", "LOW"} && data.powerStatus in {"HIGH", "LOW"}
    requires data.door1Status in {"HIGH", "LOW"} && data.door2Status in {"HIGH", "LOW"}
    ensures Encode(ParseStatus(data)) == data
  {
  }

  /** `updateTemperatureSettings`: a stub that reports success for every request. */
  datatype Bound = Min | Max

  function UpdateTemperatureSettings(bound: Bound, value: real): (ok: bool)
    ensures ok
  {
    true
  }

  // ---------------------------------------------------------------------
  // The hysteresis simulator
  // ---------------------------------------------------------------------

  const InitialBaseline: real := 5.0
  const CoolingStep: real := 0.1
  const WarmingStep: real := 0.05
  const CoolOffAt: real := 2.0
  const CoolOnAt: real := 8.0
  const AlertAbove: real := 10.0
  const OutOfRangeSeconds: int := 120

  /** The simulator's persistent state: baseline temperature and the cooling flag. */
  datatype Physics = Physics(baseline: real, cooling: bool)

  /** One step of the simulated physics (services/api.ts:25-31). */
  function PhysicsStep(p: Physics): (q: Physics)
  {
    if p.cooling then
      var b := p.baseline - CoolingStep;
      Physics(b, !(b <= CoolOffAt))
    else
      var b := p.baseline + WarmingStep;
      Physics(b, b >= CoolOnAt)
  }

  /** Cooling flips on only when the new baseline has reached 8.0, off only at 2.0. */
  lemma FlipsOnlyAtThresholds(p: Physics)
    ensures PhysicsStep(p).cooling && !p.cooling <==> !p.cooling && PhysicsStep(p).baseline >= CoolOnAt
    ensures !PhysicsStep(p).cooling && p.cooling <==> p.cooling && PhysicsStep(p).baseline <= CoolOffAt
    ensures p.cooling ==> PhysicsStep(p).baseline == p.baseline - 0.1
    ensures !p.cooling ==> PhysicsStep(p).baseline == p.baseline + 0.05
  {
  }

  /** `x` is a whole number. */
  predicate IsWhole(x: real)
  {
    x.Floor as real == x
  }

  /**
   * The states the simulator can reach from 5.0 idle: the baseline stays in
   * [2.0, 8.0] on the 0.05 grid; while cooling it sits on the 0.1 grid above
   * 2.0, while idle below 8.0.
   */
  predicate Reachable(p: Physics)
  {
    && CoolOffAt <= p.baseline <= CoolOnAt
    && IsWhole(p.baseline * 20.0)
    && (p.cooling ==> p.baseline > CoolOffAt && IsWhole(p.baseline * 10.0))
    && (!p.cooling ==> p.baseline < CoolOnAt)
  }

  lemma InitialReachable()
    ensures Reachable(Physics(InitialBaseline, false))
  {
    assert (5.0 * 20.0).Floor == 100;
  }

  /** Exact stepping never leaves [2.0, 8.0]: the thresholds are hit exactly. */
  lemma StepPreservesReachable(p: Physics)
    requires Reachable(p)
    ensures Reachable(PhysicsStep(p))
    ensures PhysicsStep(p).cooling != p.cooling ==>
              PhysicsStep(p).baseline == (if p.cooling then CoolOffAt else CoolOnAt)
  {
    var q := PhysicsStep(p);
    var k := (p.baseline * 20.0).Floor;
    assert p.baseline == k as real / 20.0;
    if p.cooling {
      var m := (p.baseline * 10.0).Floor;
      assert p.baseline == m as real / 10.0;
      assert m >= 21;
      assert q.baseline == (m - 1) as real / 10.0;
      assert (q.baseline * 20.0).Floor == 2 * m - 2;
      if q.cooling {
        assert (q.baseline * 10.0).Floor == m - 1;
      }
    } else {
      assert k <= 159;
      assert q.baseline == (k + 1) as real / 20.0;
      assert (q.baseline * 20.0).Floor == k + 1;
      if q.cooling {
        assert k + 1 == 160;
        assert (q.baseline * 10.0).Floor == 80;
      }
    }
  }

  /** `n` steps of the simulated physics. */
  function Steps(p: Physics, n: nat): Physics
    decreases n
  {
    if n == 0 then p else Steps(PhysicsStep(p), n - 1)
  }

  /** Idle from 8.0 - 0.05n: idle for n - 1 steps, switched on at 8.0 by step n. */
  lemma {:induction false} WarmsUpToThreshold(n: nat)
    requires n >= 1
    ensures Steps(Physics(CoolOnAt - n as real * WarmingStep, false), n) == Physics(CoolOnAt, true)
    ensures var p := Physics(CoolOnAt - n as real * WarmingStep, false);
            forall m :: 0 <= m < n ==> Steps(p, m) == Physics(CoolOnAt - (n - m) as real * WarmingStep, false)
  {
    var p := Physics(CoolOnAt - n as real * WarmingStep, false);
    if n > 1 {
      WarmsUpToThreshold(n - 1);
      assert PhysicsStep(p) == Physics(CoolOnAt - (n - 1) as real * WarmingStep, false);
      forall m | 0 <= m < n
        ensures Steps(p, m) == Physics(CoolOnAt - (n - m) as real * WarmingStep, false)
      {
        if m > 0 {
          assert Steps(p, m) == Steps(PhysicsStep(p), m - 1);
        }
      }
    }
  }

  /** Cooling from 2.0 + 0.1n: cooling for n - 1 steps, switched off at 2.0 by step n. */
  lemma {:induction false} CoolsDownToThreshold(n: nat)
    requires n >= 1
    ensures Steps(Physics(CoolOffAt + n as real * CoolingStep, true), n) == Physics(CoolOffAt, false)
    ensures var p := Physics(CoolOffAt + n as real * CoolingStep, true);
            forall m :: 0 <= m < n ==> Steps(p, m) == Physics(CoolOffAt + (n - m) as real * CoolingStep, true)
  {
    var p := Physics(CoolOffAt + n as real * CoolingStep, true);
    if n > 1 {
      CoolsDownToThreshold(n - 1);
      assert PhysicsStep(p) == Physics(CoolOffAt + (n - 1) as real * CoolingStep, true);
      forall m | 0 <= m < n
        ensures Steps(p, m) == Physics(CoolOffAt + (n - m) as real * CoolingStep, true)
      {
        if m > 0 {
          assert Steps(p, m) == Steps(PhysicsStep(p), m - 1);
        }
      }
    }
  }

  lemma {:induction false} StepsAdd(p: Physics, a: nat, b: nat)
    ensures Steps(p, a + b) == Steps(Steps(p, a), b)
    decreases a
  {
    if a > 0 {
      StepsAdd(PhysicsStep(p), a - 1, b);
    }
  }

  /**
   * From 5.0 idle, cooling switches on exactly at step 60 (baseline 8.0) and
   * off exactly at step 120 (baseline 2.0); from then on the cycle of 180
   * steps (120 warming, 60 cooling) repeats.
   */
  lemma HysteresisCycle()
    ensures Steps(Physics(InitialBaseline, false), 60) == Physics(CoolOnAt, true)
    ensures forall m :: 0 <= m < 60 ==> !Steps(Physics(InitialBaseline, false), m).cooling
    ensures Steps(Physics(CoolOnAt, true), 60) == Physics(CoolOffAt, false)
    ensures forall m :: 0 <= m < 60 ==> Steps(Physics(CoolOnAt, true), m).cooling
    ensures Steps(Physics(CoolOffAt, false), 120) == Physics(CoolOnAt, true)
    ensures forall m :: 0 <= m < 120 ==> !Steps(Physics(CoolOffAt, false), m).cooling
    ensures Steps(Physics(CoolOnAt, true), 180) == Physics(CoolOnAt, true)
  {
    WarmsUpToThreshold(60);
    assert CoolOnAt - 60 as real * WarmingStep == InitialBaseline;
    CoolsDownToThreshold(60);
    assert CoolOffAt + 60 as real * CoolingStep == CoolOnAt;
    WarmsUpToThreshold(120);
    assert CoolOnAt - 120 as real * WarmingStep == CoolOffAt;
    StepsAdd(Physics(CoolOnAt, true), 60, 120);
  }

  /**
   * The reading reported for a physics state (services/api.ts:33-51), given
   * the flutter, humidity and door draws.
   */
  function Reading(p: Physics, flutter: real, humidityDraw: real, doorDraw: real): (s: SystemStatus)
    requires 0.0 <= flutter < 1.0 && 0.0 <= humidityDraw < 1.0 && 0.0 <= doorDraw < 1.0
    ensures p.baseline - 0.05 <= s.temperature < p.baseline + 0.05
    ensures 58.0 <= s.humidity < 60.0
    ensures s.relayState == p.cooling
    ensures s.alertActive <==> s.temperature > 10.0
    ensures s.timeOutOfRange == (if s.alertActive then 120 else 0)
    ensures s.powerStatus && s.door2Status
    ensures !s.door1Status <==> doorDraw <= 0.05
    ensures s.minTemp == 2.0 && s.maxTemp == 8.0
  {
    var current := p.baseline + (flutter * 0.1 - 0.05);
    var isAlert := current > AlertAbove;
    SystemStatus(
      current, 58.0 + humidityDraw * 2.0,
      p.cooling, true, doorDraw > 0.05, true,
      CoolOffAt, CoolOnAt, isAlert,
      if isAlert then OutOfRangeSeconds else 0)
  }

  /** A simulator started at 5.0 never raises the temperature alert: it reads below 8.05. */
  lemma SimulatorNeverAlerts(p: Physics, flutter: real, humidityDraw: real, doorDraw: real)
    requires Reachable(p)
    requires 0.0 <= flutter < 1.0 && 0.0 <= humidityDraw < 1.0 && 0.0 <= doorDraw < 1.0
    ensures 1.95 <= Reading(p, flutter, humidityDraw, doorDraw).temperature < 8.05
    ensures !Reading(p, flutter, humidityDraw, doorDraw).alertActive
    ensures Reading(p, flutter, humidityDraw, doorDraw).timeOutOfRange == 0
  {
  }

  /** The module-level simulation state `mockTemp`/`cooling` as one object. */
  class MockDevice {
    var mockTemp: real
    var cooling: bool

    function State(): Physics
      reads this
    {
      Physics(mockTemp, cooling)
    }

    constructor ()
      ensures mockTemp == 5.0 && !cooling
      ensures Reachable(State())
    {
      mockTemp := InitialBaseline;
      cooling := false;
      InitialReachable();
    }

    /** `generateMockData`: advance the physics one step, then report a reading. */
    method GenerateMockData(flutter: real, humidityDraw: real, doorDraw: real) returns (s: SystemStatus)
      requires 0.0 <= flutter < 1.0 && 0.0 <= humidityDraw < 1.0 && 0.0 <= doorDraw < 1.0
      modifies this
      ensures State() == PhysicsStep(old(State()))
      ensures s == Reading(State(), flutter, humidityDraw, doorDraw)
      ensures old(Reachable(State())) ==> Reachable(State()) && !s.alertActive
    {
      ghost var before := State();
      if cooling {
        mockTemp := mockTemp - CoolingStep;
        if mockTemp <= CoolOffAt { cooling := false; }
      } else {
        mockTemp := mockTemp + WarmingStep;
        if mockTemp >= CoolOnAt { cooling := true; }
      }
      var currentTemp := mockTemp + (flutter * 0.1 - 0.05);
      var relayActive := cooling;
      var isAlert := currentTemp > AlertAbove;
      s := SystemStatus(
        currentTemp, 58.0 + humidityDraw * 2.0,
        relayActive, true, doorDraw > 0.05, true,
        CoolOffAt, CoolOnAt, isAlert,
        if isAlert then OutOfRangeSeconds else 0);
      if Reachable(before) {
        StepPreservesReachable(before);
        SimulatorNeverAlerts(State(), flutter, humidityDraw, doorDraw);
      }
    }
  }
}

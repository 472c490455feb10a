/**
 * The debounced alert engine (hooks/useSmartAlerts.ts). It keeps one
 * boolean latch per monitored key and, for every new status snapshot,
 * emits notifications only when a latch changes. Titles and message texts
 * (formatted floats) are represented by the alert's kind.
 */
module SmartAlerts {
  import opened Types

  /** The six monitored keys of the latch map, in the order they are examined. */
  datatype MonitoredKey = TempAlert | HumidityLow | HumidityHigh | DoorOpen | PowerIssue | RelayOn

  function Rank(k: MonitoredKey): nat
  {
    match k
    case TempAlert => 0
    case HumidityLow => 1
    case HumidityHigh => 2
    case DoorOpen => 3
    case PowerIssue => 4
    case RelayOn => 5
  }

  /** The nine notifications the engine can raise, one per title in the source. */
  datatype AlertKind =
    | TemperatureOutOfRange | TemperatureNormalised
    | LowHumidity | HighHumidity
    | DoorOpened | DoorClosed
    | PowerLost | PowerRestored
    | CompressorOn

  function KeyOf(kind: AlertKind): MonitoredKey
  {
    match kind
    case TemperatureOutOfRange => TempAlert
    case TemperatureNormalised => TempAlert
    case LowHumidity => HumidityLow
    case HighHumidity => HumidityHigh
    case DoorOpened => DoorOpen
    case DoorClosed => DoorOpen
    case PowerLost => PowerIssue
    case PowerRestored => PowerIssue
    case CompressorOn => RelayOn
  }

  /** An emitted notification: what it reports, its level (`type`) and its lifetime in ms. */
  datatype Alert = Alert(kind: AlertKind, level: Severity, duration: Option<nat>)

  const RaiseTemperature := Alert(TemperatureOutOfRange, Critical, None)
  const ClearTemperature := Alert(TemperatureNormalised, Info, Some(5000))
  const RaiseLowHumidity := Alert(LowHumidity, Warning, None)
  const RaiseHighHumidity := Alert(HighHumidity, Warning, None)
  const RaiseDoor := Alert(DoorOpened, Warning, None)
  const ClearDoor := Alert(DoorClosed, Info, Some(3000))
  const RaisePower := Alert(PowerLost, Critical, None)
  const ClearPower := Alert(PowerRestored, Info, Some(5000))
  const RaiseCompressor := Alert(CompressorOn, Info, Some(3000))

  /** The latch map `lastAlertRef.current`; an absent key reads as false. */
  datatype Latches = Latches(
    tempAlert: bool, humidityLow: bool, humidityHigh: bool,
    doorOpen: bool, powerIssue: bool, relayOn: bool)

  const Cold := Latches(false, false, false, false, false, false)

  /** What a key does when its condition goes away while latched. */
  datatype Release = Announce(alert: Alert) | Silent | Never

  /** One key's edge detector: its new latch and what it emits. */
  datatype KeyOutcome = KeyOutcome(latch: bool, emitted: seq<Alert>)

  /**
   * One key's edge detector. The latch follows the condition, except that a
   * key that never releases stays set; at most one alert is emitted, and only
   * when the latch changes.
   */
  function Edge(latched: bool, condition: bool, raise: Alert, release: Release): (o: KeyOutcome)
    ensures o.latch == (condition || (latched && release.Never?))
    ensures |o.emitted| <= 1
    ensures o.emitted != [] ==> o.latch != latched
    ensures o.latch && !latched ==> o.emitted == [raise]
    ensures !o.latch && latched ==> o.emitted == (if release.Announce? then [release.alert] else [])
  {
    if condition && !latched then KeyOutcome(true, [raise])
    else if !condition && latched then
      match release
      case Announce(a) => KeyOutcome(false, [a])
      case Silent => KeyOutcome(false, [])
      case Never => KeyOutcome(true, [])
    else KeyOutcome(latched, [])
  }

  /** One snapshot's effect on the engine: the new latches and the emitted alerts. */
  datatype Outcome = Outcome(latches: Latches, emitted: seq<Alert>)

  /** The edge detector of key `k`, with the alerts the source raises for it. */
  function KeyStep(l: Latches, s: SystemStatus, k: MonitoredKey): (o: KeyOutcome)
    ensures |o.emitted| <= 1
    ensures OfKey(o.emitted, k)
    ensures o.emitted != [] ==> o.latch != LatchOf(l, k)
  {
    match k
    case TempAlert => Edge(l.tempAlert, s.alertActive, RaiseTemperature, Announce(ClearTemperature))
    case HumidityLow => Edge(l.humidityLow, s.humidity < 30.0, RaiseLowHumidity, Silent)
    case HumidityHigh => Edge(l.humidityHigh, s.humidity > 80.0, RaiseHighHumidity, Silent)
    case DoorOpen => Edge(l.doorOpen, !s.door1Status, RaiseDoor, Announce(ClearDoor))
    case PowerIssue => Edge(l.powerIssue, !s.powerStatus, RaisePower, Announce(ClearPower))
    case RelayOn => Edge(l.relayOn, s.relayState, RaiseCompressor, Never)
  }

  /** The latch a key reads in the map. */
  function LatchOf(l: Latches, k: MonitoredKey): bool
  {
    match k
    case TempAlert => l.tempAlert
    case HumidityLow => l.humidityLow
    case HumidityHigh => l.humidityHigh
    case DoorOpen => l.doorOpen
    case PowerIssue => l.powerIssue
    case RelayOn => l.relayOn
  }

  /**
   * The effect body of `useSmartAlerts` for one snapshot (a null snapshot
   * does nothing). An alert is emitted only for a key whose latch changes.
   */
  function Transition(l: Latches, status: Option<SystemStatus>): (o: Outcome)
    ensures EmitsOnChange(o.emitted, l, o.latches)
  {
    match status
    case None => Outcome(l, [])
    case Some(s) =>
      var after := Latches(
        KeyStep(l, s, TempAlert).latch, KeyStep(l, s, HumidityLow).latch,
        KeyStep(l, s, HumidityHigh).latch, KeyStep(l, s, DoorOpen).latch,
        KeyStep(l, s, PowerIssue).latch, KeyStep(l, s, RelayOn).latch);
      KeysEmitOnChange(l, s, after);
      Outcome(
        after,
        KeyStep(l, s, TempAlert).emitted + KeyStep(l, s, HumidityLow).emitted
          + KeyStep(l, s, HumidityHigh).emitted + KeyStep(l, s, DoorOpen).emitted
          + KeyStep(l, s, PowerIssue).emitted + KeyStep(l, s, RelayOn).emitted)
  }

  /** Every alert in `out` belongs to a key whose latch differs between `before` and `after`. */
  ghost predicate EmitsOnChange(out: seq<Alert>, before: Latches, after: Latches)
  {
    forall a :: a in out ==> LatchOf(after, KeyOf(a.kind)) != LatchOf(before, KeyOf(a.kind))
  }

  lemma EmitsOnChangeAppend(xs: seq<Alert>, ys: seq<Alert>, before: Latches, after: Latches)
    requires EmitsOnChange(xs, before, after) && EmitsOnChange(ys, before, after)
    ensures EmitsOnChange(xs + ys, before, after)
  {
  }

  lemma KeyEmitsOnChange(l: Latches, s: SystemStatus, k: MonitoredKey, after: Latches)
    requires LatchOf(after, k) == KeyStep(l, s, k).latch
    ensures EmitsOnChange(KeyStep(l, s, k).emitted, l, after)
  {
    var o := KeyStep(l, s, k);
    if o.emitted != [] {
      assert o.emitted == [o.emitted[0]];
      assert KeyOf(o.emitted[0].kind) == k;
    }
  }

  lemma KeysEmitOnChange(l: Latches, s: SystemStatus, after: Latches)
    requires forall k :: LatchOf(after, k) == KeyStep(l, s, k).latch
    ensures EmitsOnChange(
      KeyStep(l, s, TempAlert).emitted + KeyStep(l, s, HumidityLow).emitted
        + KeyStep(l, s, HumidityHigh).emitted + KeyStep(l, s, DoorOpen).emitted
        + KeyStep(l, s, PowerIssue).emitted + KeyStep(l, s, RelayOn).emitted, l, after)
  {
    var t, lo, hi := KeyStep(l, s, TempAlert).emitted, KeyStep(l, s, HumidityLow).emitted, KeyStep(l, s, HumidityHigh).emitted;
    var d, p, r := KeyStep(l, s, DoorOpen).emitted, KeyStep(l, s, PowerIssue).emitted, KeyStep(l, s, RelayOn).emitted;
    KeyEmitsOnChange(l, s, TempAlert, after);
    KeyEmitsOnChange(l, s, HumidityLow, after);
    KeyEmitsOnChange(l, s, HumidityHigh, after);
    KeyEmitsOnChange(l, s, DoorOpen, after);
    KeyEmitsOnChange(l, s, PowerIssue, after);
    KeyEmitsOnChange(l, s, RelayOn, after);
    EmitsOnChangeAppend(t, lo, l, after);
    EmitsOnChangeAppend(t + lo, hi, l, after);
    EmitsOnChangeAppend(t + lo + hi, d, l, after);
    EmitsOnChangeAppend(t + lo + hi + d, p, l, after);
    EmitsOnChangeAppend(t + lo + hi + d + p, r, l, after);
  }

  /** The alerts in `out` that belong to key `k`, in order. */
  function AlertsFor(out: seq<Alert>, k: MonitoredKey): (r: seq<Alert>)
    ensures |r| <= |out|
    ensures forall i :: 0 <= i < |r| ==> KeyOf(r[i].kind) == k
  {
    if out == [] then []
    else (if KeyOf(out[0].kind) == k then [out[0]] else []) + AlertsFor(out[1..], k)
  }

  lemma {:induction false} AlertsForAppend(a: seq<Alert>, b: seq<Alert>, k: MonitoredKey)
    ensures AlertsFor(a + b, k) == AlertsFor(a, k) + AlertsFor(b, k)
  {
    if a != [] {
      assert (a + b)[0] == a[0];
      assert (a + b)[1..] == a[1..] + b;
      AlertsForAppend(a[1..], b, k);
    } else {
      assert a + b == b;
    }
  }

  /** Every alert in `xs` belongs to key `k`. */
  ghost predicate OfKey(xs: seq<Alert>, k: MonitoredKey)
  {
    forall i :: 0 <= i < |xs| ==> KeyOf(xs[i].kind) == k
  }

  lemma {:induction false} AlertsForOfKey(xs: seq<Alert>, k: MonitoredKey, j: MonitoredKey)
    requires OfKey(xs, k)
    ensures AlertsFor(xs, j) == if j == k then xs else []
  {
    if xs != [] {
      AlertsForOfKey(xs[1..], k, j);
      assert xs == [xs[0]] + xs[1..];
    }
  }

  lemma AlertsForSix(t: seq<Alert>, lo: seq<Alert>, hi: seq<Alert>, d: seq<Alert>, p: seq<Alert>, r: seq<Alert>, k: MonitoredKey)
    ensures AlertsFor(t + lo + hi + d + p + r, k) ==
      AlertsFor(t, k) + AlertsFor(lo, k) + AlertsFor(hi, k) + AlertsFor(d, k) + AlertsFor(p, k) + AlertsFor(r, k)
  {
    AlertsForAppend(t + lo + hi + d + p, r, k);
    AlertsForAppend(t + lo + hi + d, p, k);
    AlertsForAppend(t + lo + hi, d, k);
    AlertsForAppend(t + lo, hi, k);
    AlertsForAppend(t, lo, k);
  }

  /** Selecting one key from six single-key parts laid end to end gives that key's part. */
  lemma AlertsForParts(t: seq<Alert>, lo: seq<Alert>, hi: seq<Alert>, d: seq<Alert>, p: seq<Alert>, r: seq<Alert>, k: MonitoredKey)
    requires OfKey(t, TempAlert) && OfKey(lo, HumidityLow) && OfKey(hi, HumidityHigh)
    requires OfKey(d, DoorOpen) && OfKey(p, PowerIssue) && OfKey(r, RelayOn)
    ensures AlertsFor(t + lo + hi + d + p + r, k) ==
      match k
      case TempAlert => t
      case HumidityLow => lo
      case HumidityHigh => hi
      case DoorOpen => d
      case PowerIssue => p
      case RelayOn => r
  {
    AlertsForSix(t, lo, hi, d, p, r, k);
    AlertsForOfKey(t, TempAlert, k);
    AlertsForOfKey(lo, HumidityLow, k);
    AlertsForOfKey(hi, HumidityHigh, k);
    AlertsForOfKey(d, DoorOpen, k);
    AlertsForOfKey(p, PowerIssue, k);
    AlertsForOfKey(r, RelayOn, k);
  }

  /** The alerts for one key are exactly that key's edge-detector output. */
  lemma AlertsForTransition(l: Latches, s: SystemStatus, k: MonitoredKey)
    ensures AlertsFor(Transition(l, Some(s)).emitted, k) == KeyStep(l, s, k).emitted
  {
    AlertsForParts(
      KeyStep(l, s, TempAlert).emitted, KeyStep(l, s, HumidityLow).emitted,
      KeyStep(l, s, HumidityHigh).emitted, KeyStep(l, s, DoorOpen).emitted,
      KeyStep(l, s, PowerIssue).emitted, KeyStep(l, s, RelayOn).emitted, k);
  }

  /** A null snapshot emits nothing and leaves every latch as it was. */
  lemma NullSnapshot(l: Latches)
    ensures Transition(l, None) == Outcome(l, [])
  {
  }

  /**
   * Temperature: entering the alert emits one critical alert without a
   * duration and sets the latch; leaving it emits one info alert of 5000 ms
   * and clears the latch; otherwise nothing is emitted for it.
   */
  lemma TemperatureEdges(l: Latches, s: SystemStatus)
    ensures var o := Transition(l, Some(s));
      && o.latches.tempAlert == s.alertActive
      && AlertsFor(o.emitted, TempAlert) ==
           (if s.alertActive && !l.tempAlert then [Alert(TemperatureOutOfRange, Critical, None)]
            else if !s.alertActive && l.tempAlert then [Alert(TemperatureNormalised, Info, Some(5000))]
            else [])
  {
    AlertsForTransition(l, s, TempAlert);
  }

  /** Humidity below 30 warns once and latches; back at 30 or above the latch clears silently. */
  lemma LowHumidityEdges(l: Latches, s: SystemStatus)
    ensures var o := Transition(l, Some(s));
      && o.latches.humidityLow == (s.humidity < 30.0)
      && AlertsFor(o.emitted, HumidityLow) ==
           (if s.humidity < 30.0 && !l.humidityLow then [Alert(LowHumidity, Warning, None)] else [])
  {
    AlertsForTransition(l, s, HumidityLow);
  }

  /** Humidity above 80 warns once and latches; back at 80 or below the latch clears silently. */
  lemma HighHumidityEdges(l: Latches, s: SystemStatus)
    ensures var o := Transition(l, Some(s));
      && o.latches.humidityHigh == (s.humidity > 80.0)
      && AlertsFor(o.emitted, HumidityHigh) ==
           (if s.humidity > 80.0 && !l.humidityHigh then [Alert(HighHumidity, Warning, None)] else [])
  {
    AlertsForTransition(l, s, HumidityHigh);
  }

  /** An open door warns once; closing it after that announces it for 3000 ms. */
  lemma DoorEdges(l: Latches, s: SystemStatus)
    ensures var o := Transition(l, Some(s));
      && o.latches.doorOpen == !s.door1Status
      && AlertsFor(o.emitted, DoorOpen) ==
           (if !s.door1Status && !l.doorOpen then [Alert(DoorOpened, Warning, None)]
            else if s.door1Status && l.doorOpen then [Alert(DoorClosed, Info, Some(3000))]
            else [])
  {
    AlertsForTransition(l, s, DoorOpen);
  }

  /** Power loss raises one critical alert; recovery announces it for 5000 ms. */
  lemma PowerEdges(l: Latches, s: SystemStatus)
    ensures var o := Transition(l, Some(s));
      && o.latches.powerIssue == !s.powerStatus
      && AlertsFor(o.emitted, PowerIssue) ==
           (if !s.powerStatus && !l.powerIssue then [Alert(PowerLost, Critical, None)]
            else if s.powerStatus && l.powerIssue then [Alert(PowerRestored, Info, Some(5000))]
            else [])
  {
    AlertsForTransition(l, s, PowerIssue);
  }

  /** The relay latch is set by the first "on" and never cleared; only that first "on" is announced. */
  lemma RelayEdges(l: Latches, s: SystemStatus)
    ensures var o := Transition(l, Some(s));
      && o.latches.relayOn == (l.relayOn || s.relayState)
      && AlertsFor(o.emitted, RelayOn) ==
           (if s.relayState && !l.relayOn then [Alert(CompressorOn, Info, Some(3000))] else [])
  {
    AlertsForTransition(l, s, RelayOn);
  }

  /** Each key, fed the same snapshot again, emits nothing and keeps the latch it just took. */
  lemma KeySettles(l: Latches, s: SystemStatus, k: MonitoredKey)
    ensures KeyStep(Transition(l, Some(s)).latches, s, k) == KeyOutcome(KeyStep(l, s, k).latch, [])
  {
  }

  /** Feeding the same snapshot again emits nothing and changes no latch. */
  lemma Idempotent(l: Latches, status: Option<SystemStatus>)
    ensures var o := Transition(l, status);
      Transition(o.latches, status) == Outcome(o.latches, [])
  {
    if status.Some? {
      var s := status.value;
      KeySettles(l, s, TempAlert);
      KeySettles(l, s, HumidityLow);
      KeySettles(l, s, HumidityHigh);
      KeySettles(l, s, DoorOpen);
      KeySettles(l, s, PowerIssue);
      KeySettles(l, s, RelayOn);
    }
  }

  /** Alerts come out in key order (temperature, humidity, door, power, relay), at most one per key. */
  lemma EmissionOrder(l: Latches, status: Option<SystemStatus>)
    ensures KeyOrdered(Transition(l, status).emitted)
  {
    if status.Some? {
      var s := status.value;
      OrderedParts(
        KeyStep(l, s, TempAlert).emitted, KeyStep(l, s, HumidityLow).emitted,
        KeyStep(l, s, HumidityHigh).emitted, KeyStep(l, s, DoorOpen).emitted,
        KeyStep(l, s, PowerIssue).emitted, KeyStep(l, s, RelayOn).emitted);
    }
  }

  /** Six parts of at most one alert each, one per key in rank order, are ordered laid end to end. */
  lemma OrderedParts(t: seq<Alert>, lo: seq<Alert>, hi: seq<Alert>, d: seq<Alert>, p: seq<Alert>, r: seq<Alert>)
    requires |t| <= 1 && |lo| <= 1 && |hi| <= 1 && |d| <= 1 && |p| <= 1 && |r| <= 1
    requires OfKey(t, TempAlert) && OfKey(lo, HumidityLow) && OfKey(hi, HumidityHigh)
    requires OfKey(d, DoorOpen) && OfKey(p, PowerIssue) && OfKey(r, RelayOn)
    ensures KeyOrdered(t + lo + hi + d + p + r)
  {
    OrderedAppend([], t, 0);
    assert [] + t == t;
    OrderedAppend(t, lo, 1);
    OrderedAppend(t + lo, hi, 2);
    OrderedAppend(t + lo + hi, d, 3);
    OrderedAppend(t + lo + hi + d, p, 4);
    OrderedAppend(t + lo + hi + d + p, r, 5);
  }

  /** Alerts strictly ordered by the rank of their key. */
  ghost predicate KeyOrdered(out: seq<Alert>)
  {
    forall i, j :: 0 <= i < j < |out| ==> Rank(KeyOf(out[i].kind)) < Rank(KeyOf(out[j].kind))
  }

  ghost predicate RanksBelow(out: seq<Alert>, m: nat)
  {
    forall i :: 0 <= i < |out| ==> Rank(KeyOf(out[i].kind)) < m
  }

  lemma OrderedAppend(a: seq<Alert>, b: seq<Alert>, m: nat)
    requires KeyOrdered(a) && RanksBelow(a, m)
    requires |b| <= 1 && forall i :: 0 <= i < |b| ==> Rank(KeyOf(b[i].kind)) == m
    ensures KeyOrdered(a + b) && RanksBelow(a + b, m + 1)
  {
  }

  /** Low and high humidity never fire together, so one snapshot emits at most five alerts. */
  lemma AtMostFive(l: Latches, status: Option<SystemStatus>)
    ensures |Transition(l, status).emitted| <= 5
  {
    if status.Some? {
      var s := status.value;
      assert |KeyStep(l, s, HumidityLow).emitted| + |KeyStep(l, s, HumidityHigh).emitted| <= 1;
    }
  }

  /** The engine over a stream of snapshots, in arrival order. */
  function Run(l: Latches, statuses: seq<Option<SystemStatus>>): Outcome
    decreases |statuses|
  {
    if statuses == [] then Outcome(l, [])
    else
      var first := Transition(l, statuses[0]);
      var rest := Run(first.latches, statuses[1..]);
      Outcome(rest.latches, first.emitted + rest.emitted)
  }

  /** Feeding one snapshot n >= 1 times in a row has the effect of feeding it once. */
  lemma {:induction false} RepeatedSnapshot(l: Latches, status: Option<SystemStatus>, n: nat)
    requires n >= 1
    ensures Run(l, seq(n, _ => status)) == Transition(l, status)
  {
    var o := Transition(l, status);
    Idempotent(l, status);
    RepeatLatched(o.latches, status, n - 1);
    assert seq(n, _ => status)[1..] == seq(n - 1, _ => status);
    assert o.emitted + [] == o.emitted;
  }

  /** A snapshot already absorbed into the latches emits nothing however often it repeats. */
  lemma {:induction false} RepeatLatched(l: Latches, status: Option<SystemStatus>, n: nat)
    requires Transition(l, status) == Outcome(l, [])
    ensures Run(l, seq(n, _ => status)) == Outcome(l, [])
  {
    if n > 0 {
      assert seq(n, _ => status)[1..] == seq(n - 1, _ => status);
      RepeatLatched(l, status, n - 1);
    }
  }

  /** How many "compressor on" alerts a sequence holds. */
  function CompressorCount(out: seq<Alert>): nat
  {
    |AlertsFor(out, RelayOn)|
  }

  /** Over the engine's lifetime at most one "compressor on" alert is emitted, none if already latched. */
  lemma {:induction false} CompressorAnnouncedOnce(l: Latches, statuses: seq<Option<SystemStatus>>)
    ensures CompressorCount(Run(l, statuses).emitted) <= (if l.relayOn then 0 else 1)
    ensures l.relayOn ==> Run(l, statuses).latches.relayOn
    decreases |statuses|
  {
    if statuses != [] {
      var first := Transition(l, statuses[0]);
      var rest := Run(first.latches, statuses[1..]);
      CompressorAnnouncedOnce(first.latches, statuses[1..]);
      AlertsForAppend(first.emitted, rest.emitted, RelayOn);
      match statuses[0]
      case None =>
      case Some(s) => RelayEdges(l, s);
    }
  }

  /**
   * The engine object: the six latches as fields, and `Step` as the effect
   * body. Each block of the effect is one `Check` method that reads and
   * overwrites its own latch; `Step` returns what the blocks passed to
   * `addAlert`, in call order.
   */
  class AlertEngine {
    var tempAlert: bool
    var humidityLow: bool
    var humidityHigh: bool
    var doorOpen: bool
    var powerIssue: bool
    var relayOn: bool

    function Latched(): Latches
      reads this
    {
      Latches(tempAlert, humidityLow, humidityHigh, doorOpen, powerIssue, relayOn)
    }

    /** A fresh engine starts with every latch clear (useSmartAlerts.ts:7). */
    constructor ()
      ensures Latched() == Cold
    {
      tempAlert, humidityLow, humidityHigh := false, false, false;
      doorOpen, powerIssue, relayOn := false, false, false;
    }

    method Step(status: Option<SystemStatus>) returns (emitted: seq<Alert>)
      modifies this
      ensures Latched() == Transition(old(Latched()), status).latches
      ensures emitted == Transition(old(Latched()), status).emitted
    {
      emitted := [];
      if status.None? { return; }
      var s := status.value;
      ghost var l := Latched();
      var t := CheckTemperature(s);
      assert KeyOutcome(tempAlert, t) == KeyStep(l, s, TempAlert);
      var lo := CheckLowHumidity(s);
      assert KeyOutcome(humidityLow, lo) == KeyStep(l, s, HumidityLow);
      var hi := CheckHighHumidity(s);
      assert KeyOutcome(humidityHigh, hi) == KeyStep(l, s, HumidityHigh);
      var d := CheckDoor(s);
      assert KeyOutcome(doorOpen, d) == KeyStep(l, s, DoorOpen);
      var p := CheckPower(s);
      assert KeyOutcome(powerIssue, p) == KeyStep(l, s, PowerIssue);
      var r := CheckRelay(s);
      assert KeyOutcome(relayOn, r) == KeyStep(l, s, RelayOn);
      emitted := t + lo + hi + d + p + r;
    }

    method CheckTemperature(s: SystemStatus) returns (e: seq<Alert>)
      modifies this`tempAlert
      ensures KeyOutcome(tempAlert, e) == KeyStep(old(Latched()), s, TempAlert)
    {
      e := [];
      if s.alertActive && !tempAlert {
        e := [RaiseTemperature];
        tempAlert := true;
      } else if !s.alertActive && tempAlert {
        e := [ClearTemperature];
        tempAlert := false;
      }
    }

    method CheckLowHumidity(s: SystemStatus) returns (e: seq<Alert>)
      modifies this`humidityLow
      ensures KeyOutcome(humidityLow, e) == KeyStep(old(Latched()), s, HumidityLow)
    {
      e := [];
      if s.humidity < 30.0 && !humidityLow {
        e := [RaiseLowHumidity];
        humidityLow := true;
      } else if s.humidity >= 30.0 && humidityLow {
        humidityLow := false;
      }
    }

    method CheckHighHumidity(s: SystemStatus) returns (e: seq<Alert>)
      modifies this`humidityHigh
      ensures KeyOutcome(humidityHigh, e) == KeyStep(old(Latched()), s, HumidityHigh)
    {
      e := [];
      if s.humidity > 80.0 && !humidityHigh {
        e := [RaiseHighHumidity];
        humidityHigh := true;
      } else if s.humidity <= 80.0 && humidityHigh {
        humidityHigh := false;
      }
    }

    method CheckDoor(s: SystemStatus) returns (e: seq<Alert>)
      modifies this`doorOpen
      ensures KeyOutcome(doorOpen, e) == KeyStep(old(Latched()), s, DoorOpen)
    {
      e := [];
      if !s.door1Status && !doorOpen {
        e := [RaiseDoor];
        doorOpen := true;
      } else if s.door1Status && doorOpen {
        e := [ClearDoor];
        doorOpen := false;
      }
    }

    method CheckPower(s: SystemStatus) returns (e: seq<Alert>)
      modifies this`powerIssue
      ensures KeyOutcome(powerIssue, e) == KeyStep(old(Latched()), s, PowerIssue)
    {
      e := [];
      if !s.powerStatus && !powerIssue {
        e := [RaisePower];
        powerIssue := true;
      } else if s.powerStatus && powerIssue {
        e := [ClearPower];
        powerIssue := false;
      }
    }

    /** The relay latch has no clearing branch. */
    method CheckRelay(s: SystemStatus) returns (e: seq<Alert>)
      modifies this`relayOn
      ensures KeyOutcome(relayOn, e) == KeyStep(old(Latched()), s, RelayOn)
    {
      e := [];
      if s.relayState && !relayOn {
        e := [RaiseCompressor];
        relayOn := true;
      }
    }
  }
}

/**
 The once-per-second water-tank tick (App.tsx:148-191), lifted out of its
 interval timer: the random drainage is the `drain` input, the thresholds
 are the settings the timer closes over, and the log entries and
 notifications it issues come back as events. The call that switches the
 pump device is returned as `pumpCommand`; the dashboard applies it.
 */
module Tank {
  import opened Types

  const DrainStep: real := 0.5
  const FillStep: real := 2.0
  /** Half-width of the band around a threshold inside which a crossing is noticed. */
  const Tolerance: real := 0.5
  const FullMark: real := 99.0
  const Capacity: real := 100.0

  predicate InRange(level: real) {
    0.0 <= level <= Capacity
  }

  function Abs(x: real): real {
    if x < 0.0 then -x else x
  }

  function Max(a: real, b: real): real {
    if a < b then b else a
  }

  function Min(a: real, b: real): real {
    if a < b then a else b
  }

  function Ind(b: bool): nat {
    if b then 1 else 0
  }

  function LowNotice(level: real): Event {
    Notified(LevelLow(level.Floor), AlertTone)
  }

  function HighNotice(level: real): Event {
    Notified(LevelHigh(level.Floor), SuccessTone)
  }

  const FullNotice: Event := Notified(Text("Water Tank Full Alert!"), AlertTone)
  const AutoStartLog: Event := Logged("Auto-started water pump: Low level detected", Alert)
  const AutoStopLog: Event := Logged("Auto-stopped water pump: High level reached", Success)
  const EmergencyLog: Event := Logged("Emergency Stop: Tank Full", Alert)
  const EmergencyNotice: Event := Notified(Text("Emergency Stop: Tank Full"), AlertTone)

  /** What one tick produces: the next tank state, its events in order, and the pump switch it asks for. */
  datatype TickResult = TickResult(tank: TankState, events: seq<Event>, pumpCommand: Option<bool>)

  /** The level after one tick: passive drainage with the motor off, filling with it on, never both. */
  function NextLevel(prev: TankState, drain: bool): (level: real)
    ensures InRange(prev.level) ==> InRange(level)
    ensures InRange(prev.level) && prev.isMotorOn ==> prev.level <= level <= prev.level + FillStep
    ensures InRange(prev.level) && !prev.isMotorOn ==> prev.level - DrainStep <= level <= prev.level
    ensures !prev.isMotorOn && !drain ==> level == prev.level
  {
    var drained := if !prev.isMotorOn && drain then Max(0.0, prev.level - DrainStep) else prev.level;
    if prev.isMotorOn then Min(Capacity, drained + FillStep) else drained
  }

  /** The three level notices, each issued when its crossing is detected against the previous level. */
  function Notices(prevLevel: real, level: real, low: real, high: real): (es: seq<Event>)
    ensures LowNotice(level) in es <==> Abs(level - low) < Tolerance && prevLevel > level
    ensures HighNotice(level) in es <==> Abs(level - high) < Tolerance && prevLevel < level
    ensures FullNotice in es <==> level >= FullMark && prevLevel < FullMark
    ensures |es| == Ind(Abs(level - low) < Tolerance && prevLevel > level)
                    + Ind(Abs(level - high) < Tolerance && prevLevel < level)
                    + Ind(level >= FullMark && prevLevel < FullMark)
    ensures forall i :: 0 <= i < |es| ==> es[i].Notified?
    ensures HighNotice(level) in es && FullNotice in es ==> es == [HighNotice(level), FullNotice]
  {
    (if Abs(level - low) < Tolerance && prevLevel > level then [LowNotice(level)] else [])
    + (if Abs(level - high) < Tolerance && prevLevel < level then [HighNotice(level)] else [])
    + (if level >= FullMark && prevLevel < FullMark then [FullNotice] else [])
  }

  /** The log entries and notices that go with a change of the motor flag in the given mode. */
  function TransitionEvents(mode: TankMode, wasOn: bool, isOn: bool): seq<Event> {
    if wasOn == isOn then []
    else if mode == Auto then (if isOn then [AutoStartLog] else [AutoStopLog])
    else if isOn then []
    else [EmergencyLog, EmergencyNotice]
  }

  /**
   One tick. In AUTO the pump follows a hysteresis band: a stopped pump starts once
   the level is at or below `low`, a running one stops once it is at or above `high`.
   In MANUAL a running pump is only ever stopped, when the tank is full.
   */
  function Tick(prev: TankState, low: real, high: real, drain: bool): (r: TickResult)
    ensures r.tank.mode == prev.mode
    ensures r.tank.level == NextLevel(prev, drain)
    ensures prev.mode == Auto ==>
      r.tank.isMotorOn == if prev.isMotorOn then r.tank.level < high else r.tank.level <= low
    ensures prev.mode == Manual ==> r.tank.isMotorOn == (prev.isMotorOn && r.tank.level < Capacity)
    ensures r.pumpCommand == if r.tank.isMotorOn != prev.isMotorOn then Some(r.tank.isMotorOn) else None
    ensures r.events == Notices(prev.level, r.tank.level, low, high)
                        + TransitionEvents(prev.mode, prev.isMotorOn, r.tank.isMotorOn)
  {
    var level := NextLevel(prev, drain);
    var notices := Notices(prev.level, level, low, high);
    if prev.mode == Auto then
      if level <= low && !prev.isMotorOn then
        TickResult(TankState(level, prev.mode, true), notices + [AutoStartLog], Some(true))
      else if level >= high && prev.isMotorOn then
        TickResult(TankState(level, prev.mode, false), notices + [AutoStopLog], Some(false))
      else
        TickResult(TankState(level, prev.mode, prev.isMotorOn), notices, None)
    else if prev.isMotorOn && level >= Capacity then
      TickResult(TankState(level, prev.mode, false), notices + [EmergencyLog, EmergencyNotice], Some(false))
    else
      TickResult(TankState(level, prev.mode, prev.isMotorOn), notices, None)
  }

  /**
   From a level in range, each tick either takes a full step (fill with the motor on,
   drain when the drain flag is set) or stops at the wall it would cross.
   */
  lemma LevelStep(prev: TankState, drain: bool)
    requires InRange(prev.level)
    ensures var level := NextLevel(prev, drain);
      && (prev.isMotorOn ==> level == prev.level + FillStep || (level == Capacity && prev.level > Capacity - FillStep))
      && (!prev.isMotorOn && drain ==> level == prev.level - DrainStep || (level == 0.0 && prev.level < DrainStep))
      && (!prev.isMotorOn && !drain ==> level == prev.level)
  {
  }

  /** The range invariant is kept by any sequence of ticks. */
  lemma {:induction false} TicksStayInRange(t: TankState, low: real, high: real, drains: seq<bool>)
    requires InRange(t.level)
    ensures InRange(Run(t, low, high, drains).level)
    ensures Run(t, low, high, drains).mode == t.mode
    decreases |drains|
  {
    if |drains| > 0 {
      TicksStayInRange(Tick(t, low, high, drains[0]).tank, low, high, drains[1..]);
    }
  }

  /** The tank after one tick per drain flag, in order. */
  function Run(t: TankState, low: real, high: real, drains: seq<bool>): TankState
    decreases |drains|
  {
    if |drains| == 0 then t else Run(Tick(t, low, high, drains[0]).tank, low, high, drains[1..])
  }

  /** The "tank full" notice fires once per crossing: never on two ticks in a row. */
  lemma FullNoticeOncePerCrossing(t: TankState, low: real, high: real, d1: bool, d2: bool)
    requires FullNotice in Tick(t, low, high, d1).events
    ensures FullNotice !in Tick(Tick(t, low, high, d1).tank, low, high, d2).events
  {
  }

  /**
   The LOW notice is not once per crossing: the band around the threshold is a whole
   point wide and a drain step only half a point, so a slow drain past a low threshold
   of 20.25 is noticed at 20.5 and again at 20.
   */
  lemma LowNoticeRepeats()
    ensures var r1 := Tick(TankState(21.0, Auto, false), 20.25, 90.0, true);
      var r2 := Tick(r1.tank, 20.25, 90.0, true);
      && r1.tank == TankState(20.5, Auto, false) && LowNotice(20.5) in r1.events
      && r2.tank == TankState(20.0, Auto, true) && LowNotice(20.0) in r2.events
  {
  }

  /**
   A rising tank takes two-point steps, so the HIGH notice fires at most once per rise,
   unless the high threshold sits above 99.5, where the step clamped at 100 lands in
   the band again.
   */
  lemma HighNoticeOncePerRise(t: TankState, low: real, high: real, d1: bool, d2: bool)
    requires InRange(t.level) && high <= Capacity - Tolerance
    requires HighNotice(Tick(t, low, high, d1).tank.level) in Tick(t, low, high, d1).events
    ensures var r1 := Tick(t, low, high, d1);
      HighNotice(Tick(r1.tank, low, high, d2).tank.level) !in Tick(r1.tank, low, high, d2).events
  {
    var r1 := Tick(t, low, high, d1);
    var r2 := Tick(r1.tank, low, high, d2);
    if r2.tank.level > r1.tank.level {
      assert r1.tank.isMotorOn;
      assert r2.tank.level == r1.tank.level + FillStep || r2.tank.level == Capacity;
    }
  }

  /** MANUAL, running, 97.5 with the high threshold at 99.8: HIGH at 99.5 and again at 100. */
  lemma HighNoticeRepeatsAtCap()
    ensures var r1 := Tick(TankState(97.5, Manual, true), 20.0, 99.8, false);
      var r2 := Tick(r1.tank, 20.0, 99.8, false);
      && r1.tank.level == 99.5 && HighNotice(99.5) in r1.events
      && r2.tank.level == 100.0 && HighNotice(100.0) in r2.events
  {
  }

  /** The clamp to [0, 100] picks the point of the range nearest to its argument. */
  function Clamp(x: real): (r: real)
    ensures InRange(r)
    ensures forall y :: InRange(y) ==> Abs(r - x) <= Abs(y - x)
  {
    Max(0.0, Min(Capacity, x))
  }

  /**
   The level half of the "sync with hardware" button (App.tsx:293-296): the random
   jitter is an input, and the result is back in range whatever the jitter was.
   */
  function SyncLevel(prev: TankState, jitter: real): (r: TankState)
    ensures r.mode == prev.mode && r.isMotorOn == prev.isMotorOn
    ensures InRange(r.level)
    ensures InRange(prev.level + jitter) ==> r.level == prev.level + jitter
    ensures prev.level + jitter < 0.0 ==> r.level == 0.0
    ensures prev.level + jitter > Capacity ==> r.level == Capacity
  {
    prev.(level := Clamp(prev.level + jitter))
  }

  /** The tank panel's mode button: flips AUTO and MANUAL and touches nothing else. */
  function ToggleMode(t: TankState): (r: TankState)
    ensures r.mode != t.mode
    ensures r.level == t.level && r.isMotorOn == t.isMotorOn
  {
    t.(mode := if t.mode == Auto then Manual else Auto)
  }

  /** AUTO, pump stopped, level 19 draining to 18.5 with the low threshold at 20: the pump starts. */
  lemma ScenarioLowStart()
    ensures var r := Tick(TankState(19.0, Auto, false), 20.0, 90.0, true);
      && r.tank == TankState(18.5, Auto, true)
      && r.pumpCommand == Some(true)
      && r.events == [AutoStartLog]
  {
  }

  /** AUTO, pump running, level 89 with the high threshold at 90: the level reaches 91 and the pump stops. */
  lemma ScenarioHighStop()
    ensures var r := Tick(TankState(89.0, Auto, true), 20.0, 90.0, false);
      && r.tank == TankState(91.0, Auto, false)
      && r.pumpCommand == Some(false)
      && r.events == [AutoStopLog]
  {
  }

  /** MANUAL, pump running, level 99: the level reaches 100 and the pump is stopped with an alert. */
  lemma ScenarioEmergencyStop()
    ensures var r := Tick(TankState(99.0, Manual, true), 20.0, 90.0, false);
      && r.tank == TankState(100.0, Manual, false)
      && r.pumpCommand == Some(false)
      && r.events == [EmergencyLog, EmergencyNotice]
  {
  }
}

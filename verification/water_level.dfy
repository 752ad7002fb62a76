/**
 The water-tank panel (components/WaterLevel.tsx): the fill colour of the
 level bar, the two warnings, and the state of the motor and mode buttons,
 as a function of the tank state and the two thresholds.
 */
module WaterLevel {
  import opened Types
  import Tank

  const AlertColor: string := "#F59E0B"
  const DangerColor: string := "#EF4444"
  const EmeraldColor: string := "#10b981"

  /** The colour of the level bar: amber below the low threshold, else red above the high one, else emerald. */
  function LevelColor(level: real, low: real, high: real): (c: string)
    ensures c == AlertColor <==> level < low
    ensures c == DangerColor <==> low <= level && high < level
    ensures c == EmeraldColor <==> low <= level <= high
  {
    if level < low then AlertColor
    else if level > high then DangerColor
    else EmeraldColor
  }

  function ModeName(mode: TankMode): string {
    if mode == Auto then "Auto" else "Manual"
  }

  function ModeBadge(mode: TankMode): string {
    if mode == Auto then "AUTO" else "MANUAL"
  }

  datatype Panel = Panel(
    fill: string,
    modeBadge: string,
    motorStatus: string,
    lowWarning: bool,
    overflowWarning: bool,
    motorButtonDisabled: bool,
    motorButtonLabel: string,
    modeButtonLabel: string)

  /** What the panel shows for a tank state. */
  function View(tank: TankState, low: real, high: real): (p: Panel)
    ensures p.lowWarning <==> tank.level < low
    ensures p.overflowWarning <==> tank.level > high
    ensures p.fill == AlertColor <==> p.lowWarning
    ensures p.fill == DangerColor <==> p.overflowWarning && !p.lowWarning
    ensures p.motorButtonDisabled <==> tank.mode == Auto
    ensures p.motorButtonLabel == "STOP MOTOR" <==> tank.isMotorOn
    ensures p.motorStatus == "RUNNING" <==> tank.isMotorOn
    ensures p.modeButtonLabel == "Switch to " + ModeName(Tank.ToggleMode(tank).mode)
  {
    Panel(
      LevelColor(tank.level, low, high),
      ModeBadge(tank.mode),
      if tank.isMotorOn then "RUNNING" else "STOPPED",
      tank.level < low,
      tank.level > high,
      tank.mode == Auto,
      if tank.isMotorOn then "STOP MOTOR" else "START MOTOR",
      "Switch to " + (if tank.mode == Auto then "Manual" else "Auto"))
  }

  /** With sensible thresholds the two warnings never show together. */
  lemma WarningsExclusive(tank: TankState, low: real, high: real)
    requires low <= high
    ensures !(View(tank, low, high).lowWarning && View(tank, low, high).overflowWarning)
  {
  }

  /**
   After an AUTO tick the panel never contradicts the pump: with the low warning
   showing the pump is running, with the overflow warning showing it is stopped.
   */
  lemma AutoTickAgreesWithPanel(prev: TankState, low: real, high: real, drain: bool)
    requires prev.mode == Auto && low <= high
    ensures var r := Tank.Tick(prev, low, high, drain);
      var p := View(r.tank, low, high);
      && (p.lowWarning ==> r.tank.isMotorOn)
      && (p.overflowWarning ==> !r.tank.isMotorOn)
  {
  }
}

/**
 The entities of the home-automation dashboard (types.ts, constants.ts) and
 the initial state the dashboard starts from (App.tsx).

 Numbers that the source keeps as JavaScript numbers (the tank level, the
 thresholds, a device's value) are exact `real`s here.
 */
module Types {

  datatype Option<+T> = None | Some(value: T)

  datatype DeviceType = Light | Fan | Motor

  /** The global gate on UI commands: in AppManual nothing the UI issues takes effect. */
  datatype AppMode = AppManual | AppRemote

  /** Whether the pump is driven by the thresholds or only by the user. */
  datatype TankMode = Auto | Manual

  datatype Device = Device(
    id: string,
    roomId: string,
    kind: DeviceType,
    name: string,
    isOn: bool,
    value: real,
    isFaulty: bool,
    ipAddress: Option<string>,
    gpioPin: int)

  datatype Room = Room(id: string, name: string, icon: string)

  datatype Severity = Info | Alert | Error | Success

  datatype LogEntry = LogEntry(id: string, timestamp: int, message: string, severity: Severity)

  datatype TankState = TankState(level: real, mode: TankMode, isMotorOn: bool)

  datatype SoundType = Beep | Alarm | Chime

  datatype Theme = LightTheme | DarkTheme

  datatype Settings = Settings(
    wifiSSID: string,
    wifiPass: string,
    controlMode: AppMode,
    pumpLowThreshold: real,
    pumpHighThreshold: real,
    soundEnabled: bool,
    alertSound: SoundType,
    homeName: string,
    theme: Theme)

  /** The two kinds of transient notification ('alert' | 'success'). */
  datatype Tone = AlertTone | SuccessTone

  /** The text of a notification; the two level notices carry the floored percentage they print. */
  datatype Notice = LevelLow(percent: int) | LevelHigh(percent: int) | Text(text: string)

  /** A side effect an operation emits: an entry for the append-only log, or a notification. */
  datatype Event = Logged(message: string, severity: Severity) | Notified(notice: Notice, tone: Tone)

  /** The device the tank tick addresses by name. */
  const PumpId: string := "d4"

  const InitialRooms: seq<Room> := [
    Room("r1", "Living Room", "Sofa"),
    Room("r2", "Kitchen", "Utensils"),
    Room("r3", "Bedroom", "Bed"),
    Room("r4", "Utility", "Droplets")
  ]

  const InitialDevices: seq<Device> := [
    Device("d1", "r1", Light, "Main Light", false, 80.0, false, Some("192.168.1.101"), 5),
    Device("d2", "r1", Fan, "Ceiling Fan", false, 3.0, false, Some("192.168.1.102"), 4),
    Device("d3", "r2", Light, "Kitchen Strip", false, 100.0, false, Some("192.168.1.103"), 12),
    Device(PumpId, "r4", Motor, "Main Pump", false, 0.0, false, Some("192.168.1.104"), 13)
  ]

  const InitialTank: TankState := TankState(65.0, Auto, false)

  const InitialSettings: Settings := Settings(
    "Home_Net_2.4", "password123", AppManual, 20.0, 90.0, true, Chime, "HomeControl", LightTheme)
}

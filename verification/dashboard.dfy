/**
 The dashboard's state store (App.tsx:73-336): rooms, the active room,
 devices, the tank, the settings, the pending confirmation and the two
 add forms, with one pure step per handler. A step returns the next state
 and the log entries and notifications the handler issues; fresh ids that
 the source draws from `Date.now()` are parameters.
 */
module Dashboard {
  import opened Types
  import Seqs
  import Strings
  import Tank
  import Devices
  import ConfirmationModal

  datatype RoomForm = RoomForm(isOpen: bool, name: string, icon: string)

  datatype DeviceForm = DeviceForm(isOpen: bool, name: string, kind: DeviceType)

  /** What the open confirmation dialog will do when confirmed (its `onConfirm`). */
  datatype Pending = NoAction | RemoveDevice(deviceId: string) | RemoveRoom(roomId: string)

  datatype Confirmation = Confirmation(modal: ConfirmationModal.Modal, onConfirm: Pending)

  datatype App = App(
    rooms: seq<Room>,
    activeRoomId: string,
    devices: seq<Device>,
    tank: TankState,
    settings: Settings,
    confirmation: Confirmation,
    roomForm: RoomForm,
    deviceForm: DeviceForm)

  /** A step either completes, or throws (reading `.id` of a missing room). */
  datatype Outcome = Done(next: App, events: seq<Event>) | Crash

  const Initial: App := App(
    InitialRooms, "r1", InitialDevices, InitialTank, InitialSettings,
    Confirmation(ConfirmationModal.Modal(false, "", "", false, ""), NoAction),
    RoomForm(false, "", "Box"),
    DeviceForm(false, "", Light))

  const RemoteModeAdvisory: Event := Notified(Text("Switch to Remote Mode to control devices."), AlertTone)
  const PumpAutoAdvisory: Event := Notified(Text("Switch Water Tank to MANUAL mode to control pump."), AlertTone)
  const LastRoomAdvisory: Event := Notified(Text("Cannot delete the only remaining room."), AlertTone)
  const SyncLog: Event := Logged("System synchronized with hardware sensors.", Success)
  const RoomDeletedLog: Event := Logged("Room deleted", Alert)
  const DeleteDeviceMessage: string := "Are you sure you want to remove this device? This action cannot be undone."
  const DeleteRoomMessage: string := "Are you sure you want to delete this space? All devices inside it will be removed."

  function Apply(app: App, s: Devices.Switched): Outcome {
    Done(app.(devices := s.devices, tank := s.tank), s.events)
  }

  // ---------------------------------------------------------------- the tank tick

  /** The tank half of a tick, against the thresholds in the settings. */
  function TankStep(app: App, drain: bool): Tank.TickResult {
    Tank.Tick(app.tank, app.settings.pumpLowThreshold, app.settings.pumpHighThreshold, drain)
  }

  /** Device `d` once a tick has passed the pump command on to the devices with id `target`. */
  function Commanded(d: Device, command: Option<bool>, target: string): Device {
    if command.Some? && d.id == target then d.(isOn := command.value) else d
  }

  /** How many devices a tick switches: those with id `target`, when there is a command. */
  function SwitchCount(devices: seq<Device>, command: Option<bool>, target: string): nat {
    if command.Some? then Seqs.Count(devices, Devices.WithId(target)) else 0
  }

  /** `events` are the tank's own events, in order, followed by `n` log entries. */
  predicate TickThenSwitchLogs(events: seq<Event>, t: Tank.TickResult, n: nat) {
    && |events| == |t.events| + n
    && events[..|t.events|] == t.events
    && forall k :: |t.events| <= k < |events| ==> events[k].Logged?
  }

  /**
   A tank step applied to the store: the tank takes its new state, and its pump command,
   if any, is passed on as a forced switch of the devices with id `target`.
   */
  function PassOn(app: App, t: Tank.TickResult, target: string): (r: Outcome)
    requires t.pumpCommand.Some? ==> t.pumpCommand.value == t.tank.isMotorOn
    ensures r.Done?
    ensures r.next == app.(devices := r.next.devices, tank := t.tank)
    ensures |r.next.devices| == |app.devices|
    ensures forall i :: 0 <= i < |app.devices| ==>
      r.next.devices[i] == Commanded(app.devices[i], t.pumpCommand, target)
    ensures TickThenSwitchLogs(r.events, t, SwitchCount(app.devices, t.pumpCommand, target))
  {
    if t.pumpCommand.Some? then
      var s := Devices.ToggleDeviceState(app.devices, t.tank, target, t.pumpCommand);
      Devices.ForcedToggleKeepsTank(app.devices, t.tank, target);
      Devices.ToggleLogsEachSwitch(app.devices, t.tank, target, t.pumpCommand);
      assert forall k :: |t.events| <= k < |t.events + s.events| ==> (t.events + s.events)[k] in s.events;
      Done(app.(devices := s.devices, tank := s.tank), t.events + s.events)
    else
      Done(app.(tank := t.tank), t.events)
  }

  /**
   The tick as the source wires it: the tank steps, and a change of the motor flag
   is passed on by switching the device with the fixed id "d4".
   */
  function TankTickAsWritten(app: App, drain: bool): (r: Outcome)
    ensures r.Done?
    ensures r.next.tank == TankStep(app, drain).tank
    ensures r.next == app.(devices := r.next.devices, tank := r.next.tank)
    ensures |r.next.devices| == |app.devices|
    ensures forall i :: 0 <= i < |app.devices| ==>
      r.next.devices[i] == Commanded(app.devices[i], TankStep(app, drain).pumpCommand, PumpId)
    ensures TickThenSwitchLogs(r.events, TankStep(app, drain),
      SwitchCount(app.devices, TankStep(app, drain).pumpCommand, PumpId))
  {
    PassOn(app, TankStep(app, drain), PumpId)
  }

  /**
   The tick with the change of the motor flag passed on to the pump, the first MOTOR
   device, as the motor button and the sync button find it. Nothing but the tank and
   the devices changes; with no pump, only the tank does.
   */
  function TankTick(app: App, drain: bool): (r: Outcome)
    ensures r.Done?
    ensures r.next.tank == TankStep(app, drain).tank
    ensures r.next == app.(devices := r.next.devices, tank := r.next.tank)
    ensures Devices.FindPump(app.devices).None? ==> r.next.devices == app.devices && r.events == TankStep(app, drain).events
    ensures Devices.FindPump(app.devices).Some? ==>
      var pumpId := Devices.FindPump(app.devices).value.id;
      && |r.next.devices| == |app.devices|
      && (forall i :: 0 <= i < |app.devices| ==>
           r.next.devices[i] == Commanded(app.devices[i], TankStep(app, drain).pumpCommand, pumpId))
      && TickThenSwitchLogs(r.events, TankStep(app, drain),
           SwitchCount(app.devices, TankStep(app, drain).pumpCommand, pumpId))
  {
    var t := TankStep(app, drain);
    var pump := Devices.FindPump(app.devices);
    if pump.Some? then PassOn(app, t, pump.value.id) else Done(app.(tank := t.tank), t.events)
  }

  /** When the corrected tick changes the motor flag, the pump (and any device sharing its id) follows it. */
  lemma TickMovesPumpWithTank(app: App, drain: bool)
    requires Devices.FindPump(app.devices).Some? && TankStep(app, drain).pumpCommand.Some?
    ensures forall i :: 0 <= i < |app.devices| && app.devices[i].id == Devices.FindPump(app.devices).value.id ==>
      TankTick(app, drain).next.devices[i].isOn == TankTick(app, drain).next.tank.isMotorOn
  {
  }

  /** The initial store with the tank in state `tank` and the pump "d4" agreeing with its motor flag. */
  function InitialWithTank(tank: TankState): App {
    Initial.(tank := tank, devices := InitialDevices[..3] + [InitialDevices[3].(isOn := tank.isMotorOn)])
  }

  /**
   A tick as written that commands the pump, in a store where exactly one device, the
   `k`-th, is "d4": that device alone takes the commanded state, and its one switch
   log follows the tank's events.
   */
  lemma TickSwitchesLonePump(app: App, drain: bool, k: int)
    requires TankStep(app, drain).pumpCommand.Some?
    requires 0 <= k < |app.devices| && app.devices[k].id == PumpId
    requires forall i :: 0 <= i < |app.devices| && i != k ==> app.devices[i].id != PumpId
    ensures var t := TankStep(app, drain);
      var r := TankTickAsWritten(app, drain);
      && r.next == app.(devices := app.devices[k := app.devices[k].(isOn := t.tank.isMotorOn)], tank := t.tank)
      && r.events == t.events + [Devices.SwitchLog(app.devices[k], t.tank.isMotorOn)]
  {
    var t := TankStep(app, drain);
    Devices.ToggleUniqueLogsOnce(app.devices, t.tank, PumpId, t.pumpCommand, k);
  }

  /** The initial store's only "d4" is its fourth device; a tick that commands the pump switches it. */
  lemma InitialScenarioTick(tank: TankState, drain: bool)
    requires TankStep(InitialWithTank(tank), drain).pumpCommand.Some?
    ensures var t := TankStep(InitialWithTank(tank), drain);
      var r := TankTickAsWritten(InitialWithTank(tank), drain);
      && r.next == InitialWithTank(t.tank)
      && r.events == t.events + [Devices.SwitchLog(InitialDevices[3].(isOn := tank.isMotorOn), t.tank.isMotorOn)]
  {
    var app := InitialWithTank(tank);
    var ds := app.devices;
    assert ds[0].id != PumpId && ds[1].id != PumpId && ds[2].id != PumpId && ds[3].id == PumpId;
    TickSwitchesLonePump(app, drain, 3);
    assert ds[3 := ds[3].(isOn := TankStep(app, drain).tank.isMotorOn)] == InitialWithTank(TankStep(app, drain).tank).devices;
  }

  /** The initial store ticks against the initial thresholds, 20 and 90. */
  lemma InitialThresholds(tank: TankState, drain: bool)
    ensures TankStep(InitialWithTank(tank), drain) == Tank.Tick(tank, 20.0, 90.0, drain)
  {
  }

  /** The initial pump's switch log: an alert when it is turned on. */
  lemma InitialPumpLogs(b: bool)
    ensures Devices.SwitchLog(InitialDevices[3].(isOn := b), true) == Logged("Main Pump turned ON", Alert)
    ensures Devices.SwitchLog(InitialDevices[3].(isOn := b), false) == Logged("Main Pump turned OFF", Info)
  {
    assert "Main Pump" + " turned " + "ON" == "Main Pump turned ON";
    assert "Main Pump" + " turned " + "OFF" == "Main Pump turned OFF";
  }

  /** AUTO at 19 with a drain: the tank starts the pump, and the tick switches "Main Pump" on with an alert. */
  lemma ScenarioLowStartSwitchesPump(tank: TankState)
    requires tank == TankState(19.0, Auto, false)
    ensures var r := TankTickAsWritten(InitialWithTank(tank), true);
      && r.next == InitialWithTank(TankState(18.5, Auto, true))
      && r.events == [Tank.AutoStartLog, Logged("Main Pump turned ON", Alert)]
  {
    InitialThresholds(tank, true);
    Tank.ScenarioLowStart();
    InitialScenarioTick(tank, true);
    InitialPumpLogs(false);
  }

  /** AUTO at 89 with the pump running: the tank stops the pump, and the tick switches "Main Pump" off. */
  lemma ScenarioHighStopSwitchesPump(tank: TankState)
    requires tank == TankState(89.0, Auto, true)
    ensures var r := TankTickAsWritten(InitialWithTank(tank), false);
      && r.next == InitialWithTank(TankState(91.0, Auto, false))
      && r.events == [Tank.AutoStopLog, Logged("Main Pump turned OFF", Info)]
  {
    InitialThresholds(tank, false);
    Tank.ScenarioHighStop();
    InitialScenarioTick(tank, false);
    InitialPumpLogs(true);
  }

  /** MANUAL at 99 with the pump running: the emergency stop, then "Main Pump" switched off. */
  lemma ScenarioEmergencyStopSwitchesPump(tank: TankState)
    requires tank == TankState(99.0, Manual, true)
    ensures var r := TankTickAsWritten(InitialWithTank(tank), false);
      && r.next == InitialWithTank(TankState(100.0, Manual, false))
      && r.events == [Tank.EmergencyLog, Tank.EmergencyNotice, Logged("Main Pump turned OFF", Info)]
  {
    InitialThresholds(tank, false);
    Tank.ScenarioEmergencyStop();
    InitialScenarioTick(tank, false);
    InitialPumpLogs(true);
  }

  // ---------------------------------------------------------------- device handlers

  /** The device `handleDeviceToggleUI` looks up is a pump while the tank is in AUTO. */
  predicate PumpLocked(app: App, id: string) {
    var d := Devices.FindById(app.devices, id);
    d.Some? && Devices.IsPump(d.value) && app.tank.mode == Auto
  }

  /**
   `handleDeviceToggleUI`: refused with an advisory in MANUAL control mode, and for
   the pump while the tank is in AUTO; otherwise the device is switched.
   */
  function ToggleDeviceUI(app: App, id: string): (r: Outcome)
    ensures r.Done?
    ensures app.settings.controlMode == AppManual ==> r == Done(app, [RemoteModeAdvisory])
    ensures app.settings.controlMode == AppRemote && PumpLocked(app, id) ==> r == Done(app, [PumpAutoAdvisory])
    ensures app.settings.controlMode == AppRemote && !PumpLocked(app, id) ==>
      r == Apply(app, Devices.ToggleDeviceState(app.devices, app.tank, id, None))
  {
    if app.settings.controlMode == AppManual then Done(app, [RemoteModeAdvisory])
    else if PumpLocked(app, id) then Done(app, [PumpAutoAdvisory])
    else Apply(app, Devices.ToggleDeviceState(app.devices, app.tank, id, None))
  }

  /** `handleDeviceValueChange`: ignored in MANUAL control mode, else only the value of device `id` changes. */
  function ChangeDeviceValue(app: App, id: string, value: real): (r: Outcome)
    ensures r.Done? && r.events == []
    ensures r.next == app.(devices := r.next.devices)
    ensures app.settings.controlMode == AppManual ==> r.next == app
    ensures |r.next.devices| == |app.devices|
    ensures app.settings.controlMode == AppRemote ==> forall i :: 0 <= i < |app.devices| ==>
      r.next.devices[i] == if app.devices[i].id == id then app.devices[i].(value := value) else app.devices[i]
  {
    if app.settings.controlMode == AppManual then Done(app, [])
    else Done(app.(devices := Devices.SetValue(app.devices, id, value)), [])
  }

  /** `handleUpdateDevice`, from the settings panel: no guard. */
  function UpdateDeviceFromSettings(app: App, updated: Device): (r: Outcome)
    ensures r.Done?
    ensures r.next == app.(devices := r.next.devices, tank := r.next.tank)
    ensures |r.next.devices| == |app.devices|
    ensures forall i :: 0 <= i < |app.devices| ==>
      r.next.devices[i] == if app.devices[i].id == updated.id then updated else app.devices[i]
  {
    Apply(app, Devices.UpdateDevice(app.devices, app.tank, updated))
  }

  /** An update from settings of an id that exactly one device has logs its switch, if any, and nothing else. */
  lemma UpdateFromSettingsLogs(app: App, updated: Device, k: int)
    requires 0 <= k < |app.devices| && app.devices[k].id == updated.id
    requires forall i :: 0 <= i < |app.devices| && i != k ==> app.devices[i].id != updated.id
    ensures UpdateDeviceFromSettings(app, updated).events ==
      if app.devices[k].isOn != updated.isOn
      then [Logged(updated.name + " manually switched " + Devices.OnOff(updated.isOn) + " from settings", Info)]
      else []
  {
    Devices.UpdateUniqueLogsOnce(app.devices, app.tank, updated, k);
  }

  /** The motor button of the tank panel: disabled in AUTO; switches the pump, or the bare flag when there is none. */
  function MotorButton(app: App): (r: Outcome)
    ensures r.Done?
    ensures app.tank.mode == Auto ==> r == Done(app, [])
    ensures app.tank.mode == Manual && Devices.FindPump(app.devices).None? ==>
      r == Done(app.(tank := app.tank.(isMotorOn := !app.tank.isMotorOn)), [])
    ensures app.tank.mode == Manual && Devices.FindPump(app.devices).Some? ==>
      r == ToggleDeviceUI(app, Devices.FindPump(app.devices).value.id)
  {
    if app.tank.mode == Auto then Done(app, [])
    else
      var pump := Devices.FindPump(app.devices);
      if pump.Some? then ToggleDeviceUI(app, pump.value.id)
      else Done(app.(tank := app.tank.(isMotorOn := !app.tank.isMotorOn)), [])
  }

  /** The mode button of the tank panel. */
  function ToggleTankMode(app: App): (r: Outcome)
    ensures r.Done? && r.events == []
    ensures r.next == app.(tank := r.next.tank)
    ensures r.next.tank.mode != app.tank.mode
    ensures r.next.tank.level == app.tank.level && r.next.tank.isMotorOn == app.tank.isMotorOn
  {
    Done(app.(tank := Tank.ToggleMode(app.tank)), [])
  }

  /**
   `handleSystemSync`: the level moves by the (random) jitter and is clamped, the motor
   flag is re-read from the pump, and the sync is logged.
   */
  function SystemSync(app: App, jitter: real): (r: Outcome)
    ensures r.Done? && r.events == [SyncLog]
    ensures r.next == app.(tank := r.next.tank)
    ensures Tank.InRange(r.next.tank.level) && r.next.tank.mode == app.tank.mode
    ensures Tank.InRange(app.tank.level + jitter) ==> r.next.tank.level == app.tank.level + jitter
    ensures app.tank.level + jitter < 0.0 ==> r.next.tank.level == 0.0
    ensures app.tank.level + jitter > Tank.Capacity ==> r.next.tank.level == Tank.Capacity
    ensures Devices.FindPump(app.devices).Some? ==> r.next.tank.isMotorOn == Devices.FindPump(app.devices).value.isOn
    ensures Devices.FindPump(app.devices).None? ==> r.next.tank.isMotorOn == app.tank.isMotorOn
  {
    var t := Tank.SyncLevel(app.tank, jitter);
    var pump := Devices.FindPump(app.devices);
    var t' := if pump.Some? then t.(isMotorOn := pump.value.isOn) else t;
    Done(app.(tank := t'), [SyncLog])
  }

  // ---------------------------------------------------------------- deletion

  function NotRoom(id: string): Room -> bool {
    (r: Room) => r.id != id
  }

  function OpenConfirmation(app: App, title: string, message: string, action: Pending): App {
    var m := app.confirmation.modal;
    app.(confirmation := Confirmation(ConfirmationModal.Modal(true, title, message, false, m.input), action))
  }

  /** `deleteDevice`: opens an unguarded confirmation whose confirm removes the device. */
  function RequestDeleteDevice(app: App, id: string): (r: Outcome)
    ensures r.Done? && r.events == []
    ensures r.next == app.(confirmation := r.next.confirmation)
    ensures r.next.confirmation.onConfirm == RemoveDevice(id)
    ensures r.next.confirmation.modal.isOpen && !r.next.confirmation.modal.requireAuth
    ensures r.next.confirmation.modal.input == app.confirmation.modal.input
  {
    Done(OpenConfirmation(app, "Delete Device", DeleteDeviceMessage, RemoveDevice(id)), [])
  }

  /** The confirmed deletion of a device: exactly the devices with that id go, the dialog closes. */
  function RemoveDeviceConfirmed(app: App, id: string): (r: Outcome)
    ensures r.Done?
    ensures r.next == app.(devices := r.next.devices, confirmation := r.next.confirmation)
    ensures forall d :: multiset(r.next.devices)[d] == if d.id == id then 0 else multiset(app.devices)[d]
    ensures r.next.devices == Seqs.Keep(app.devices, Devices.NotDevice(id))
    ensures r.next.confirmation == app.confirmation.(modal := app.confirmation.modal.(isOpen := false))
    ensures r.events == [Logged("Device " + id + " removed", Alert)]
  {
    var c := app.confirmation;
    Done(app.(devices := Seqs.Keep(app.devices, Devices.NotDevice(id)),
              confirmation := c.(modal := c.modal.(isOpen := false))),
         [Logged("Device " + id + " removed", Alert)])
  }

  /** `rooms.find(r => r.id === id)?.name` as a template literal writes it: the first match's name, else "undefined". */
  function RoomName(rooms: seq<Room>, id: string): (name: string)
    ensures (forall i :: 0 <= i < |rooms| ==> rooms[i].id != id) ==> name == "undefined"
    ensures forall i :: 0 <= i < |rooms| && rooms[i].id == id && (forall j :: 0 <= j < i ==> rooms[j].id != id) ==>
      name == rooms[i].name
    decreases |rooms|
  {
    if |rooms| == 0 then "undefined"
    else if rooms[0].id == id then rooms[0].name
    else RoomName(rooms[1..], id)
  }

  /** `deleteRoom`: refused with an advisory when a single room is left, else asks for confirmation. */
  function RequestDeleteRoom(app: App, id: string): (r: Outcome)
    ensures r.Done?
    ensures |app.rooms| == 1 ==> r == Done(app, [LastRoomAdvisory])
    ensures |app.rooms| != 1 ==> r.events == [] && r.next == app.(confirmation := r.next.confirmation)
    ensures |app.rooms| != 1 ==> r.next.confirmation.onConfirm == RemoveRoom(id) && r.next.confirmation.modal.isOpen
    ensures |app.rooms| != 1 ==> !r.next.confirmation.modal.requireAuth
    ensures |app.rooms| != 1 ==> r.next.confirmation.modal.input == app.confirmation.modal.input
    ensures |app.rooms| != 1 ==> r.next.confirmation.modal.title == "Delete Space: " + RoomName(app.rooms, id)
  {
    if |app.rooms| == 1 then Done(app, [LastRoomAdvisory])
    else Done(OpenConfirmation(app, "Delete Space: " + RoomName(app.rooms, id), DeleteRoomMessage, RemoveRoom(id)), [])
  }

  /**
   The confirmed deletion of a room: the room and every device in it go, and the
   active room moves to the first remaining room when it was the one deleted. With
   no room remaining and the deleted room active, the source reads `.id` of
   `undefined` and throws.
   */
  function RemoveRoomConfirmed(app: App, id: string): (r: Outcome)
    ensures r.Crash? <==> |Seqs.Keep(app.rooms, NotRoom(id))| == 0 && app.activeRoomId == id
    ensures r.Done? ==> r.next.rooms == Seqs.Keep(app.rooms, NotRoom(id))
    ensures r.Done? ==> forall x :: multiset(r.next.rooms)[x] == if x.id == id then 0 else multiset(app.rooms)[x]
    ensures r.Done? ==> forall d :: multiset(r.next.devices)[d] == if d.roomId == id then 0 else multiset(app.devices)[d]
    ensures r.Done? ==> r.next.devices == Seqs.Keep(app.devices, Devices.NotInRoom(id))
    ensures r.Done? ==> r.next == app.(rooms := r.next.rooms, devices := r.next.devices,
      activeRoomId := r.next.activeRoomId, confirmation := r.next.confirmation)
    ensures r.Done? && app.activeRoomId == id ==> r.next.activeRoomId == r.next.rooms[0].id
    ensures r.Done? && app.activeRoomId != id ==> r.next.activeRoomId == app.activeRoomId
    ensures r.Done? ==> r.next.tank == app.tank && r.next.settings == app.settings && r.events == [RoomDeletedLog]
    ensures r.Done? ==> r.next.confirmation == app.confirmation.(modal := app.confirmation.modal.(isOpen := false))
  {
    var newRooms := Seqs.Keep(app.rooms, NotRoom(id));
    if app.activeRoomId == id && |newRooms| == 0 then Crash
    else
      var c := app.confirmation;
      Done(app.(rooms := newRooms,
                devices := Seqs.Keep(app.devices, Devices.NotInRoom(id)),
                activeRoomId := if app.activeRoomId == id then newRooms[0].id else app.activeRoomId,
                confirmation := c.(modal := c.modal.(isOpen := false))),
           [RoomDeletedLog])
  }

  // ---------------------------------------------------------------- the confirmation dialog

  /**
   The dialog's confirm button: only there while the dialog is open; runs the pending
   action when the dialog's gate lets it through.
   */
  function PressConfirm(app: App): (r: Outcome)
    ensures !app.confirmation.modal.isOpen ==> r == Done(app, [])
    ensures ConfirmationModal.ConfirmDisabled(app.confirmation.modal) ==> r == Done(app, [])
    ensures app.confirmation.modal.isOpen && !ConfirmationModal.ConfirmDisabled(app.confirmation.modal) ==>
      var cleared := app.(confirmation := app.confirmation.(modal := app.confirmation.modal.(input := "")));
      match app.confirmation.onConfirm
      case NoAction => r == Done(cleared, [])
      case RemoveDevice(id) => r == RemoveDeviceConfirmed(cleared, id)
      case RemoveRoom(id) => r == RemoveRoomConfirmed(cleared, id)
  {
    var c := app.confirmation;
    if !c.modal.isOpen then Done(app, [])
    else
      var pressed := ConfirmationModal.HandleConfirm(c.modal);
      if !pressed.confirmed then Done(app, [])
      else
        var cleared := app.(confirmation := c.(modal := pressed.modal));
        match c.onConfirm
        case NoAction => Done(cleared, [])
        case RemoveDevice(id) => RemoveDeviceConfirmed(cleared, id)
        case RemoveRoom(id) => RemoveRoomConfirmed(cleared, id)
  }

  function CloseConfirmation(app: App): (r: Outcome)
    ensures r.Done? && r.events == []
    ensures r.next == app.(confirmation := app.confirmation.(modal := app.confirmation.modal.(isOpen := false)))
  {
    var c := app.confirmation;
    Done(app.(confirmation := c.(modal := c.modal.(isOpen := false))), [])
  }

  function TypeConfirmation(app: App, text: string): (r: Outcome)
    ensures r.Done? && r.events == []
    ensures r.next == app.(confirmation := app.confirmation.(modal := app.confirmation.modal.(input := text)))
  {
    var c := app.confirmation;
    Done(app.(confirmation := c.(modal := ConfirmationModal.TypeInput(c.modal, text))), [])
  }

  // ---------------------------------------------------------------- adding

  /** `confirmAddRoom`: a blank name changes nothing; otherwise the room goes last and the form resets. */
  function ConfirmAddRoom(app: App, freshId: string): (r: Outcome)
    ensures r.Done?
    ensures Strings.IsBlank(app.roomForm.name) ==> r == Done(app, [])
    ensures !Strings.IsBlank(app.roomForm.name) ==>
      && r.next == app.(rooms := r.next.rooms, roomForm := r.next.roomForm)
      && r.next.rooms == app.rooms + [Room(freshId, app.roomForm.name, app.roomForm.icon)]
      && r.next.roomForm == RoomForm(false, "", "Box")
      && r.events == [Logged("Room \"" + app.roomForm.name + "\" added", Success)]
  {
    var form := app.roomForm;
    Strings.TrimEmptyIffBlank(form.name);
    if Strings.Trim(form.name) == "" then Done(app, [])
    else
      Done(app.(rooms := app.rooms + [Room(freshId, form.name, form.icon)], roomForm := RoomForm(false, "", "Box")),
           [Logged("Room \"" + form.name + "\" added", Success)])
  }

  /** The device `confirmAddDevice` creates: off, healthy, in the active room, at the default value of its kind. */
  function NewDevice(app: App, freshId: string): (d: Device)
    ensures d.id == freshId && d.roomId == app.activeRoomId
    ensures d.name == app.deviceForm.name && d.kind == app.deviceForm.kind
    ensures !d.isOn && !d.isFaulty
    ensures d.value == if d.kind == Fan then 1.0 else 50.0
  {
    var form := app.deviceForm;
    Device(freshId, app.activeRoomId, form.kind, form.name, false, if form.kind == Fan then 1.0 else 50.0,
           false, Some("192.168.1.X"), 2)
  }

  /** `confirmAddDevice`: a blank name changes nothing; otherwise the device goes last and the form resets. */
  function ConfirmAddDevice(app: App, freshId: string): (r: Outcome)
    ensures r.Done?
    ensures Strings.IsBlank(app.deviceForm.name) ==> r == Done(app, [])
    ensures !Strings.IsBlank(app.deviceForm.name) ==>
      && r.next == app.(devices := r.next.devices, deviceForm := r.next.deviceForm)
      && r.next.devices == app.devices + [NewDevice(app, freshId)]
      && r.next.deviceForm == DeviceForm(false, "", Light)
      && r.events == [Logged("Device \"" + app.deviceForm.name + "\" added to current room", Success)]
  {
    var form := app.deviceForm;
    Strings.TrimEmptyIffBlank(form.name);
    if Strings.Trim(form.name) == "" then Done(app, [])
    else
      Done(app.(devices := app.devices + [NewDevice(app, freshId)], deviceForm := DeviceForm(false, "", Light)),
           [Logged("Device \"" + form.name + "\" added to current room", Success)])
  }

  // ---------------------------------------------------------------- the store

  datatype Action =
    | TimerTick(drain: bool)
    | ToggleDevice(id: string)
    | ChangeValue(id: string, value: real)
    | UpdateDevice(updated: Device)
    | PressMotorButton
    | PressModeButton
    | Sync(jitter: real)
    | DeleteDevice(id: string)
    | DeleteRoom(id: string)
    | Confirm
    | CloseDialog
    | TypeInDialog(text: string)
    | SelectRoom(id: string)
    | FillRoomForm(name: string, icon: string)
    | AddRoom(freshId: string)
    | FillDeviceForm(name: string, kind: DeviceType)
    | AddDevice(freshId: string)
    | ChangeSettings(settings: Settings)

  /**
   One handler run: the tick uses the corrected wiring (see `TankTick`). Only the
   confirmation of a room deletion can throw; the room tabs and the settings panel
   set their piece of state and log nothing.
   */
  function Step(app: App, a: Action): (r: Outcome)
    ensures r.Crash? ==> a.Confirm? && app.confirmation.modal.isOpen && app.confirmation.onConfirm.RemoveRoom?
    ensures a.SelectRoom? ==> r == Done(app.(activeRoomId := a.id), [])
    ensures a.ChangeSettings? ==> r == Done(app.(settings := a.settings), [])
  {
    match a
    case TimerTick(drain) => TankTick(app, drain)
    case ToggleDevice(id) => ToggleDeviceUI(app, id)
    case ChangeValue(id, value) => ChangeDeviceValue(app, id, value)
    case UpdateDevice(updated) => UpdateDeviceFromSettings(app, updated)
    case PressMotorButton => MotorButton(app)
    case PressModeButton => ToggleTankMode(app)
    case Sync(jitter) => SystemSync(app, jitter)
    case DeleteDevice(id) => RequestDeleteDevice(app, id)
    case DeleteRoom(id) => RequestDeleteRoom(app, id)
    case Confirm => PressConfirm(app)
    case CloseDialog => CloseConfirmation(app)
    case TypeInDialog(text) => TypeConfirmation(app, text)
    case SelectRoom(id) => Done(app.(activeRoomId := id), [])
    case FillRoomForm(name, icon) => Done(app.(roomForm := RoomForm(true, name, icon)), [])
    case AddRoom(freshId) => ConfirmAddRoom(app, freshId)
    case FillDeviceForm(name, kind) => Done(app.(deviceForm := DeviceForm(true, name, kind)), [])
    case AddDevice(freshId) => ConfirmAddDevice(app, freshId)
    case ChangeSettings(settings) => Done(app.(settings := settings), [])
  }

  // ---------------------------------------------------------------- the invariant

  predicate DistinctRoomIds(rooms: seq<Room>) {
    forall i, j :: 0 <= i < j < |rooms| ==> rooms[i].id != rooms[j].id
  }

  predicate HasRoom(rooms: seq<Room>, id: string) {
    exists i :: 0 <= i < |rooms| && rooms[i].id == id
  }

  /**
   What every reachable state satisfies: at least one room, room ids unique, the
   active room exists, the level in range, at most one pump and the tank's motor
   flag mirroring it, and a pending room deletion only while two rooms remain.
   */
  predicate Coherent(app: App) {
    && |app.rooms| >= 1
    && DistinctRoomIds(app.rooms)
    && HasRoom(app.rooms, app.activeRoomId)
    && Tank.InRange(app.tank.level)
    && Devices.SinglePump(app.devices)
    && Devices.PumpInSync(app.devices, app.tank)
    && (app.confirmation.modal.isOpen && app.confirmation.onConfirm.RemoveRoom? ==> |app.rooms| >= 2)
  }

  /**
   What the model assumes of an action's inputs: the settings panel replaces a device
   by one of the same kind, the room tabs select existing rooms, `Date.now()` gives a
   fresh room id, and a pump is only added when there is none and the tank's motor
   flag is off.
   */
  predicate Admissible(app: App, a: Action) {
    match a
    case UpdateDevice(updated) =>
      forall i :: 0 <= i < |app.devices| && app.devices[i].id == updated.id ==> app.devices[i].kind == updated.kind
    case SelectRoom(id) => HasRoom(app.rooms, id)
    case AddRoom(freshId) => !HasRoom(app.rooms, freshId)
    case AddDevice(_) =>
      app.deviceForm.kind == Motor ==> Devices.FindPump(app.devices).None? && !app.tank.isMotorOn
    case _ => true
  }

  lemma InitialIsCoherent()
    ensures Coherent(Initial)
  {
    assert Initial.rooms[0].id == Initial.activeRoomId;
    var ds := Initial.devices;
    assert ds[4..] == [];
    assert Seqs.Count(ds[3..], Devices.IsPump) == 1 by { assert ds[3..][1..] == ds[4..]; }
    assert Seqs.Count(ds[2..], Devices.IsPump) == 1 by { assert ds[2..][1..] == ds[3..]; }
    assert Seqs.Count(ds[1..], Devices.IsPump) == 1 by { assert ds[1..][1..] == ds[2..]; }
  }

  /** Removing a room keeps the remaining ids unique. */
  lemma {:induction false} RemovalKeepsDistinct(rooms: seq<Room>, id: string)
    requires DistinctRoomIds(rooms)
    ensures DistinctRoomIds(Seqs.Keep(rooms, NotRoom(id)))
    decreases |rooms|
  {
    if |rooms| > 0 {
      var tail := rooms[1..];
      var rest := Seqs.Keep(tail, NotRoom(id));
      RemovalKeepsDistinct(tail, id);
      if rooms[0].id != id {
        assert Seqs.Keep(rooms, NotRoom(id)) == [rooms[0]] + rest;
        KeptTailMissesHead(rooms, id);
        DistinctCons(rooms[0], rest);
      } else {
        assert Seqs.Keep(rooms, NotRoom(id)) == rest;
      }
    }
  }

  /** With unique ids, no room the filter keeps from the tail shares the head's id. */
  lemma KeptTailMissesHead(rooms: seq<Room>, id: string)
    requires DistinctRoomIds(rooms) && |rooms| > 0
    ensures forall j :: 0 <= j < |Seqs.Keep(rooms[1..], NotRoom(id))| ==>
      Seqs.Keep(rooms[1..], NotRoom(id))[j].id != rooms[0].id
  {
  }

  lemma DistinctCons(x: Room, rest: seq<Room>)
    requires DistinctRoomIds(rest)
    requires forall j :: 0 <= j < |rest| ==> rest[j].id != x.id
    ensures DistinctRoomIds([x] + rest)
  {
  }

  /** With unique ids, removing a room removes at most one. */
  lemma {:induction false} RemovalDropsAtMostOne(rooms: seq<Room>, id: string)
    requires DistinctRoomIds(rooms)
    ensures |Seqs.Keep(rooms, NotRoom(id))| + 1 >= |rooms|
    decreases |rooms|
  {
    if |rooms| > 0 {
      if rooms[0].id == id {
        Seqs.KeepAll(rooms[1..], NotRoom(id));
      } else {
        RemovalDropsAtMostOne(rooms[1..], id);
      }
    }
  }

  /** Removing a room keeps every room with another id. */
  lemma RemovalKeepsOthers(rooms: seq<Room>, id: string, x: string)
    requires HasRoom(rooms, x) && x != id
    ensures HasRoom(Seqs.Keep(rooms, NotRoom(id)), x)
  {
    var kept := Seqs.Keep(rooms, NotRoom(id));
    var j :| 0 <= j < |rooms| && rooms[j].id == x;
    assert NotRoom(id)(rooms[j]);
    assert multiset(rooms)[rooms[j]] > 0;
    assert rooms[j] in multiset(kept);
    var k :| 0 <= k < |kept| && kept[k] == rooms[j];
  }

  lemma TickKeepsCoherent(app: App, drain: bool)
    requires Coherent(app)
    ensures Coherent(TankTick(app, drain).next)
  {
    var t := Tank.Tick(app.tank, app.settings.pumpLowThreshold, app.settings.pumpHighThreshold, drain);
    var pump := Devices.FindPump(app.devices);
    if t.pumpCommand.Some? && pump.Some? {
      Devices.ToggleKeepsPumpInSync(app.devices, t.tank, pump.value.id, t.pumpCommand);
    }
  }

  lemma ToggleKeepsCoherent(app: App, id: string)
    requires Coherent(app)
    ensures Coherent(ToggleDeviceUI(app, id).next)
  {
    Devices.ToggleKeepsPumpInSync(app.devices, app.tank, id, None);
  }

  lemma MotorButtonKeepsCoherent(app: App)
    requires Coherent(app)
    ensures Coherent(MotorButton(app).next)
  {
    var pump := Devices.FindPump(app.devices);
    if app.tank.mode == Manual && pump.Some? {
      ToggleKeepsCoherent(app, pump.value.id);
    }
  }

  lemma ChangeValueKeepsCoherent(app: App, id: string, value: real)
    requires Coherent(app)
    ensures Coherent(ChangeDeviceValue(app, id, value).next)
  {
    var r := ChangeDeviceValue(app, id, value);
    Seqs.CountPointwise(app.devices, r.next.devices, Devices.IsPump);
  }

  lemma UpdateKeepsCoherent(app: App, updated: Device)
    requires Coherent(app)
    requires forall i :: 0 <= i < |app.devices| && app.devices[i].id == updated.id ==> app.devices[i].kind == updated.kind
    ensures Coherent(UpdateDeviceFromSettings(app, updated).next)
  {
    Devices.UpdateKeepsPumpInSync(app.devices, app.tank, updated);
  }

  lemma SyncKeepsCoherent(app: App, jitter: real)
    requires Coherent(app)
    ensures Coherent(SystemSync(app, jitter).next)
  {
  }

  /** The mode button twice in a row restores the state. */
  lemma ModeButtonTwiceRestores(app: App)
    ensures ToggleTankMode(ToggleTankMode(app).next).next == app
  {
  }

  /** Whatever the state before, after a sync the tank's motor flag mirrors the single pump. */
  lemma SyncResyncsPump(app: App, jitter: real)
    requires Devices.SinglePump(app.devices)
    ensures Devices.PumpInSync(SystemSync(app, jitter).next.devices, SystemSync(app, jitter).next.tank)
  {
    var r := SystemSync(app, jitter);
    var pump := Devices.FindPump(app.devices);
    if pump.Some? {
      var k :| 0 <= k < |app.devices| && app.devices[k] == pump.value && Devices.IsPump(pump.value);
      forall i | 0 <= i < |app.devices| && Devices.IsPump(app.devices[i])
        ensures app.devices[i].isOn == r.next.tank.isMotorOn
      {
        Seqs.CountAtMostOne(app.devices, Devices.IsPump, i, k);
      }
    }
  }

  lemma RemoveDeviceKeepsCoherent(app: App, id: string)
    requires Coherent(app)
    ensures Coherent(RemoveDeviceConfirmed(app, id).next)
  {
    Devices.RemoveKeepsPumpInSync(app.devices, app.tank, Devices.NotDevice(id));
  }

  /** Deleting a room while two remain never crashes and leaves a coherent state. */
  lemma RemoveRoomKeepsCoherent(app: App, id: string)
    requires Coherent(app) && |app.rooms| >= 2
    ensures RemoveRoomConfirmed(app, id).Done?
    ensures Coherent(RemoveRoomConfirmed(app, id).next)
  {
    RemovalKeepsDistinct(app.rooms, id);
    RemovalDropsAtMostOne(app.rooms, id);
    Devices.RemoveKeepsPumpInSync(app.devices, app.tank, Devices.NotInRoom(id));
    var r := RemoveRoomConfirmed(app, id);
    if app.activeRoomId == id {
      assert r.next.rooms[0].id == r.next.activeRoomId;
    } else {
      RemovalKeepsOthers(app.rooms, id, app.activeRoomId);
    }
  }

  lemma ConfirmKeepsCoherent(app: App)
    requires Coherent(app)
    ensures PressConfirm(app).Done?
    ensures Coherent(PressConfirm(app).next)
  {
    var c := app.confirmation;
    if c.modal.isOpen && !ConfirmationModal.ConfirmDisabled(c.modal) {
      var cleared := app.(confirmation := c.(modal := c.modal.(input := "")));
      match c.onConfirm
      case NoAction =>
      case RemoveDevice(id) => RemoveDeviceKeepsCoherent(cleared, id);
      case RemoveRoom(id) => RemoveRoomKeepsCoherent(cleared, id);
    }
  }

  lemma AddRoomKeepsCoherent(app: App, freshId: string)
    requires Coherent(app) && !HasRoom(app.rooms, freshId)
    ensures Coherent(ConfirmAddRoom(app, freshId).next)
  {
    var r := ConfirmAddRoom(app, freshId);
    if !Strings.IsBlank(app.roomForm.name) {
      var j :| 0 <= j < |app.rooms| && app.rooms[j].id == app.activeRoomId;
      assert r.next.rooms[j] == app.rooms[j];
    }
  }

  lemma AddDeviceKeepsCoherent(app: App, freshId: string)
    requires Coherent(app)
    requires app.deviceForm.kind == Motor ==> Devices.FindPump(app.devices).None? && !app.tank.isMotorOn
    ensures Coherent(ConfirmAddDevice(app, freshId).next)
  {
    if !Strings.IsBlank(app.deviceForm.name) {
      Devices.AppendKeepsPumpInSync(app.devices, app.tank, NewDevice(app, freshId));
    }
  }

  /**
   The converse: `confirmAddDevice` has no guard of its own, and a MOTOR device added
   next to a pump, or while the tank reports the motor running, breaks coherence.
   */
  lemma AddDeviceBreaksCoherence(app: App, freshId: string)
    requires Coherent(app) && !Strings.IsBlank(app.deviceForm.name) && app.deviceForm.kind == Motor
    requires Devices.FindPump(app.devices).Some? || app.tank.isMotorOn
    ensures !Coherent(ConfirmAddDevice(app, freshId).next)
  {
    var d := NewDevice(app, freshId);
    var next := ConfirmAddDevice(app, freshId).next;
    assert next.devices == app.devices + [d];
    assert next.devices[|app.devices|] == d;
    if Devices.FindPump(app.devices).Some? {
      Seqs.CountAppend(app.devices, d, Devices.IsPump);
    }
  }

  /** Every admissible step from a coherent state completes and leads to a coherent state. */
  lemma StepKeepsCoherent(app: App, a: Action)
    requires Coherent(app) && Admissible(app, a)
    ensures Step(app, a).Done?
    ensures Coherent(Step(app, a).next)
  {
    match a
    case TimerTick(drain) => TickKeepsCoherent(app, drain);
    case ToggleDevice(id) => ToggleKeepsCoherent(app, id);
    case ChangeValue(id, value) => ChangeValueKeepsCoherent(app, id, value);
    case UpdateDevice(updated) => UpdateKeepsCoherent(app, updated);
    case PressMotorButton => MotorButtonKeepsCoherent(app);
    case PressModeButton =>
    case Sync(jitter) => SyncKeepsCoherent(app, jitter);
    case DeleteDevice(id) =>
    case DeleteRoom(id) =>
    case Confirm => ConfirmKeepsCoherent(app);
    case CloseDialog =>
    case TypeInDialog(text) =>
    case SelectRoom(id) =>
    case FillRoomForm(name, icon) =>
    case AddRoom(freshId) => AddRoomKeepsCoherent(app, freshId);
    case FillDeviceForm(name, kind) =>
    case AddDevice(freshId) => AddDeviceKeepsCoherent(app, freshId);
    case ChangeSettings(settings) =>
  }

  /** The state after a sequence of actions, or a crash. */
  function Run(app: App, actions: seq<Action>): Outcome
    decreases |actions|
  {
    if |actions| == 0 then Done(app, [])
    else
      var r := Step(app, actions[0]);
      if r.Crash? then Crash
      else
        var rest := Run(r.next, actions[1..]);
        if rest.Crash? then Crash else Done(rest.next, r.events + rest.events)
  }

  /**
   Each action admissible in the state it meets; nothing is asked of the actions
   after a crash, which `RunKeepsCoherent` shows cannot happen.
   */
  predicate AdmissibleRun(app: App, actions: seq<Action>)
    decreases |actions|
  {
    |actions| == 0 ||
    (Admissible(app, actions[0]) && (Step(app, actions[0]).Done? ==> AdmissibleRun(Step(app, actions[0]).next, actions[1..])))
  }

  lemma {:induction false} RunKeepsCoherent(app: App, actions: seq<Action>)
    requires Coherent(app) && AdmissibleRun(app, actions)
    ensures Run(app, actions).Done?
    ensures Coherent(Run(app, actions).next)
    decreases |actions|
  {
    if |actions| > 0 {
      StepKeepsCoherent(app, actions[0]);
      RunKeepsCoherent(Step(app, actions[0]).next, actions[1..]);
    }
  }

  // ---------------------------------------------------------------- the fixed pump id

  /** Where the pump still has the id "d4", the tick as written and the corrected tick agree. */
  lemma AsWrittenAgreesWhilePumpIsD4(app: App, drain: bool)
    requires Devices.FindPump(app.devices).Some? && Devices.FindPump(app.devices).value.id == PumpId
    ensures TankTickAsWritten(app, drain) == TankTick(app, drain)
  {
  }

  /** A device is a pump exactly when it has the id "d4", as in the initial device list. */
  predicate PumpNamedD4(devices: seq<Device>) {
    forall i :: 0 <= i < |devices| ==> (Devices.IsPump(devices[i]) <==> devices[i].id == PumpId)
  }

  /**
   The shape App.tsx keeps its store in: a device is a pump exactly when it is "d4",
   and the add-device form holds a LIGHT device, since nothing but the form's reset
   ever sets `newDeviceType`.
   */
  predicate SourceShaped(app: App) {
    PumpNamedD4(app.devices) && app.deviceForm.kind == Light
  }

  /**
   The actions App.tsx can produce: the add-device form is only ever filled with a
   LIGHT device, and a new device's id, "d" followed by `Date.now()`, is never "d4".
   */
  predicate SourceAction(a: Action) {
    && (a.FillDeviceForm? ==> a.kind == Light)
    && (a.AddDevice? ==> a.freshId != PumpId)
  }

  lemma InitialIsSourceShaped()
    ensures SourceShaped(Initial)
  {
  }

  /** A list whose ids and kinds are unchanged keeps pumps and "d4" together. */
  lemma SameIdsAndKinds(before: seq<Device>, after: seq<Device>)
    requires PumpNamedD4(before) && |after| == |before|
    requires forall i :: 0 <= i < |before| ==> after[i].id == before[i].id && after[i].kind == before[i].kind
    ensures PumpNamedD4(after)
  {
  }

  /** A list made of devices of a list in which pumps and "d4" go together keeps that. */
  lemma SubListKeepsD4(before: seq<Device>, after: seq<Device>)
    requires PumpNamedD4(before)
    requires forall i :: 0 <= i < |after| ==> after[i] in before
    ensures PumpNamedD4(after)
  {
  }

  lemma ToggleKeepsD4(app: App, id: string)
    requires PumpNamedD4(app.devices)
    ensures PumpNamedD4(ToggleDeviceUI(app, id).next.devices)
  {
  }

  lemma ConfirmKeepsD4(app: App)
    requires PumpNamedD4(app.devices)
    ensures PressConfirm(app).Done? ==> PumpNamedD4(PressConfirm(app).next.devices)
  {
  }

  lemma TickKeepsD4(app: App, drain: bool)
    requires PumpNamedD4(app.devices)
    ensures PumpNamedD4(TankTick(app, drain).next.devices)
  {
  }

  lemma MotorButtonKeepsD4(app: App)
    requires PumpNamedD4(app.devices)
    ensures PumpNamedD4(MotorButton(app).next.devices)
  {
  }

  lemma AddDeviceKeepsSourceShaped(app: App, freshId: string)
    requires SourceShaped(app) && freshId != PumpId
    ensures SourceShaped(ConfirmAddDevice(app, freshId).next)
  {
  }

  /** Every admissible step App.tsx can take keeps its store in that shape. */
  lemma StepKeepsSourceShaped(app: App, a: Action)
    requires SourceShaped(app) && Admissible(app, a) && SourceAction(a)
    ensures Step(app, a).Done? ==> SourceShaped(Step(app, a).next)
  {
    match a
    case TimerTick(drain) => TickKeepsD4(app, drain);
    case ToggleDevice(id) => ToggleKeepsD4(app, id);
    case ChangeValue(id, value) => SameIdsAndKinds(app.devices, ChangeDeviceValue(app, id, value).next.devices);
    case UpdateDevice(updated) => SameIdsAndKinds(app.devices, UpdateDeviceFromSettings(app, updated).next.devices);
    case PressMotorButton => MotorButtonKeepsD4(app);
    case PressModeButton =>
    case Sync(jitter) =>
    case DeleteDevice(id) =>
    case DeleteRoom(id) =>
    case Confirm => ConfirmKeepsD4(app);
    case CloseDialog =>
    case TypeInDialog(text) =>
    case SelectRoom(id) =>
    case FillRoomForm(name, icon) =>
    case AddRoom(freshId) =>
    case FillDeviceForm(name, kind) =>
    case AddDevice(freshId) => AddDeviceKeepsSourceShaped(app, freshId);
    case ChangeSettings(settings) =>
  }

  /**
   With every pump named "d4", the tick as written keeps a coherent store coherent:
   the fixed id only goes wrong once a pump with another id exists.
   */
  lemma AsWrittenTickKeepsCoherent(app: App, drain: bool)
    requires Coherent(app) && PumpNamedD4(app.devices)
    ensures Coherent(TankTickAsWritten(app, drain).next)
  {
    var pump := Devices.FindPump(app.devices);
    if pump.Some? {
      AsWrittenAgreesWhilePumpIsD4(app, drain);
      TickKeepsCoherent(app, drain);
    } else {
      var next := TankTickAsWritten(app, drain).next;
      assert forall i :: 0 <= i < |next.devices| ==> !Devices.IsPump(next.devices[i]);
    }
  }

  /**
   In the source shape the tick as written is the corrected tick: with a pump, the
   pump is "d4"; without one, no device is "d4", so neither tick switches a device.
   */
  lemma AsWrittenIsCorrectedInSourceShape(app: App, drain: bool)
    requires PumpNamedD4(app.devices)
    ensures TankTickAsWritten(app, drain) == TankTick(app, drain)
  {
    if Devices.FindPump(app.devices).Some? {
      AsWrittenAgreesWhilePumpIsD4(app, drain);
    } else {
      var r := TankTickAsWritten(app, drain);
      assert forall i :: 0 <= i < |app.devices| ==> app.devices[i].id != PumpId;
      assert r.next.devices == app.devices;
      assert r.events == TankStep(app, drain).events;
    }
  }

  /** One handler run with the tick wired as App.tsx writes it. */
  function StepAsWritten(app: App, a: Action): Outcome {
    if a.TimerTick? then TankTickAsWritten(app, a.drain) else Step(app, a)
  }

  /** The state after a sequence of actions with the tick as written, or a crash. */
  function RunAsWritten(app: App, actions: seq<Action>): Outcome
    decreases |actions|
  {
    if |actions| == 0 then Done(app, [])
    else
      var r := StepAsWritten(app, actions[0]);
      if r.Crash? then Crash
      else
        var rest := RunAsWritten(r.next, actions[1..]);
        if rest.Crash? then Crash else Done(rest.next, r.events + rest.events)
  }

  lemma StepAsWrittenInSourceShape(app: App, a: Action)
    requires PumpNamedD4(app.devices)
    ensures StepAsWritten(app, a) == Step(app, a)
  {
    if a.TimerTick? {
      AsWrittenIsCorrectedInSourceShape(app, a.drain);
    }
  }

  /**
   App.tsx's own runs: from a coherent store in its source shape, an admissible run of
   actions App.tsx can produce gives the same result with the tick as written as with
   the corrected tick, so it completes, stays coherent and stays in that shape.
   */
  lemma {:induction false} SourceRunsAsWrittenStayCoherent(app: App, actions: seq<Action>)
    requires Coherent(app) && SourceShaped(app) && AdmissibleRun(app, actions)
    requires forall k :: 0 <= k < |actions| ==> SourceAction(actions[k])
    ensures RunAsWritten(app, actions) == Run(app, actions)
    ensures Run(app, actions).Done? && Coherent(Run(app, actions).next) && SourceShaped(Run(app, actions).next)
    decreases |actions|
  {
    RunKeepsCoherent(app, actions);
    if |actions| > 0 {
      var a := actions[0];
      StepAsWrittenInSourceShape(app, a);
      StepKeepsSourceShaped(app, a);
      StepKeepsCoherent(app, a);
      assert forall k :: 0 <= k < |actions[1..]| ==> SourceAction(actions[1..][k]);
      SourceRunsAsWrittenStayCoherent(Step(app, a).next, actions[1..]);
    }
  }

  /** The initial state after "d4" is deleted and the deletion confirmed. */
  const WithoutPump: App := Initial.(
    devices := InitialDevices[..3],
    confirmation := Confirmation(ConfirmationModal.Modal(false, "Delete Device", DeleteDeviceMessage, false, ""), RemoveDevice(PumpId)))

  const NewPump: Device := Device("d5", "r1", Motor, "Pump", false, 50.0, false, Some("192.168.1.X"), 2)

  /** `WithoutPump` once a MOTOR device "Pump" is added as "d5". */
  const WithNewPump: App := WithoutPump.(devices := InitialDevices[..3] + [NewPump])

  /** `WithNewPump` with the low threshold raised to the current level. */
  const Replaced: App := WithNewPump.(settings := InitialSettings.(pumpLowThreshold := 65.0))

  lemma KeepWithoutPump()
    ensures Seqs.Keep(InitialDevices, Devices.NotDevice(PumpId)) == InitialDevices[..3]
  {
    var ds := InitialDevices;
    var p := Devices.NotDevice(PumpId);
    assert p(ds[0]) && p(ds[1]) && p(ds[2]) && !p(ds[3]);
    Seqs.KeepDropsLast(ds, p);
  }

  lemma DeletingInitialPump()
    ensures PressConfirm(RequestDeleteDevice(Initial, PumpId).next).Done?
    ensures PressConfirm(RequestDeleteDevice(Initial, PumpId).next).next == WithoutPump
    ensures Coherent(WithoutPump)
  {
    assert PressConfirm(RequestDeleteDevice(Initial, PumpId).next).next == WithoutPump by { KeepWithoutPump(); }
    InitialIsCoherent();
    ConfirmKeepsCoherent(RequestDeleteDevice(Initial, PumpId).next);
  }

  lemma AddingNewPump()
    ensures ConfirmAddDevice(WithoutPump.(deviceForm := DeviceForm(true, "Pump", Motor)), "d5").next == WithNewPump
  {
  }

  lemma NewPumpIsCoherent()
    requires Coherent(WithoutPump)
    ensures Coherent(WithNewPump)
  {
    var ds := WithoutPump.devices;
    assert !Devices.IsPump(ds[0]) && !Devices.IsPump(ds[1]) && !Devices.IsPump(ds[2]);
    Devices.AppendKeepsPumpInSync(ds, WithoutPump.tank, NewPump);
  }

  /**
   As written, whenever the tick changes the motor flag of a tank whose pump is not
   called "d4", the pump is left as it was: a pump that agreed with the tank before
   the tick disagrees after it.
   */
  lemma AsWrittenTickMissesRenamedPump(app: App, drain: bool, k: int)
    requires 0 <= k < |app.devices| && Devices.IsPump(app.devices[k]) && app.devices[k].id != PumpId
    requires Tank.Tick(app.tank, app.settings.pumpLowThreshold, app.settings.pumpHighThreshold, drain).pumpCommand.Some?
    ensures TankTickAsWritten(app, drain).next.devices[k] == app.devices[k]
    ensures TankTickAsWritten(app, drain).next.tank.isMotorOn != app.tank.isMotorOn
    ensures Devices.PumpInSync(app.devices, app.tank) ==>
      !Devices.PumpInSync(TankTickAsWritten(app, drain).next.devices, TankTickAsWritten(app, drain).next.tank)
  {
  }

  lemma ReplacedIsCoherent()
    ensures Coherent(Replaced)
  {
    DeletingInitialPump();
    NewPumpIsCoherent();
  }

  /**
   The dashboard after deleting "d4", confirming, adding a MOTOR device "Pump" as "d5",
   and raising the low threshold to the current level is `Replaced`, which is coherent.
   The next tick starts the motor. As written, the start goes to the missing "d4" and
   the new pump stays off while the tank reports it running; the corrected tick starts
   the new pump and stays coherent.
   */
  lemma AsWrittenTickLosesNewPump()
    ensures PressConfirm(RequestDeleteDevice(Initial, PumpId).next).Done?
    ensures var deleted := PressConfirm(RequestDeleteDevice(Initial, PumpId).next).next;
      ConfirmAddDevice(deleted.(deviceForm := DeviceForm(true, "Pump", Motor)), "d5").next
        .(settings := InitialSettings.(pumpLowThreshold := 65.0)) == Replaced
    ensures Coherent(Replaced)
    ensures !Devices.PumpInSync(TankTickAsWritten(Replaced, false).next.devices, TankTickAsWritten(Replaced, false).next.tank)
    ensures Coherent(TankTick(Replaced, false).next) && TankTick(Replaced, false).next.tank.isMotorOn
  {
    DeletingInitialPump();
    AddingNewPump();
    ReplacedIsCoherent();
    assert Tank.Tick(Replaced.tank, 65.0, 90.0, false).pumpCommand == Some(true);
    AsWrittenTickMissesRenamedPump(Replaced, false, 3);
    TickKeepsCoherent(Replaced, false);
  }
}

/**
 The updaters the dashboard applies to its device list (App.tsx:197-252):
 switching a device, which keeps the tank's motor flag in step when the
 device is the pump; changing a device's value; and replacing a device
 from the settings panel. Each returns the new list, the new tank state
 and the log entries it issues, in list order.
 */
module Devices {
  import opened Types
  import Seqs

  datatype Switched = Switched(devices: seq<Device>, tank: TankState, events: seq<Event>)

  predicate IsPump(d: Device) {
    d.kind == Motor
  }

  predicate HasId(d: Device, id: string) {
    d.id == id
  }

  /** Selects the devices with id `id`. */
  function WithId(id: string): Device -> bool {
    (d: Device) => HasId(d, id)
  }

  /** The state a switch leaves a device in: the forced state when one is given, else the opposite. */
  function SwitchedState(d: Device, force: Option<bool>): bool {
    if force.Some? then force.value else !d.isOn
  }

  function OnOff(on: bool): string {
    if on then "ON" else "OFF"
  }

  /** The log entry for a switch; turning the pump on is logged as an alert. */
  function SwitchLog(d: Device, on: bool): Event {
    Logged(d.name + " turned " + OnOff(on), if IsPump(d) && on then Alert else Info)
  }

  /**
   `toggleDeviceState(id, force)`: every device with id `id` takes its switched state,
   every other device is left as it was and where it was; if a switched device is the
   pump, the tank's motor flag follows it.
   */
  function ToggleDeviceState(devices: seq<Device>, tank: TankState, id: string, force: Option<bool>): (r: Switched)
    ensures |r.devices| == |devices|
    ensures forall i :: 0 <= i < |devices| ==>
      r.devices[i] == if devices[i].id == id then devices[i].(isOn := SwitchedState(devices[i], force)) else devices[i]
    ensures r.tank.level == tank.level && r.tank.mode == tank.mode
    decreases |devices|
  {
    if |devices| == 0 then Switched([], tank, [])
    else
      var d := devices[0];
      if d.id == id then
        var on := SwitchedState(d, force);
        var t := if IsPump(d) then tank.(isMotorOn := on) else tank;
        var rest := ToggleDeviceState(devices[1..], t, id, force);
        Switched([d.(isOn := on)] + rest.devices, rest.tank, [SwitchLog(d, on)] + rest.events)
      else
        var rest := ToggleDeviceState(devices[1..], tank, id, force);
        Switched([d] + rest.devices, rest.tank, rest.events)
  }

  /** A switch that addresses no pump leaves the tank as it was. */
  lemma {:induction false} ToggleWithoutPumpKeepsTank(devices: seq<Device>, tank: TankState, id: string, force: Option<bool>)
    requires forall i :: 0 <= i < |devices| && devices[i].id == id ==> !IsPump(devices[i])
    ensures ToggleDeviceState(devices, tank, id, force).tank == tank
    decreases |devices|
  {
    if |devices| > 0 {
      assert forall i :: 0 <= i < |devices| - 1 ==> devices[1..][i] == devices[i + 1];
      ToggleWithoutPumpKeepsTank(devices[1..], tank, id, force);
    }
  }

  /** A switch issues one log entry per device it switches. */
  lemma {:induction false} ToggleLogsEachSwitch(devices: seq<Device>, tank: TankState, id: string, force: Option<bool>)
    ensures |ToggleDeviceState(devices, tank, id, force).events| == Seqs.Count(devices, WithId(id))
    ensures forall e :: e in ToggleDeviceState(devices, tank, id, force).events ==> e.Logged?
    decreases |devices|
  {
    if |devices| > 0 {
      var d := devices[0];
      var t := if d.id == id && IsPump(d) then tank.(isMotorOn := SwitchedState(d, force)) else tank;
      ToggleLogsEachSwitch(devices[1..], t, id, force);
    }
  }

  /** With a single pump, switching it leaves the tank's motor flag equal to the pump's new state. */
  lemma {:induction false} ToggleFollowsPump(devices: seq<Device>, tank: TankState, id: string, force: Option<bool>, k: int)
    requires SinglePump(devices)
    requires 0 <= k < |devices| && devices[k].id == id && IsPump(devices[k])
    ensures ToggleDeviceState(devices, tank, id, force).tank.isMotorOn == SwitchedState(devices[k], force)
    decreases |devices|
  {
    var d := devices[0];
    if k == 0 {
      assert Seqs.Count(devices[1..], IsPump) == 0;
      var t := tank.(isMotorOn := SwitchedState(d, force));
      ToggleWithoutPumpKeepsTank(devices[1..], t, id, force);
    } else {
      if IsPump(d) {
        Seqs.CountAtMostOne(devices, IsPump, 0, k);
      }
      ToggleFollowsPump(devices[1..], tank, id, force, k - 1);
    }
  }

  /** Switching an id that exactly one device has logs that device's switch, and nothing else. */
  lemma {:induction false} ToggleUniqueLogsOnce(devices: seq<Device>, tank: TankState, id: string, force: Option<bool>, k: int)
    requires 0 <= k < |devices| && devices[k].id == id
    requires forall i :: 0 <= i < |devices| && i != k ==> devices[i].id != id
    ensures ToggleDeviceState(devices, tank, id, force).events == [SwitchLog(devices[k], SwitchedState(devices[k], force))]
    decreases |devices|
  {
    var d := devices[0];
    if k == 0 {
      var on := SwitchedState(d, force);
      var t := if IsPump(d) then tank.(isMotorOn := on) else tank;
      ToggleLogsEachSwitch(devices[1..], t, id, force);
      assert Seqs.Count(devices[1..], WithId(id)) == 0;
    } else {
      ToggleUniqueLogsOnce(devices[1..], tank, id, force, k - 1);
    }
  }

  /** Forcing the pump to the state the tank's motor flag already has leaves the tank as it was. */
  lemma {:induction false} ForcedToggleKeepsTank(devices: seq<Device>, tank: TankState, id: string)
    ensures ToggleDeviceState(devices, tank, id, Some(tank.isMotorOn)).tank == tank
    decreases |devices|
  {
    if |devices| > 0 {
      ForcedToggleKeepsTank(devices[1..], tank, id);
    }
  }

  /** Switching the same id twice without forcing gives back the original list. */
  lemma ToggleTwiceRestores(devices: seq<Device>, tank: TankState, id: string)
    ensures var once := ToggleDeviceState(devices, tank, id, None);
      ToggleDeviceState(once.devices, once.tank, id, None).devices == devices
  {
  }

  /** The list after `handleDeviceValueChange` has passed its guard: only the value of devices with id `id` changes. */
  function SetValue(devices: seq<Device>, id: string, value: real): (r: seq<Device>)
    ensures |r| == |devices|
    ensures forall i :: 0 <= i < |devices| ==>
      r[i] == if devices[i].id == id then devices[i].(value := value) else devices[i]
    decreases |devices|
  {
    if |devices| == 0 then []
    else
      var d := devices[0];
      [if d.id == id then d.(value := value) else d] + SetValue(devices[1..], id, value)
  }

  /**
   `handleUpdateDevice`: each device with the updated device's id is replaced by it,
   with a log entry when that switches it; when the replaced device is the pump and it
   is switched, the tank's motor flag follows.
   */
  function UpdateDevice(devices: seq<Device>, tank: TankState, updated: Device): (r: Switched)
    ensures |r.devices| == |devices|
    ensures forall i :: 0 <= i < |devices| ==>
      r.devices[i] == if devices[i].id == updated.id then updated else devices[i]
    ensures r.tank.level == tank.level && r.tank.mode == tank.mode
    decreases |devices|
  {
    if |devices| == 0 then Switched([], tank, [])
    else
      var d := devices[0];
      if d.id == updated.id then
        var switched := d.isOn != updated.isOn;
        var t := if IsPump(d) && switched then tank.(isMotorOn := updated.isOn) else tank;
        var log := if switched then [Logged(updated.name + " manually switched " + OnOff(updated.isOn) + " from settings", Info)] else [];
        var rest := UpdateDevice(devices[1..], t, updated);
        Switched([updated] + rest.devices, rest.tank, log + rest.events)
      else
        var rest := UpdateDevice(devices[1..], tank, updated);
        Switched([d] + rest.devices, rest.tank, rest.events)
  }

  /** Some device the update replaces is a pump whose on/off state it changes. */
  predicate SwitchesPump(devices: seq<Device>, updated: Device) {
    exists i :: 0 <= i < |devices| && devices[i].id == updated.id && IsPump(devices[i]) && devices[i].isOn != updated.isOn
  }

  /** The tank after an update: its motor flag takes the update's state exactly when the update switches a pump. */
  lemma {:induction false} UpdateTank(devices: seq<Device>, tank: TankState, updated: Device)
    ensures UpdateDevice(devices, tank, updated).tank ==
      if SwitchesPump(devices, updated) then tank.(isMotorOn := updated.isOn) else tank
    decreases |devices|
  {
    if |devices| > 0 {
      var d := devices[0];
      var tail := devices[1..];
      var here := d.id == updated.id && IsPump(d) && d.isOn != updated.isOn;
      assert SwitchesPump(devices, updated) <==> here || SwitchesPump(tail, updated) by {
        if SwitchesPump(tail, updated) {
          var i :| 0 <= i < |tail| && tail[i].id == updated.id && IsPump(tail[i]) && tail[i].isOn != updated.isOn;
          assert devices[i + 1] == tail[i];
        }
        if SwitchesPump(devices, updated) && !here {
          var i :| 0 <= i < |devices| && devices[i].id == updated.id && IsPump(devices[i]) && devices[i].isOn != updated.isOn;
          assert tail[i - 1] == devices[i];
        }
      }
      var t := if here then tank.(isMotorOn := updated.isOn) else tank;
      UpdateTank(tail, t, updated);
    }
  }

  /** An update issues one log entry per device whose on/off state it changes. */
  lemma {:induction false} UpdateLogsEachSwitch(devices: seq<Device>, tank: TankState, updated: Device)
    ensures |UpdateDevice(devices, tank, updated).events|
         == Seqs.Count(devices, (d: Device) => HasId(d, updated.id) && d.isOn != updated.isOn)
    ensures forall e :: e in UpdateDevice(devices, tank, updated).events ==> e.Logged?
    decreases |devices|
  {
    if |devices| > 0 {
      var d := devices[0];
      var t := if d.id == updated.id && IsPump(d) && d.isOn != updated.isOn then tank.(isMotorOn := updated.isOn) else tank;
      UpdateLogsEachSwitch(devices[1..], t, updated);
    }
  }

  /** Updating an id that exactly one device has logs that device's switch, if the update switches it, and nothing else. */
  lemma {:induction false} UpdateUniqueLogsOnce(devices: seq<Device>, tank: TankState, updated: Device, k: int)
    requires 0 <= k < |devices| && devices[k].id == updated.id
    requires forall i :: 0 <= i < |devices| && i != k ==> devices[i].id != updated.id
    ensures UpdateDevice(devices, tank, updated).events ==
      if devices[k].isOn != updated.isOn
      then [Logged(updated.name + " manually switched " + OnOff(updated.isOn) + " from settings", Info)]
      else []
    decreases |devices|
  {
    var d := devices[0];
    if k == 0 {
      var t := if IsPump(d) && d.isOn != updated.isOn then tank.(isMotorOn := updated.isOn) else tank;
      UpdateLogsEachSwitch(devices[1..], t, updated);
      assert Seqs.Count(devices[1..], (d: Device) => HasId(d, updated.id) && d.isOn != updated.isOn) == 0;
    } else {
      UpdateUniqueLogsOnce(devices[1..], tank, updated, k - 1);
    }
  }

  /** The first device with id `id`, as `devices.find(d => d.id === id)`. */
  function FindById(devices: seq<Device>, id: string): (r: Option<Device>)
    ensures r.None? <==> forall i :: 0 <= i < |devices| ==> devices[i].id != id
    ensures r.Some? ==> exists i :: 0 <= i < |devices| && devices[i] == r.value && devices[i].id == id
                          && forall j :: 0 <= j < i ==> devices[j].id != id
    decreases |devices|
  {
    if |devices| == 0 then None
    else if devices[0].id == id then Some(devices[0])
    else
      var r := FindById(devices[1..], id);
      if r.Some? then
        var i :| 1 <= i < |devices| && devices[i] == r.value && devices[i].id == id
                 && forall j :: 1 <= j < i ==> devices[j].id != id;
        r
      else r
  }

  /** The first MOTOR device, as `devices.find(d => d.type === DeviceType.MOTOR)`: the pump. */
  function FindPump(devices: seq<Device>): (r: Option<Device>)
    ensures r.None? <==> forall i :: 0 <= i < |devices| ==> !IsPump(devices[i])
    ensures r.Some? ==> exists i :: 0 <= i < |devices| && devices[i] == r.value && IsPump(r.value)
                          && forall j :: 0 <= j < i ==> !IsPump(devices[j])
    decreases |devices|
  {
    if |devices| == 0 then None
    else if IsPump(devices[0]) then Some(devices[0])
    else
      var r := FindPump(devices[1..]);
      if r.Some? then
        var i :| 1 <= i < |devices| && devices[i] == r.value && IsPump(r.value)
                 && forall j :: 1 <= j < i ==> !IsPump(devices[j]);
        r
      else r
  }

  /** The list holds at most one pump, the assumption the tank simulation rests on. */
  predicate SinglePump(devices: seq<Device>) {
    Seqs.Count(devices, IsPump) <= 1
  }

  /** The tank's motor flag mirrors the on/off state of the pump device, if there is one. */
  predicate PumpInSync(devices: seq<Device>, tank: TankState) {
    forall i :: 0 <= i < |devices| && IsPump(devices[i]) ==> devices[i].isOn == tank.isMotorOn
  }

  /** Keeps the devices whose id is not `id`. */
  function NotDevice(id: string): Device -> bool {
    (d: Device) => d.id != id
  }

  /** Keeps the devices that are not in room `roomId`. */
  function NotInRoom(roomId: string): Device -> bool {
    (d: Device) => d.roomId != roomId
  }

  /**
   A switch keeps the tank's motor flag mirroring the single pump: either they agreed
   before, or the switch addresses the pump itself and so sets both.
   */
  lemma ToggleKeepsPumpInSync(devices: seq<Device>, tank: TankState, id: string, force: Option<bool>)
    requires SinglePump(devices)
    requires PumpInSync(devices, tank) || exists k :: 0 <= k < |devices| && devices[k].id == id && IsPump(devices[k])
    ensures SinglePump(ToggleDeviceState(devices, tank, id, force).devices)
    ensures PumpInSync(ToggleDeviceState(devices, tank, id, force).devices, ToggleDeviceState(devices, tank, id, force).tank)
  {
    var r := ToggleDeviceState(devices, tank, id, force);
    Seqs.CountPointwise(devices, r.devices, IsPump);
    forall i | 0 <= i < |r.devices| && IsPump(r.devices[i])
      ensures r.devices[i].isOn == r.tank.isMotorOn
    {
      if devices[i].id == id {
        ToggleFollowsPump(devices, tank, id, force, i);
      } else {
        forall j | 0 <= j < |devices| && devices[j].id == id
          ensures !IsPump(devices[j])
        {
          if IsPump(devices[j]) {
            Seqs.CountAtMostOne(devices, IsPump, i, j);
          }
        }
        ToggleWithoutPumpKeepsTank(devices, tank, id, force);
      }
    }
  }

  /** Replacing a device by one of the same kind keeps the tank's motor flag mirroring the single pump. */
  lemma UpdateKeepsPumpInSync(devices: seq<Device>, tank: TankState, updated: Device)
    requires SinglePump(devices) && PumpInSync(devices, tank)
    requires forall i :: 0 <= i < |devices| && devices[i].id == updated.id ==> devices[i].kind == updated.kind
    ensures SinglePump(UpdateDevice(devices, tank, updated).devices)
    ensures PumpInSync(UpdateDevice(devices, tank, updated).devices, UpdateDevice(devices, tank, updated).tank)
  {
    var r := UpdateDevice(devices, tank, updated);
    Seqs.CountPointwise(devices, r.devices, IsPump);
    UpdateTank(devices, tank, updated);
    forall i | 0 <= i < |r.devices| && IsPump(r.devices[i])
      ensures r.devices[i].isOn == r.tank.isMotorOn
    {
      forall j | 0 <= j < |devices| && devices[j].id == updated.id && IsPump(devices[j])
        ensures j == i
      {
        Seqs.CountAtMostOne(devices, IsPump, i, j);
      }
    }
  }

  /** Removing devices keeps at most one pump, and the survivors still mirror the tank. */
  lemma RemoveKeepsPumpInSync(devices: seq<Device>, tank: TankState, p: Device -> bool)
    requires SinglePump(devices) && PumpInSync(devices, tank)
    ensures SinglePump(Seqs.Keep(devices, p)) && PumpInSync(Seqs.Keep(devices, p), tank)
  {
    Seqs.KeepCount(devices, p, IsPump);
  }

  /** Appending a device keeps the invariants unless it is a second pump or a pump that disagrees with the tank. */
  lemma AppendKeepsPumpInSync(devices: seq<Device>, tank: TankState, d: Device)
    requires SinglePump(devices) && PumpInSync(devices, tank)
    requires IsPump(d) ==> (forall i :: 0 <= i < |devices| ==> !IsPump(devices[i])) && d.isOn == tank.isMotorOn
    ensures SinglePump(devices + [d]) && PumpInSync(devices + [d], tank)
  {
    Seqs.CountAppend(devices, d, IsPump);
  }
}

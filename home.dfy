/** The home (smart_home/home.py): a list of distinct room names and a
    dictionary from device identifier to the device object and the name of
    the room it was placed in. Lookups, duplicates and unknown rooms raise
    `ValueError`. */
module Homes {
  import opened Basics
  import opened Sequences

  /** The value `{'object': ..., 'room': ...}` stored per device. */
  datatype Placement<T> = Placement(obj: T, room: string)

  predicate Covers<T>(order: seq<string>, devices: map<string, Placement<T>>) {
    forall i :: 0 <= i < |order| ==> order[i] in devices
  }

  /** The identifiers, in `order`, of the devices placed in `room`. */
  function InRoom<T>(order: seq<string>, devices: map<string, Placement<T>>, room: string): (r: seq<string>)
    requires Covers(order, devices)
    ensures |r| <= |order|
  {
    if order == [] then []
    else
      var rest := InRoom(order[..|order| - 1], devices, room);
      var id := order[|order| - 1];
      if devices[id].room == room then rest + [id] else rest
  }

  /** The listing holds exactly the identifiers placed in `room`, each once
      when the identifiers are distinct. */
  lemma {:induction false} InRoomExactly<T>(order: seq<string>, devices: map<string, Placement<T>>, room: string)
    requires Covers(order, devices)
    ensures forall id :: id in InRoom(order, devices, room) <==> id in order && devices[id].room == room
    ensures Distinct(order) ==> Distinct(InRoom(order, devices, room))
  {
    if order != [] {
      var n := |order|;
      var front := order[..n - 1];
      InRoomExactly(front, devices, room);
      assert order == front + [order[n - 1]];
    }
  }

  /** Over distinct identifiers that are exactly the keys, the listing has
      one entry per device placed in `room`. */
  lemma InRoomCount<T>(order: seq<string>, devices: map<string, Placement<T>>, room: string)
    requires Covers(order, devices) && Distinct(order)
    requires forall id :: id in devices <==> id in order
    ensures |InRoom(order, devices, room)| == |set id | id in devices && devices[id].room == room|
  {
    InRoomExactly(order, devices, room);
    DistinctSize(InRoom(order, devices, room), set id | id in devices && devices[id].room == room);
  }

  /** The per-room counts of a list of rooms, added up. */
  function CountsSum<T>(order: seq<string>, devices: map<string, Placement<T>>, rooms: seq<string>): nat
    requires Covers(order, devices)
  {
    if rooms == [] then 0
    else |InRoom(order, devices, rooms[0])| + CountsSum(order, devices, rooms[1..])
  }

  lemma {:induction false} CountsSumStep<T>(order: seq<string>, devices: map<string, Placement<T>>, rooms: seq<string>)
    requires Covers(order, devices) && order != [] && Distinct(rooms)
    ensures CountsSum(order, devices, rooms) ==
      CountsSum(order[..|order| - 1], devices, rooms) + (if devices[order[|order| - 1]].room in rooms then 1 else 0)
  {
    if rooms != [] {
      CountsSumStep(order, devices, rooms[1..]);
    }
  }

  lemma {:induction false} CountsSumEmpty<T>(devices: map<string, Placement<T>>, rooms: seq<string>)
    ensures CountsSum([], devices, rooms) == 0
  {
    if rooms != [] {
      CountsSumEmpty(devices, rooms[1..]);
    }
  }

  /** When every device sits in one of the (distinct) rooms, the per-room
      counts add up to the number of devices. */
  lemma {:induction false} CountsAddUp<T>(order: seq<string>, devices: map<string, Placement<T>>, rooms: seq<string>)
    requires Covers(order, devices) && Distinct(rooms)
    requires forall i :: 0 <= i < |order| ==> devices[order[i]].room in rooms
    ensures CountsSum(order, devices, rooms) == |order|
  {
    if order == [] {
      CountsSumEmpty(devices, rooms);
    } else {
      CountsSumStep(order, devices, rooms);
      CountsAddUp(order[..|order| - 1], devices, rooms);
    }
  }

  class Home<T> {
    /** Room names, in the order they were added. */
    var rooms: seq<string>
    /** The keys of the `_devices` dictionary, in insertion order. */
    var order: seq<string>
    var devices: map<string, Placement<T>>

    /** Room names are distinct, the order lists each key once, and every
        device's room is a known room. */
    ghost predicate Valid()
      reads this
    {
      && Distinct(rooms) && Distinct(order)
      && (forall id :: id in devices <==> id in order)
      && (forall id :: id in devices ==> devices[id].room in rooms)
    }

    constructor ()
      ensures rooms == [] && order == [] && devices == map[] && Valid()
    {
      rooms, order, devices := [], [], map[];
    }

    method AddRoom(roomName: string) returns (out: Outcome)
      requires Valid()
      modifies this`rooms
      ensures Valid()
      ensures out == if roomName in old(rooms) then Raised(ValueError) else Done
      ensures rooms == if out.Done? then old(rooms) + [roomName] else old(rooms)
    {
      if roomName in rooms {
        return Raised(ValueError);
      }
      rooms := rooms + [roomName];
      out := Done;
    }

    /** An unknown room is reported before a duplicate identifier. */
    method AddDevice(deviceId: string, deviceObject: T, room: string) returns (out: Outcome)
      requires Valid()
      modifies this`order, this`devices
      ensures Valid()
      ensures out == if room !in rooms || deviceId in old(devices) then Raised(ValueError) else Done
      ensures out.Raised? ==> order == old(order) && devices == old(devices)
      ensures out.Done? ==>
        order == old(order) + [deviceId] && devices == old(devices)[deviceId := Placement(deviceObject, room)]
      ensures out.Done? ==> GetDeviceObject(deviceId) == Ok(deviceObject) && GetDeviceLocation(deviceId) == Ok(room)
    {
      if room !in rooms {
        return Raised(ValueError);
      }
      if deviceId in devices {
        return Raised(ValueError);
      }
      devices := devices[deviceId := Placement(deviceObject, room)];
      order := order + [deviceId];
      out := Done;
    }

    method RemoveDevice(deviceId: string) returns (out: Outcome)
      requires Valid()
      modifies this`order, this`devices
      ensures Valid()
      ensures out == if deviceId in old(devices) then Done else Raised(ValueError)
      ensures out.Raised? ==> order == old(order) && devices == old(devices)
      ensures out.Done? ==> order == RemoveFirst(old(order), deviceId) && devices == old(devices) - {deviceId}
      ensures GetDeviceObject(deviceId).Err? && GetDeviceLocation(deviceId).Err?
      ensures forall x :: x != deviceId ==> GetDeviceObject(x) == old(GetDeviceObject(x))
    {
      if deviceId !in devices {
        return Raised(ValueError);
      }
      RemoveFirstOfDistinct(order, deviceId);
      devices := devices - {deviceId};
      order := RemoveFirst(order, deviceId);
      out := Done;
    }

    function GetDeviceLocation(deviceId: string): (r: Result<string>)
      reads this
      requires Valid()
      ensures r.Ok? <==> deviceId in devices
      ensures r.Ok? ==> r.value == devices[deviceId].room && r.value in rooms
      ensures r.Err? ==> r.error == ValueError
    {
      if deviceId !in devices then Err(ValueError) else Ok(devices[deviceId].room)
    }

    function GetDeviceObject(deviceId: string): (r: Result<T>)
      reads this
      ensures r.Ok? <==> deviceId in devices
      ensures r.Ok? ==> r.value == devices[deviceId].obj
      ensures r.Err? ==> r.error == ValueError
    {
      if deviceId !in devices then Err(ValueError) else Ok(devices[deviceId].obj)
    }

    /** `len(self._devices)`: one per listed identifier. */
    function CountDevices(): (n: nat)
      reads this
      requires Valid()
      ensures n == |devices| == |order|
    {
      DistinctSize(order, devices.Keys);
      |devices|
    }

    method CountDevicesByRoom(roomName: string) returns (count: nat)
      requires Valid()
      ensures count == |InRoom(order, devices, roomName)|
      ensures count == |set id | id in devices && devices[id].room == roomName|
    {
      count := 0;
      var i := 0;
      while i < |order|
        invariant 0 <= i <= |order|
        invariant count == |InRoom(order[..i], devices, roomName)|
      {
        assert order[..i + 1][..i] == order[..i];
        if devices[order[i]].room == roomName {
          count := count + 1;
        }
        i := i + 1;
      }
      assert order[..i] == order;
      InRoomCount(order, devices, roomName);
    }

    method GetDevicesInRoom(roomName: string) returns (ids: seq<string>)
      requires Valid()
      ensures ids == InRoom(order, devices, roomName)
      ensures forall id :: id in ids <==> id in devices && devices[id].room == roomName
    {
      ids := [];
      var i := 0;
      while i < |order|
        invariant 0 <= i <= |order|
        invariant ids == InRoom(order[..i], devices, roomName)
      {
        assert order[..i + 1][..i] == order[..i];
        if devices[order[i]].room == roomName {
          ids := ids + [order[i]];
        }
        i := i + 1;
      }
      assert order[..i] == order;
      InRoomExactly(order, devices, roomName);
    }
  }
}

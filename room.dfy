/** A named room holding devices keyed by identifier, in insertion order
    (smart_home/room.py). Adding a device whose identifier is already present
    raises `ValueError`; decoding skips records of unknown type. */
module Rooms {
  import opened Basics
  import opened Sequences
  import opened Devices

  /** The dictionary `to_dict` returns. */
  datatype RoomRecord = RoomRecord(name: string, devices: seq<DeviceRecord>)

  /** One entry of the `devices` list that `from_dict` reads: its `type`
      (absent when the key is missing) and the device the class registered for
      that type decodes from it. */
  datatype DeviceData = DeviceData(kind: Option<string>, decoded: Device)

  /** The dictionary `from_dict` reads: `name` may be missing, and a missing
      `devices` list reads as empty. */
  datatype RoomData = RoomData(name: Option<string>, devices: Option<seq<DeviceData>>)

  /** The records `from_dict` adds, in order: those whose type is registered. */
  function Known(records: seq<DeviceData>, deviceClasses: set<string>): (r: seq<DeviceData>)
    ensures |r| <= |records|
    ensures forall i :: 0 <= i < |r| ==> r[i].kind.Some? && r[i].kind.value in deviceClasses
  {
    if records == [] then []
    else
      var rest := Known(records[..|records| - 1], deviceClasses);
      var d := records[|records| - 1];
      if d.kind.Some? && d.kind.value in deviceClasses then rest + [d] else rest
  }

  class Room {
    const name: string
    /** The keys of the `_devices` dictionary, in insertion order. */
    var ids: seq<string>
    var devices: map<string, Device>

    ghost predicate Valid()
      reads this
    {
      name != "" && Distinct(ids) && forall id :: id in devices <==> id in ids
    }

    constructor (name: string)
      requires name != ""
      ensures this.name == name && ids == [] && devices == map[] && Valid()
    {
      this.name := name;
      ids := [];
      devices := map[];
    }

    /** `Room(name)`: an empty name raises `ValueError`. */
    static method Create(name: string) returns (room: Room?, out: Outcome)
      ensures out == if name == "" then Raised(ValueError) else Done
      ensures out.Done? ==> room != null && fresh(room) && room.name == name && room.ids == [] && room.Valid()
      ensures out.Raised? ==> room == null
    {
      if name == "" {
        room, out := null, Raised(ValueError);
      } else {
        room := new Room(name);
        out := Done;
      }
    }

    /** The `devices` property: the stored devices in insertion order. */
    function Devices(): (r: seq<Device>)
      reads this
      requires Valid()
      ensures |r| == |ids|
      ensures forall i :: 0 <= i < |ids| ==> r[i] == devices[ids[i]]
    {
      seq(|ids|, i requires 0 <= i < |ids| && ids[i] in devices reads this => devices[ids[i]])
    }

    function GetDeviceById(id: string): (r: Option<Device>)
      reads this
      ensures r.Some? <==> id in devices
      ensures r.Some? ==> r.value == devices[id]
    {
      if id in devices then Some(devices[id]) else None
    }

    /** A duplicate identifier raises and changes nothing; otherwise the
        device is stored under its identifier, after all earlier ones. */
    method AddDevice(device: Device) returns (out: Outcome)
      requires Valid()
      modifies this`ids, this`devices
      ensures Valid()
      ensures out == if device.id in old(devices) then Raised(ValueError) else Done
      ensures out.Raised? ==> ids == old(ids) && devices == old(devices)
      ensures out.Done? ==> ids == old(ids) + [device.id] && devices == old(devices)[device.id := device]
      ensures out.Done? ==> GetDeviceById(device.id) == Some(device)
      ensures forall x :: x != device.id ==> GetDeviceById(x) == old(GetDeviceById(x))
      ensures out.Done? ==> Devices() == old(Devices()) + [device]
      ensures out.Done? ==> ToDict().devices == old(ToDict().devices) + [device.ToDict()]
    {
      if device.id in devices {
        return Raised(ValueError);
      }
      devices := devices[device.id := device];
      ids := ids + [device.id];
      out := Done;
    }

    /** The room's name and one record per device, in `devices` order. */
    function ToDict(): (r: RoomRecord)
      reads this, devices.Values
      requires Valid()
      ensures r.name == name && |r.devices| == |ids|
      ensures forall i :: 0 <= i < |ids| ==> r.devices[i] == devices[ids[i]].ToDict()
    {
      RoomRecord(name, seq(|ids|, i requires 0 <= i < |ids| && ids[i] in devices
                                   reads this, devices.Values => devices[ids[i]].ToDict()))
    }

    /** The room holds exactly the devices `kept`, in that order. */
    ghost predicate HoldsExactly(kept: seq<DeviceData>)
      reads this, (set i | 0 <= i < |kept| :: kept[i].decoded)`id
    {
      Holds(ids, devices, kept)
    }

    /** The loop of `from_dict` over the device records. */
    method AddKnown(records: seq<DeviceData>, deviceClasses: set<string>) returns (out: Outcome)
      requires Valid() && ids == []
      modifies this`ids, this`devices
      ensures Valid()
      ensures out.Done? ==> HoldsExactly(Known(records, deviceClasses))
      ensures out.Done? ==> UniqueIds(Known(records, deviceClasses))
      ensures out.Raised? ==> out.error == ValueError && !UniqueIds(Known(records, deviceClasses))
    {
      var i := 0;
      out := Done;
      while i < |records|
        invariant 0 <= i <= |records|
        invariant Valid()
        invariant HoldsExactly(Known(records[..i], deviceClasses))
        invariant UniqueIds(Known(records[..i], deviceClasses))
        invariant out == Done
      {
        out := AddRecord(records, deviceClasses, i);
        if out.Raised? {
          return;
        }
        i := i + 1;
      }
      assert records[..i] == records;
    }

    /** One step of the `from_dict` loop: the record at `i` is added when its
        type is registered, and skipped otherwise. */
    method AddRecord(records: seq<DeviceData>, deviceClasses: set<string>, i: nat) returns (out: Outcome)
      requires Valid() && i < |records|
      requires HoldsExactly(Known(records[..i], deviceClasses))
      requires UniqueIds(Known(records[..i], deviceClasses))
      modifies this`ids, this`devices
      ensures Valid()
      ensures out.Done? ==> HoldsExactly(Known(records[..i + 1], deviceClasses))
      ensures out.Done? ==> UniqueIds(Known(records[..i + 1], deviceClasses))
      ensures out.Raised? ==> out.error == ValueError && !UniqueIds(Known(records, deviceClasses))
    {
      out := Done;
      var d := records[i];
      ghost var kept := Known(records[..i], deviceClasses);
      ghost var next := Known(records[..i + 1], deviceClasses);
      KnownStep(records, deviceClasses, i);
      if d.kind.Some? && d.kind.value in deviceClasses {
        assert next == kept + [d];
        if d.decoded.id !in devices {
          HoldsAppend(ids, devices, kept, d);
        }
        out := AddDevice(d.decoded);
        if out.Raised? {
          HeldRepeat(ids, devices, records, deviceClasses, i);
          return;
        }
        assert Holds(ids, devices, next);
      } else {
        assert next == kept;
      }
    }
  }

  /** Keys `ids` and table `devices` hold exactly the devices `kept`, in
      that order. */
  ghost predicate Holds(ids: seq<string>, devices: map<string, Device>, kept: seq<DeviceData>)
    reads (set i | 0 <= i < |kept| :: kept[i].decoded)`id
  {
    && |ids| == |kept|
    && forall i :: 0 <= i < |kept| ==>
         ids[i] == kept[i].decoded.id && ids[i] in devices && devices[ids[i]] == kept[i].decoded
  }

  /** Storing a device with a new identifier extends what is held by it,
      and keeps the held identifiers unique. */
  lemma HoldsAppend(ids: seq<string>, devices: map<string, Device>, kept: seq<DeviceData>, d: DeviceData)
    requires Holds(ids, devices, kept) && UniqueIds(kept) && d.decoded.id !in devices
    ensures Holds(ids + [d.decoded.id], devices[d.decoded.id := d.decoded], kept + [d])
    ensures UniqueIds(kept + [d])
  {
    var k := kept + [d];
    forall i, j | 0 <= i < j < |k|
      ensures k[i].decoded.id != k[j].decoded.id
    {
      if j == |kept| {
        assert ids[i] in devices;
      }
    }
  }

  /** Decoding one more record keeps it exactly when its type is
      registered. */
  lemma KnownStep(records: seq<DeviceData>, deviceClasses: set<string>, i: nat)
    requires i < |records|
    ensures var d := records[i];
      Known(records[..i + 1], deviceClasses) ==
        if d.kind.Some? && d.kind.value in deviceClasses
        then Known(records[..i], deviceClasses) + [d]
        else Known(records[..i], deviceClasses)
  {
    assert records[..i + 1][..i] == records[..i];
  }

  /** A kept record whose identifier is already held makes the whole list
      of kept records non-unique. */
  lemma HeldRepeat(ids: seq<string>, devices: map<string, Device>, records: seq<DeviceData>,
                   deviceClasses: set<string>, i: nat)
    requires i < |records|
    requires records[i].kind.Some? && records[i].kind.value in deviceClasses
    requires Holds(ids, devices, Known(records[..i], deviceClasses))
    requires forall id :: id in devices <==> id in ids
    requires records[i].decoded.id in devices
    ensures !UniqueIds(Known(records, deviceClasses))
  {
    var a :| 0 <= a < |ids| && ids[a] == records[i].decoded.id;
    RepeatSpreads(records, deviceClasses, i, a);
  }

  /** No two devices in `kept` share an identifier. */
  ghost predicate UniqueIds(kept: seq<DeviceData>)
    reads (set i | 0 <= i < |kept| :: kept[i].decoded)`id
  {
    forall i, j :: 0 <= i < j < |kept| ==> kept[i].decoded.id != kept[j].decoded.id
  }

  /** `Room.from_dict`: a missing name raises `KeyError` and an empty one
      `ValueError`; then each record of a registered type is added in order,
      records of other types are skipped, and a repeated identifier among the
      added ones raises `ValueError` out of `add_device`. */
  method FromDict(data: RoomData, deviceClasses: set<string>) returns (room: Room?, out: Outcome)
    ensures data.name.None? ==> out == Raised(KeyError)
    ensures data.name == Some("") ==> out == Raised(ValueError)
    ensures out.Raised? ==> room == null
    ensures data.name.Some? && data.name.value != "" ==>
      var kept := Known(if data.devices.Some? then data.devices.value else [], deviceClasses);
      && (out.Done? <==> UniqueIds(kept))
      && (out.Raised? ==> out.error == ValueError)
      && (out.Done? ==> room != null && fresh(room) && room.Valid() && room.name == data.name.value
                        && room.HoldsExactly(kept))
  {
    if data.name.None? {
      return null, Raised(KeyError);
    }
    room, out := Room.Create(data.name.value);
    if out.Raised? {
      return;
    }
    var records := if data.devices.Some? then data.devices.value else [];
    out := room.AddKnown(records, deviceClasses);
    if out.Raised? {
      room := null;
    }
  }

  /** A kept record whose identifier repeats an earlier kept one makes the
      whole list of kept records non-unique. */
  lemma RepeatSpreads(records: seq<DeviceData>, deviceClasses: set<string>, i: nat, a: nat)
    requires i < |records|
    requires records[i].kind.Some? && records[i].kind.value in deviceClasses
    requires a < |Known(records[..i], deviceClasses)|
    requires Known(records[..i], deviceClasses)[a].decoded.id == records[i].decoded.id
    ensures !UniqueIds(Known(records, deviceClasses))
  {
    var kept := Known(records[..i], deviceClasses);
    assert records[..i + 1][..i] == records[..i];
    assert Known(records[..i + 1], deviceClasses) == kept + [records[i]];
    KnownPrefix(records, deviceClasses, i + 1);
    var all := Known(records, deviceClasses);
    assert all[a] == kept[a] && all[|kept|] == records[i];
  }

  /** Decoding a prefix of the records keeps a prefix of what decoding all
      of them keeps. */
  lemma {:induction false} KnownPrefix(records: seq<DeviceData>, deviceClasses: set<string>, k: nat)
    requires k <= |records|
    ensures Known(records[..k], deviceClasses) <= Known(records, deviceClasses)
    decreases |records| - k
  {
    if k < |records| {
      var n := |records|;
      KnownPrefix(records[..n - 1], deviceClasses, k);
      assert records[..n - 1][..k] == records[..k];
    } else {
      assert records[..k] == records;
    }
  }
}

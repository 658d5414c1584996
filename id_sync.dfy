/** What the counter resynchronisation after a load computes: for each device
    kind, the largest number found after the last `_` of a loaded identifier
    of that kind (-1 when there is none). Both smart_home/persistence.py and
    smart_home/data_manager.py run this loop; their shared specification
    lives here, with the exceptions both routines catch while loading. */
module IdSync {
  import opened Basics
  import Ids
  import Bulbs
  import AirConditioners

  /** The `isinstance` tests of the loop. */
  datatype DeviceKind = SmartBulbKind | AirConditionerKind | OtherKind

  /** A device of the loaded home, as far as the loop looks at it. */
  datatype LoadedDevice = LoadedDevice(kind: DeviceKind, id: string)

  /** `int(id.split('_')[-1])`, with `None` for the `ValueError` it raises. */
  function IdNumber(id: string): Option<int> {
    Ids.ParseInt(Ids.LastSegment(id))
  }

  /** The accumulator `max_bulb_id` / `max_ac_id` after the loop has seen
      `devices`: it starts at -1 and grows to each larger parsed number of a
      device of `kind`. */
  function MaxSuffix(devices: seq<LoadedDevice>, kind: DeviceKind): int {
    if devices == [] then -1
    else
      var m := MaxSuffix(devices[..|devices| - 1], kind);
      var d := devices[|devices| - 1];
      var n := IdNumber(d.id);
      if n.Some? && d.kind == kind && n.value > m then n.value else m
  }

  /** The accumulator is at least -1, bounds every parsed number of a device
      of `kind`, and is -1 or one of those numbers. */
  lemma {:induction false} MaxSuffixIsMax(devices: seq<LoadedDevice>, kind: DeviceKind)
    ensures MaxSuffix(devices, kind) >= -1
    ensures forall i :: 0 <= i < |devices| && devices[i].kind == kind && IdNumber(devices[i].id).Some? ==>
      IdNumber(devices[i].id).value <= MaxSuffix(devices, kind)
    ensures MaxSuffix(devices, kind) == -1 ||
      exists i :: 0 <= i < |devices| && devices[i].kind == kind && IdNumber(devices[i].id) == Some(MaxSuffix(devices, kind))
  {
    if devices != [] {
      var front := devices[..|devices| - 1];
      MaxSuffixIsMax(front, kind);
      assert forall i :: 0 <= i < |front| ==> front[i] == devices[i];
    }
  }

  /** The devices of one kind, in order. */
  function OfKind(devices: seq<LoadedDevice>, kind: DeviceKind): (r: seq<LoadedDevice>)
    ensures forall i :: 0 <= i < |r| ==> r[i].kind == kind
  {
    if devices == [] then []
    else
      var rest := OfKind(devices[..|devices| - 1], kind);
      var d := devices[|devices| - 1];
      if d.kind == kind then rest + [d] else rest
  }

  /** Devices of other kinds (in particular of neither kind) leave the
      accumulator of `kind` alone. */
  lemma {:induction false} OtherKindsIgnored(devices: seq<LoadedDevice>, kind: DeviceKind)
    ensures MaxSuffix(devices, kind) == MaxSuffix(OfKind(devices, kind), kind)
  {
    if devices != [] {
      var front := devices[..|devices| - 1];
      var d := devices[|devices| - 1];
      OtherKindsIgnored(front, kind);
      if d.kind == kind {
        var r := OfKind(devices, kind);
        assert r[..|r| - 1] == OfKind(front, kind);
      }
    }
  }

  /** No identifier `"<prefix>_<n>"` with `n` past the accumulator equals a
      loaded identifier of that kind. */
  lemma NoCollision(devices: seq<LoadedDevice>, kind: DeviceKind, prefix: string, n: nat)
    requires n > MaxSuffix(devices, kind)
    ensures forall i :: 0 <= i < |devices| && devices[i].kind == kind ==> devices[i].id != Ids.PrefixedId(prefix, n)
  {
    MaxSuffixIsMax(devices, kind);
    Ids.PrefixedIdSuffix(prefix, n);
  }

  /** Once the bulb counter is past the accumulator, every bulb identifier it
      yields is new. */
  lemma NewBulbIdsAreFresh(devices: seq<LoadedDevice>, n: nat)
    requires n > MaxSuffix(devices, SmartBulbKind)
    ensures forall i :: 0 <= i < |devices| && devices[i].kind == SmartBulbKind ==> devices[i].id != Bulbs.BulbId(n)
  {
    NoCollision(devices, SmartBulbKind, "Bulb", n);
  }

  /** Once the air-conditioner counter is past the accumulator, every
      air-conditioner identifier it yields is new. */
  lemma NewAcIdsAreFresh(devices: seq<LoadedDevice>, n: nat)
    requires n > MaxSuffix(devices, AirConditionerKind)
    ensures forall i :: 0 <= i < |devices| && devices[i].kind == AirConditionerKind ==> devices[i].id != AirConditioners.AcId(n)
  {
    NoCollision(devices, AirConditionerKind, "AC", n);
  }

  /** The exceptions both load routines catch while reading and rebuilding
      a home, `(IOError, json.JSONDecodeError, KeyError, TypeError)`; any
      other exception propagates to their caller. */
  predicate CaughtOnLoad(e: Error) {
    e == IOError || e == JSONDecodeError || e == KeyError || e == TypeError
  }

  /** The identifiers whose number cannot be read, in order. */
  function Unparsable(devices: seq<LoadedDevice>): (r: seq<string>)
    ensures forall id :: id in r <==> exists i :: 0 <= i < |devices| && devices[i].id == id && IdNumber(id).None?
  {
    if devices == [] then []
    else
      var rest := Unparsable(devices[..|devices| - 1]);
      var d := devices[|devices| - 1];
      assert forall i :: 0 <= i < |devices| - 1 ==> devices[..|devices| - 1][i] == devices[i];
      if IdNumber(d.id).None? then rest + [d.id] else rest
  }
}

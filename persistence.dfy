/** The load side of smart_home/persistence.py: which home a load returns,
    and the resynchronisation of the two identifier counters after it. The
    file itself and the reconstruction of the home are given as inputs. */
module Persistence {
  import opened Basics
  import opened IdCounters
  import opened IdSync

  /** `_synchronize_id_counters`: each counter restarts one past the largest
      number found among the loaded identifiers of its kind; identifiers whose
      number cannot be read are skipped. */
  method SynchronizeIdCounters(devices: seq<LoadedDevice>, bulbCounter: IdCounter, acCounter: IdCounter)
    requires bulbCounter != acCounter
    modifies bulbCounter, acCounter
    ensures bulbCounter.next == MaxSuffix(devices, SmartBulbKind) + 1
    ensures acCounter.next == MaxSuffix(devices, AirConditionerKind) + 1
    ensures forall n: nat :: n >= bulbCounter.next ==>
      forall i :: 0 <= i < |devices| && devices[i].kind == SmartBulbKind ==> devices[i].id != Bulbs.BulbId(n)
    ensures forall n: nat :: n >= acCounter.next ==>
      forall i :: 0 <= i < |devices| && devices[i].kind == AirConditionerKind ==> devices[i].id != AirConditioners.AcId(n)
  {
    var maxBulbId, maxAcId := -1, -1;
    var i := 0;
    while i < |devices|
      invariant 0 <= i <= |devices|
      invariant maxBulbId == MaxSuffix(devices[..i], SmartBulbKind)
      invariant maxAcId == MaxSuffix(devices[..i], AirConditionerKind)
    {
      assert devices[..i + 1][..i] == devices[..i];
      var d := devices[i];
      var idNum := IdNumber(d.id);
      if idNum.Some? {
        if d.kind == SmartBulbKind {
          if idNum.value > maxBulbId {
            maxBulbId := idNum.value;
          }
        } else if d.kind == AirConditionerKind {
          if idNum.value > maxAcId {
            maxAcId := idNum.value;
          }
        }
      }
      i := i + 1;
    }
    assert devices[..i] == devices;
    MaxSuffixIsMax(devices, SmartBulbKind);
    MaxSuffixIsMax(devices, AirConditionerKind);
    bulbCounter.next := maxBulbId + 1;
    acCounter.next := maxAcId + 1;
    forall n: nat | n >= bulbCounter.next
      ensures forall i :: 0 <= i < |devices| && devices[i].kind == SmartBulbKind ==> devices[i].id != Bulbs.BulbId(n)
    {
      NewBulbIdsAreFresh(devices, n);
    }
    forall n: nat | n >= acCounter.next
      ensures forall i :: 0 <= i < |devices| && devices[i].kind == AirConditionerKind ==> devices[i].id != AirConditioners.AcId(n)
    {
      NewAcIdsAreFresh(devices, n);
    }
  }

  /** What `load_home_from_json` returns when it does not return `None`. */
  datatype LoadedHome = Restored(devices: seq<LoadedDevice>) | FreshHome

  /** `load_home_from_json`: `None` when the file is missing. Otherwise
      `decoded` is the outcome of reading the file and rebuilding the home:
      a caught exception gives a fresh empty home, any other propagates, and
      a rebuilt home is returned after the counters are resynchronised with
      it. */
  method LoadHomeFromJson(fileExists: bool, decoded: Result<seq<LoadedDevice>>,
                          bulbCounter: IdCounter, acCounter: IdCounter)
    returns (r: Result<Option<LoadedHome>>)
    requires bulbCounter != acCounter
    modifies bulbCounter, acCounter
    ensures !fileExists ==> r == Ok(None)
    ensures fileExists && decoded.Err? && CaughtOnLoad(decoded.error) ==> r == Ok(Some(FreshHome))
    ensures fileExists && decoded.Err? && !CaughtOnLoad(decoded.error) ==> r == Err(decoded.error)
    ensures fileExists && decoded.Ok? ==> r == Ok(Some(Restored(decoded.value)))
    ensures !(fileExists && decoded.Ok?) ==>
      bulbCounter.next == old(bulbCounter.next) && acCounter.next == old(acCounter.next)
    ensures fileExists && decoded.Ok? ==>
      bulbCounter.next == MaxSuffix(decoded.value, SmartBulbKind) + 1 &&
      acCounter.next == MaxSuffix(decoded.value, AirConditionerKind) + 1
  {
    if !fileExists {
      return Ok(None);
    }
    if decoded.Err? {
      if CaughtOnLoad(decoded.error) {
        return Ok(Some(FreshHome));
      }
      return Err(decoded.error);
    }
    SynchronizeIdCounters(decoded.value, bulbCounter, acCounter);
    r := Ok(Some(Restored(decoded.value)));
  }
}

/** The load side of smart_home/data_manager.py. The counter loop is the one
    of smart_home/persistence.py, except that it reports every identifier
    whose number cannot be read; a failed load yields a home named
    "Recovery Home". */
module DataManagement {
  import opened Basics
  import opened IdCounters
  import opened IdSync

  const RecoveryHomeName: string := "Recovery Home"

  /** `DataManager._synchronize_id_counters`; `warnings` lists, in order, the
      identifiers it warns it could not parse. */
  method SynchronizeIdCounters(devices: seq<LoadedDevice>, bulbCounter: IdCounter, acCounter: IdCounter)
    returns (warnings: seq<string>)
    requires bulbCounter != acCounter
    modifies bulbCounter, acCounter
    ensures bulbCounter.next == MaxSuffix(devices, SmartBulbKind) + 1
    ensures acCounter.next == MaxSuffix(devices, AirConditionerKind) + 1
    ensures warnings == Unparsable(devices)
  {
    var maxBulbId, maxAcId := -1, -1;
    warnings := [];
    var i := 0;
    while i < |devices|
      invariant 0 <= i <= |devices|
      invariant maxBulbId == MaxSuffix(devices[..i], SmartBulbKind)
      invariant maxAcId == MaxSuffix(devices[..i], AirConditionerKind)
      invariant warnings == Unparsable(devices[..i])
    {
      assert devices[..i + 1][..i] == devices[..i];
      var d := devices[i];
      var idNum := IdNumber(d.id);
      if idNum.None? {
        warnings := warnings + [d.id];
      } else if d.kind == SmartBulbKind {
        if idNum.value > maxBulbId {
          maxBulbId := idNum.value;
        }
      } else if d.kind == AirConditionerKind {
        if idNum.value > maxAcId {
          maxAcId := idNum.value;
        }
      }
      i := i + 1;
    }
    assert devices[..i] == devices;
    MaxSuffixIsMax(devices, SmartBulbKind);
    MaxSuffixIsMax(devices, AirConditionerKind);
    bulbCounter.next := maxBulbId + 1;
    acCounter.next := maxAcId + 1;
  }

  /** What `load_home_from_json` returns when it does not return `None`. */
  datatype LoadedHome = Restored(devices: seq<LoadedDevice>) | Recovery(name: string)

  /** `DataManager.load_home_from_json`: `None` when the file is missing.
      Otherwise `decoded` is the outcome of reading the file and rebuilding
      the home: a caught exception gives a home named "Recovery Home", any
      other propagates, and a rebuilt home is returned after the counters
      are resynchronised with it. */
  method LoadHomeFromJson(fileExists: bool, decoded: Result<seq<LoadedDevice>>,
                          bulbCounter: IdCounter, acCounter: IdCounter)
    returns (r: Result<Option<LoadedHome>>, warnings: seq<string>)
    requires bulbCounter != acCounter
    modifies bulbCounter, acCounter
    ensures !fileExists ==> r == Ok(None)
    ensures fileExists && decoded.Err? && CaughtOnLoad(decoded.error) ==> r == Ok(Some(Recovery(RecoveryHomeName)))
    ensures fileExists && decoded.Err? && !CaughtOnLoad(decoded.error) ==> r == Err(decoded.error)
    ensures fileExists && decoded.Ok? ==> r == Ok(Some(Restored(decoded.value)))
    ensures !(fileExists && decoded.Ok?) ==>
      bulbCounter.next == old(bulbCounter.next) && acCounter.next == old(acCounter.next) && warnings == []
    ensures fileExists && decoded.Ok? ==>
      && bulbCounter.next == MaxSuffix(decoded.value, SmartBulbKind) + 1
      && acCounter.next == MaxSuffix(decoded.value, AirConditionerKind) + 1
      && warnings == Unparsable(decoded.value)
  {
    warnings := [];
    if !fileExists {
      return Ok(None), [];
    }
    if decoded.Err? {
      if CaughtOnLoad(decoded.error) {
        return Ok(Some(Recovery(RecoveryHomeName))), [];
      }
      return Err(decoded.error), [];
    }
    warnings := SynchronizeIdCounters(decoded.value, bulbCounter, acCounter);
    r := Ok(Some(Restored(decoded.value)));
  }
}

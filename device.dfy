/** The generic on/off device with a bounded intensity (smart_home/device.py).
    Its setters check one bound each and raise `ValueError` without changing
    anything when the check fails. */
module Devices {
  import opened Basics

  /** The dictionary `to_dict` returns. */
  datatype DeviceRecord = DeviceRecord(id: string, status: bool, intensity: int)

  /** The amount `increase_intensity` and `decrease_intensity` use by default. */
  const DefaultStep: int := 1

  class Device {
    /** Left empty by the constructor; a subclass is expected to set it. */
    var id: string
    var status: bool
    const minIntensity: int
    const maxIntensity: int
    var intensity: int

    predicate InRange()
      reads this
    {
      minIntensity <= intensity <= maxIntensity
    }

    /** The bounds are stored as given; nothing checks `min <= max`. */
    constructor (minIntensity: int, maxIntensity: int)
      ensures id == "" && !status && intensity == minIntensity
      ensures this.minIntensity == minIntensity && this.maxIntensity == maxIntensity
      ensures InRange() <==> minIntensity <= maxIntensity
    {
      id := "";
      status := false;
      this.minIntensity := minIntensity;
      this.maxIntensity := maxIntensity;
      intensity := minIntensity;
    }

    method TurnOn()
      modifies this`status
      ensures status
      ensures ToDict() == old(ToDict()).(status := true)
    {
      status := true;
    }

    method TurnOff()
      modifies this`status, this`intensity
      ensures !status && intensity == minIntensity
      ensures InRange() <==> minIntensity <= maxIntensity
      ensures ToDict() == old(ToDict()).(status := false, intensity := minIntensity)
    {
      status := false;
      intensity := minIntensity;
    }

    /** Only the upper bound is checked: a negative amount is accepted and can
        take the intensity below the minimum. */
    method IncreaseIntensity(amount: int) returns (out: Outcome)
      modifies this`intensity
      ensures out == if old(intensity) + amount > maxIntensity then Raised(ValueError) else Done
      ensures intensity == if out.Done? then old(intensity) + amount else old(intensity)
      ensures ToDict() == if out.Done? then old(ToDict()).(intensity := old(intensity) + amount) else old(ToDict())
      ensures old(InRange()) && amount >= 0 ==> InRange()
      ensures old(InRange()) && amount < 0 && old(intensity) + amount < minIntensity ==> out.Done? && !InRange()
    {
      var newIntensity := intensity + amount;
      if newIntensity > maxIntensity {
        out := Raised(ValueError);
        return;
      }
      intensity := newIntensity;
      out := Done;
    }

    /** Only the lower bound is checked: a negative amount is accepted and can
        take the intensity above the maximum. */
    method DecreaseIntensity(amount: int) returns (out: Outcome)
      modifies this`intensity
      ensures out == if old(intensity) - amount < minIntensity then Raised(ValueError) else Done
      ensures intensity == if out.Done? then old(intensity) - amount else old(intensity)
      ensures ToDict() == if out.Done? then old(ToDict()).(intensity := old(intensity) - amount) else old(ToDict())
      ensures old(InRange()) && amount >= 0 ==> InRange()
      ensures old(InRange()) && amount < 0 && old(intensity) - amount > maxIntensity ==> out.Done? && !InRange()
    {
      var newIntensity := intensity - amount;
      if newIntensity < minIntensity {
        out := Raised(ValueError);
        return;
      }
      intensity := newIntensity;
      out := Done;
    }

    /** A snapshot of the current identifier, status and intensity. */
    function ToDict(): (r: DeviceRecord)
      reads this
      ensures r.id == id && r.status == status && r.intensity == intensity
    {
      DeviceRecord(id, status, intensity)
    }
  }
}

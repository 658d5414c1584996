/** The air conditioner (smart_home/air_conditioner.py): an on flag and a
    temperature that only a range-checked setter changes, with an identifier
    `"AC_<n>"` drawn from a counter shared by all air conditioners. */
module AirConditioners {
  import opened Basics
  import Ids
  import opened IdCounters

  /** The constructor's default temperature. */
  const DefaultTemperature: real := 24.0

  /** The identifier the constructor builds from counter value `n`. */
  function AcId(n: nat): string {
    Ids.PrefixedId("AC", n)
  }

  /** Successive air conditioners get distinct identifiers. */
  lemma AcIdsDistinct(m: nat, n: nat)
    requires m != n
    ensures AcId(m) != AcId(n)
  {
    Ids.PrefixedIdInjective("AC", m, n);
  }

  predicate TemperatureOk(t: real) { 16.0 <= t <= 30.0 }

  class AirConditioner {
    const id: string
    var temperature: real
    var isOn: bool

    /** The constructor stores its argument without checking the range. */
    constructor (temperature: real, counter: IdCounter)
      modifies counter
      ensures id == AcId(old(counter.next)) && counter.next == old(counter.next) + 1
      ensures this.temperature == temperature && !isOn
    {
      var n := counter.Next();
      id := AcId(n);
      this.temperature := temperature;
      isOn := false;
    }

    method TurnOn()
      modifies this`isOn
      ensures isOn
    {
      isOn := true;
    }

    method TurnOff()
      modifies this`isOn
      ensures !isOn
    {
      isOn := false;
    }

    /** Both ends of 16..30 are accepted; outside it nothing changes. */
    method ChangeTemperature(newTemperature: real) returns (out: Outcome)
      modifies this`temperature
      ensures out == if TemperatureOk(newTemperature) then Done else Raised(ValueError)
      ensures temperature == if out.Done? then newTemperature else old(temperature)
      ensures old(TemperatureOk(temperature)) ==> TemperatureOk(temperature)
    {
      if TemperatureOk(newTemperature) {
        temperature := newTemperature;
        out := Done;
      } else {
        out := Raised(ValueError);
      }
    }
  }
}

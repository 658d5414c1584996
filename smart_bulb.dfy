/** The smart bulb (smart_home/smart_bulb.py): on/off, intensity 0..100, an
    RGB colour, a programmable flag fixed at construction, and an identifier
    `"Bulb_<n>"` drawn from a counter shared by all bulbs. */
module Bulbs {
  import opened Basics
  import Ids
  import opened IdCounters

  /** The identifier the constructor builds from counter value `n`. */
  function BulbId(n: nat): string {
    Ids.PrefixedId("Bulb", n)
  }

  /** Successive bulbs get distinct identifiers. */
  lemma BulbIdsDistinct(m: nat, n: nat)
    requires m != n
    ensures BulbId(m) != BulbId(n)
  {
    Ids.PrefixedIdInjective("Bulb", m, n);
  }

  /** The part of a bulb that `turn_on` and `turn_off` change. */
  datatype Lamp = Lamp(on: bool, intensity: int)

  /** `turn_on`: on, and a dark bulb jumps to full intensity. */
  function SwitchedOn(l: Lamp): Lamp {
    Lamp(true, if l.intensity == 0 then 100 else l.intensity)
  }

  /** `turn_off`: off, and intensity back to 0. */
  function SwitchedOff(l: Lamp): Lamp {
    Lamp(false, 0)
  }

  /** Switching on never leaves a bulb on but dark, and switching off then on
      always gives full intensity. */
  lemma SwitchingFacts(l: Lamp)
    ensures SwitchedOn(l).on && SwitchedOn(l).intensity != 0
    ensures SwitchedOn(l).intensity == (if l.intensity == 0 then 100 else l.intensity)
    ensures !SwitchedOff(l).on && SwitchedOff(l).intensity == 0
    ensures SwitchedOn(SwitchedOff(l)).intensity == 100
  {
  }

  class SmartBulb {
    const id: string
    const name: string
    var isOn: bool
    var intensity: int
    var color: Rgb
    const isProgrammable: bool

    function State(): Lamp
      reads this
    {
      Lamp(isOn, intensity)
    }

    /** Intensity within 0..100 and every colour channel within 0..255. */
    ghost predicate Valid()
      reads this
    {
      0 <= intensity <= 100 && ColorOk(color)
    }

    constructor (name: string, isProgrammable: bool, counter: IdCounter)
      modifies counter
      ensures id == BulbId(old(counter.next)) && counter.next == old(counter.next) + 1
      ensures this.name == name && this.isProgrammable == isProgrammable
      ensures !isOn && intensity == 0 && color == White
      ensures Valid()
    {
      var n := counter.Next();
      id := BulbId(n);
      this.name := name;
      isOn := false;
      intensity := 0;
      color := White;
      this.isProgrammable := isProgrammable;
    }

    method TurnOn()
      modifies this`isOn, this`intensity
      ensures State() == SwitchedOn(old(State()))
      ensures old(Valid()) ==> Valid()
    {
      isOn := true;
      if intensity == 0 {
        intensity := 100;
      }
    }

    method TurnOff()
      modifies this`isOn, this`intensity
      ensures State() == SwitchedOff(old(State()))
      ensures old(Valid()) ==> Valid()
    {
      isOn := false;
      intensity := 0;
    }

    method ChangeIntensity(level: int) returns (out: Outcome)
      modifies this`intensity
      ensures out == if 0 <= level <= 100 then Done else Raised(ValueError)
      ensures intensity == if out.Done? then level else old(intensity)
      ensures old(Valid()) ==> Valid()
    {
      if 0 <= level <= 100 {
        intensity := level;
        out := Done;
      } else {
        out := Raised(ValueError);
      }
    }

    /** All three channels are replaced together, or none is. */
    method ChangeColor(r: int, g: int, b: int) returns (out: Outcome)
      modifies this`color
      ensures out == if ChannelOk(r) && ChannelOk(g) && ChannelOk(b) then Done else Raised(ValueError)
      ensures color == if out.Done? then Rgb(r, g, b) else old(color)
      ensures old(Valid()) ==> Valid()
    {
      if ChannelOk(r) && ChannelOk(g) && ChannelOk(b) {
        color := Rgb(r, g, b);
        out := Done;
      } else {
        out := Raised(ValueError);
      }
    }
  }
}

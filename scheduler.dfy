/** The weekly on/off scheduler of one smart bulb (smart_home/scheduler.py).
    Events are validated, appended and stably re-sorted by
    (weekday index, hour, minute, second); an event is deleted by value;
    polling with the current time fires every event whose time matches it
    to the second. */
module Scheduling {
  import opened Basics
  import opened Sequences
  import opened Bulbs

  const TurnOnAction: string := "turn_on"
  const TurnOffAction: string := "turn_off"

  /** `get_week_days`: the seven day names, Monday first. */
  function WeekDays(): (days: seq<string>)
    ensures |days| == 7 && Distinct(days)
  {
    ["Monday", "Tuesday", "Wednesday", "Thursday", "Friday", "Saturday", "Sunday"]
  }

  /** `day in get_week_days()`. */
  predicate IsWeekDay(day: string) {
    day in WeekDays()
  }

  /** `get_week_days().index(day)`, the first component of the sort key. */
  function DayIndex(day: string): (i: nat)
    requires IsWeekDay(day)
    ensures i < 7 && WeekDays()[i] == day
  {
    if day == "Monday" then 0
    else if day == "Tuesday" then 1
    else if day == "Wednesday" then 2
    else if day == "Thursday" then 3
    else if day == "Friday" then 4
    else if day == "Saturday" then 5
    else 6
  }

  /** One schedule entry, the dictionary
      `{'day', 'hour', 'minute', 'second', 'action'}`. */
  datatype Event = Event(day: string, hour: int, minute: int, second: int, action: string)

  /** The current time `check_and_execute_schedule` compares against. */
  datatype Moment = Moment(day: string, hour: int, minute: int, second: int)

  predicate TimeOk(day: string, hour: int, minute: int, second: int) {
    IsWeekDay(day) && 0 <= hour <= 23 && 0 <= minute <= 59 && 0 <= second <= 59
  }

  predicate EventTimeOk(e: Event) {
    TimeOk(e.day, e.hour, e.minute, e.second)
  }

  /** `_validate_event_time`: the checks run in order and the first failing
      one raises `InvalidTimeError`. */
  function ValidateEventTime(day: string, hour: int, minute: int, second: int): (out: Outcome)
    ensures out == Done <==> TimeOk(day, hour, minute, second)
    ensures out != Done ==> out == Raised(InvalidTimeError)
  {
    if day !in WeekDays() then Raised(InvalidTimeError)
    else if !(0 <= hour <= 23) then Raised(InvalidTimeError)
    else if !(0 <= minute <= 59) then Raised(InvalidTimeError)
    else if !(0 <= second <= 59) then Raised(InvalidTimeError)
    else Done
  }

  /** The sort key of `a` is at most that of `b`, comparing the tuples
      (weekday index, hour, minute, second) lexicographically. */
  predicate KeyLe(a: Event, b: Event)
    requires IsWeekDay(a.day) && IsWeekDay(b.day)
  {
    var da, db := DayIndex(a.day), DayIndex(b.day);
    da < db || (da == db &&
      (a.hour < b.hour || (a.hour == b.hour &&
        (a.minute < b.minute || (a.minute == b.minute && a.second <= b.second)))))
  }

  predicate AllTimed(s: seq<Event>) {
    forall i :: 0 <= i < |s| ==> EventTimeOk(s[i])
  }

  predicate Sorted(s: seq<Event>) {
    AllTimed(s) && forall i, j :: 0 <= i < j < |s| ==> KeyLe(s[i], s[j])
  }

  /** The number of leading events whose key is at most that of `e`: where a
      stable sort puts `e` after appending it to a sorted list. */
  function UpperBound(s: seq<Event>, e: Event): (p: nat)
    requires AllTimed(s) && EventTimeOk(e)
    ensures p <= |s|
    ensures forall j :: 0 <= j < p ==> KeyLe(s[j], e)
    ensures p < |s| ==> !KeyLe(s[p], e)
  {
    if s == [] || !KeyLe(s[0], e) then 0 else 1 + UpperBound(s[1..], e)
  }

  /** `append(e)` followed by the stable `sort` of a sorted schedule. */
  function Inserted(s: seq<Event>, e: Event): seq<Event>
    requires AllTimed(s) && EventTimeOk(e)
  {
    var p := UpperBound(s, e);
    s[..p] + [e] + s[p..]
  }

  /** Inserting into a sorted schedule gives a sorted schedule holding the
      old events plus `e`, the old ones in their old order, with `e` after
      every old event whose key is at most its own and before every other:
      exactly what a stable sort of `s + [e]` gives. */
  lemma {:induction false} InsertedIsStableSort(s: seq<Event>, e: Event)
    requires Sorted(s) && EventTimeOk(e)
    ensures var r, p := Inserted(s, e), UpperBound(s, e);
      && Sorted(r) && |r| == |s| + 1
      && multiset(r) == multiset(s) + multiset{e}
      && r[p] == e && r[..p] + r[p + 1..] == s
      && (forall j :: 0 <= j < p ==> KeyLe(s[j], e))
      && (forall j :: p <= j < |s| ==> !KeyLe(s[j], e))
  {
    var r, p := Inserted(s, e), UpperBound(s, e);
    AfterUpperBound(s, e);
    InsertedSorted(s, e);
    InsertedSplits(s, e);
  }

  /** The inserted schedule is the old one with `e` spliced in. */
  lemma InsertedSplits(s: seq<Event>, e: Event)
    requires AllTimed(s) && EventTimeOk(e)
    ensures var r, p := Inserted(s, e), UpperBound(s, e);
      && |r| == |s| + 1 && r[p] == e && r[..p] + r[p + 1..] == s
      && multiset(r) == multiset(s) + multiset{e}
  {
    Splice(s, UpperBound(s, e), e);
  }

  /** In a sorted schedule every event from the insertion point on has a
      key strictly after that of `e`. */
  lemma AfterUpperBound(s: seq<Event>, e: Event)
    requires Sorted(s) && EventTimeOk(e)
    ensures forall j :: UpperBound(s, e) <= j < |s| ==> !KeyLe(s[j], e)
  {
    var p := UpperBound(s, e);
    forall j | p < j < |s|
      ensures !KeyLe(s[j], e)
    {
      assert KeyLe(s[p], s[j]);
    }
  }

  /** Where each element of the inserted schedule comes from. */
  lemma InsertedAt(s: seq<Event>, e: Event, i: nat)
    requires AllTimed(s) && EventTimeOk(e) && i <= |s|
    ensures var p := UpperBound(s, e);
      Inserted(s, e)[i] == if i < p then s[i] else if i == p then e else s[i - 1]
  {
  }

  lemma InsertedSorted(s: seq<Event>, e: Event)
    requires Sorted(s) && EventTimeOk(e)
    requires forall j :: UpperBound(s, e) <= j < |s| ==> !KeyLe(s[j], e)
    ensures Sorted(Inserted(s, e))
  {
    var r, p := Inserted(s, e), UpperBound(s, e);
    forall i | 0 <= i < |r| ensures EventTimeOk(r[i]) {
      InsertedAt(s, e, i);
    }
    forall i, j | 0 <= i < j < |r|
      ensures KeyLe(r[i], r[j])
    {
      InsertedAt(s, e, i);
      InsertedAt(s, e, j);
      if i == p {
        assert !KeyLe(s[j - 1], e);
      }
    }
  }

  /** Cutting one event out of a sorted schedule leaves it sorted. */
  lemma SortedWithout(s: seq<Event>, k: nat)
    requires Sorted(s) && k < |s|
    ensures Sorted(s[..k] + s[k + 1..])
  {
    var r := s[..k] + s[k + 1..];
    forall i, j | 0 <= i < j < |r|
      ensures KeyLe(r[i], r[j])
    {
      assert r[i] == s[if i < k then i else i + 1];
      assert r[j] == s[if j < k then j else j + 1];
    }
  }

  predicate Matches(e: Event, now: Moment) {
    e.day == now.day && e.hour == now.hour && e.minute == now.minute && e.second == now.second
  }

  /** The effect of one event on the bulb at time `now`: a matching
      `turn_on` or `turn_off` switches it; anything else leaves it alone. */
  function Fire(l: Lamp, e: Event, now: Moment): Lamp {
    if !Matches(e, now) then l
    else if e.action == TurnOnAction then SwitchedOn(l)
    else if e.action == TurnOffAction then SwitchedOff(l)
    else l
  }

  /** The bulb after firing the events of `s` in list order. */
  function Replay(l: Lamp, s: seq<Event>, now: Moment): Lamp {
    if s == [] then l else Fire(Replay(l, s[..|s| - 1], now), s[|s| - 1], now)
  }

  /** The position of the last event of `s` that matches `now`, if any. */
  function LastMatch(s: seq<Event>, now: Moment): (r: Option<nat>)
    ensures r.None? ==> forall j :: 0 <= j < |s| ==> !Matches(s[j], now)
    ensures r.Some? ==> r.value < |s| && Matches(s[r.value], now)
    ensures r.Some? ==> forall j :: r.value < j < |s| ==> !Matches(s[j], now)
  {
    if s == [] then None
    else if Matches(s[|s| - 1], now) then Some(|s| - 1)
    else LastMatch(s[..|s| - 1], now)
  }

  predicate KnownAction(action: string) {
    action == TurnOnAction || action == TurnOffAction
  }

  predicate KnownActions(s: seq<Event>) {
    forall i :: 0 <= i < |s| ==> KnownAction(s[i].action)
  }

  /** With no matching event the bulb is untouched; otherwise the last
      matching event alone decides whether it ends up on, and it is dark
      exactly when that event switched it off. */
  lemma {:induction false} LastMatchDecides(l: Lamp, s: seq<Event>, now: Moment)
    requires KnownActions(s)
    ensures LastMatch(s, now).None? ==> Replay(l, s, now) == l
    ensures LastMatch(s, now).Some? ==>
      var e := s[LastMatch(s, now).value];
      && Replay(l, s, now).on == (e.action == TurnOnAction)
      && (Replay(l, s, now).intensity == 0 <==> e.action == TurnOffAction)
  {
    if s != [] && !Matches(s[|s| - 1], now) {
      var t := s[..|s| - 1];
      assert KnownActions(t) by {
        forall i | 0 <= i < |t| ensures t[i] == s[i] { }
      }
      LastMatchDecides(l, t, now);
      if LastMatch(t, now).Some? {
        assert t[LastMatch(t, now).value] == s[LastMatch(s, now).value];
      }
    }
  }

  class Scheduler {
    const bulb: SmartBulb
    var schedule: seq<Event>

    /** Every stored event has a valid time and a known action, and the
        schedule is sorted. */
    ghost predicate Valid()
      reads this
    {
      Sorted(schedule) && KnownActions(schedule)
    }

    constructor (bulb: SmartBulb)
      ensures this.bulb == bulb && schedule == [] && Valid()
    {
      this.bulb := bulb;
      schedule := [];
    }

    /** The constructor's `isinstance` check: `null` stands for any argument
        that is not a `SmartBulb`, which raises `TypeError`. */
    static method Create(candidate: SmartBulb?) returns (s: Scheduler?, out: Outcome)
      ensures out == if candidate == null then Raised(TypeError) else Done
      ensures out.Done? ==> s != null && fresh(s) && s.bulb == candidate && s.schedule == [] && s.Valid()
      ensures out.Raised? ==> s == null
    {
      if candidate == null {
        s, out := null, Raised(TypeError);
      } else {
        s := new Scheduler(candidate);
        out := Done;
      }
    }

    method AddStartEvent(day: string, hour: int, minute: int, second: int) returns (out: Outcome)
      requires Valid()
      modifies this`schedule
      ensures Valid()
      ensures out == ValidateEventTime(day, hour, minute, second)
      ensures schedule == if out.Done?
        then Inserted(old(schedule), Event(day, hour, minute, second, TurnOnAction))
        else old(schedule)
    {
      out := ValidateEventTime(day, hour, minute, second);
      if out.Raised? {
        return;
      }
      var e := Event(day, hour, minute, second, TurnOnAction);
      InsertedIsStableSort(schedule, e);
      InsertedKeepsActions(schedule, e);
      schedule := Inserted(schedule, e);
    }

    method AddEndEvent(day: string, hour: int, minute: int, second: int) returns (out: Outcome)
      requires Valid()
      modifies this`schedule
      ensures Valid()
      ensures out == ValidateEventTime(day, hour, minute, second)
      ensures schedule == if out.Done?
        then Inserted(old(schedule), Event(day, hour, minute, second, TurnOffAction))
        else old(schedule)
    {
      out := ValidateEventTime(day, hour, minute, second);
      if out.Raised? {
        return;
      }
      var e := Event(day, hour, minute, second, TurnOffAction);
      InsertedIsStableSort(schedule, e);
      InsertedKeepsActions(schedule, e);
      schedule := Inserted(schedule, e);
    }

    /** The time is validated first (the action is not); then the first
        equal event is removed, and the result says whether there was one. */
    method DeleteEvent(day: string, hour: int, minute: int, second: int, action: string)
      returns (r: Result<bool>)
      requires Valid()
      modifies this`schedule
      ensures Valid()
      ensures !TimeOk(day, hour, minute, second) ==> r == Err(InvalidTimeError) && schedule == old(schedule)
      ensures TimeOk(day, hour, minute, second) ==>
        var e := Event(day, hour, minute, second, action);
        r == Ok(e in old(schedule)) && schedule == RemoveFirst(old(schedule), e)
    {
      var out := ValidateEventTime(day, hour, minute, second);
      if out.Raised? {
        return Err(out.error);
      }
      var e := Event(day, hour, minute, second, action);
      if e in schedule {
        var k := FirstIndex(schedule, e);
        RemoveFirstCutsFirstIndex(schedule, e, k);
        SortedWithout(schedule, k);
        schedule := RemoveFirst(schedule, e);
        r := Ok(true);
      } else {
        r := Ok(false);
      }
    }

    /** Polls the schedule at time `now`, firing the matching events in list
        order on the bulb. The schedule itself is left alone. */
    method CheckAndExecuteSchedule(now: Moment)
      requires Valid()
      modifies bulb`isOn, bulb`intensity
      ensures bulb.State() == Replay(old(bulb.State()), schedule, now)
      ensures LastMatch(schedule, now).None? ==> bulb.State() == old(bulb.State())
      ensures LastMatch(schedule, now).Some? ==>
        bulb.isOn == (schedule[LastMatch(schedule, now).value].action == TurnOnAction)
      ensures old(bulb.Valid()) ==> bulb.Valid()
    {
      var i := 0;
      while i < |schedule|
        invariant 0 <= i <= |schedule|
        invariant bulb.State() == Replay(old(bulb.State()), schedule[..i], now)
        invariant old(bulb.Valid()) ==> bulb.Valid()
      {
        var e := schedule[i];
        if e.day == now.day && e.hour == now.hour && e.minute == now.minute && e.second == now.second {
          if e.action == TurnOnAction {
            bulb.TurnOn();
          } else if e.action == TurnOffAction {
            bulb.TurnOff();
          }
        }
        assert schedule[..i + 1][..i] == schedule[..i];
        i := i + 1;
      }
      assert schedule[..i] == schedule;
      LastMatchDecides(old(bulb.State()), schedule, now);
    }
  }

  lemma InsertedKeepsActions(s: seq<Event>, e: Event)
    requires AllTimed(s) && EventTimeOk(e) && KnownActions(s) && KnownAction(e.action)
    ensures KnownActions(Inserted(s, e))
  {
    var p := UpperBound(s, e);
    var r := Inserted(s, e);
    forall i | 0 <= i < |r| ensures KnownAction(r[i].action) {
      if i != p {
        assert r[i] == s[if i < p then i else i - 1];
      }
    }
  }
}

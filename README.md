# Smart home core, modelled in Dafny

This project models the core of a small Python smart-home system:

- the generic device with a bounded intensity;
- the smart bulb (on/off, intensity 0..100, RGB colour, programmable flag);
- the air conditioner (on/off, temperature 16..30 °C);
- the weekly on/off scheduler of one bulb;
- the room, which holds devices keyed by identifier;
- the home, which holds a table of rooms and device placements;
- the two load routines (`persistence.py` and `data_manager.py`), which rebuild a home and resynchronise the per-class identifier counters.

It also models the three earlier Spanish-named classes that the English ones grew from:
- `Hogar`, the home table;
- `BombillaInteligente`, the bulb;
- `AireAcondicionado`, the air conditioner.

Their setters answer `True`/`False` instead of raising.

Modelling choices:

- **Exceptions.** Every Python exception becomes a returned value: `Outcome` (`Done` or `Raised(error)`) or `Result<T>`. The model states which error is raised and that a raising call changes nothing.
- **Objects the source updates in place are Dafny classes.**
  - `Device`, `SmartBulb`, `AirConditioner`, `Scheduler`, `Room`, `Home` and the Spanish classes, plus `IdCounter`.
  - Each method's `modifies` clause names exactly the fields it writes.
  - `SmartBulb`, `Scheduler`, `Room`, `Home`, `Hogar`, `BombillaInteligente` and `AireAcondicionado` have a ghost `Valid()` predicate stating the invariant their methods keep.
  - `Device` has a range predicate `InRange()` that its intensity setters can break (see below).
  - `AirConditioner` keeps its temperature range only once it is in range, because its constructor does not check it.
- **Dictionaries keep insertion order.** A Python dict is modelled as a `map` plus an `ids`/`order` sequence of its keys in insertion order.
- **Identifier counters are explicit objects.** The class-level `itertools.count()` counters become `IdCounters.IdCounter` objects that are passed to constructors and to the resynchronisation.
- **Shared modules.**
  - `Ids`: decimal printing and parsing of the `"<Prefix>_<n>"` identifiers.
  - `Sequences`: `list.remove` and distinctness.
  - `IdSync`: the specification of the counter loop, which both load routines run.

Main results:

- **Scheduler.**
  - Adding an event is a stable insertion into the sorted schedule: the result is sorted, is a permutation of the old schedule plus the event, keeps the old events in their old order, and places the new event after every event with an equal key.
  - Deleting keeps the schedule sorted.
  - Polling fires the matching events in list order. The last matching event alone decides whether the bulb ends up on.
- **Load routines.** After a load, each identifier counter is one past the larger of -1 and the largest number found in a loaded identifier of its kind (so it restarts at 0 when no number of that kind is non-negative). As a consequence, every identifier the counter yields afterwards is new.
- **Room decoding.** `Room.from_dict` succeeds exactly when the records of registered types have distinct identifiers, and the room then holds exactly those devices, in order.
- **Home counts.** Per-room counts equal the size of the set of devices placed in that room, and they add up to the total.

Behaviours of the code that the model keeps:

- `increase_intensity` and `decrease_intensity` raise `ValueError` past a bound rather than clamping. Each checks only one bound.
- The air conditioner's constructor stores any temperature unchecked, and `turn_off` leaves the temperature alone.
- `delete_event` deletes by value, answering whether an equal event existed. It does not delete by index.
- The scheduler's constructor checks only that it is given a `SmartBulb`. It does not check that the bulb is programmable.
- The scheduler does not validate the action of an event; only the time is checked.

## Model

| member | source | states |
|---|---|---|
| Sequences.RemoveFirst | smart_home/scheduler.py:104 | `list.remove(x)`: one element shorter when `x` is present, the list itself when it is not (where Python raises `ValueError`, which the callers catch) |
| Sequences.RemoveFirstCutsFirstIndex | smart_home/scheduler.py:102-107 | `list.remove` cuts exactly the first equal element: the result is the list without that index, and its multiset loses one copy of the element |
| Sequences.RemoveFirstOfDistinct | smart_home/home.py:52-64 | on a list of distinct keys, removing a key keeps the rest distinct and drops exactly that key |
| Ids.NatToString | smart_home/smart_bulb.py:8 | `str(n)` is a non-empty string of decimal digits with no underscore |
| Ids.NatToStringValue | smart_home/smart_bulb.py:8 | the digits of `str(n)` denote `n` |
| Ids.ParseInt | smart_home/persistence.py:34 | `int(...)` on the last segment, `None` for its `ValueError`; what it accepts is stated by `Ids.ParseIntAccepts` |
| Ids.ParseIntAccepts | smart_home/persistence.py:34 | `int` accepts exactly an optional sign followed by at least one digit, and reads unsigned digits as their value |
| Ids.LastSegment | smart_home/persistence.py:34 | `split('_')[-1]`; stated by `Ids.LastSegmentIsTail` |
| Ids.LastSegmentIsTail | smart_home/persistence.py:34 | `split('_')[-1]` is an underscore-free tail of the identifier, preceded by `_` unless it is the whole identifier |
| Ids.PrefixedId | smart_home/smart_bulb.py:8 | the f-string `f"{prefix}_{n}"`; stated by `Ids.PrefixedIdSuffix` and `Ids.PrefixedIdInjective` |
| Ids.PrefixedIdSuffix | smart_home/persistence.py:34 | reading the number back from a generated identifier `f"{prefix}_{n}"` gives `n` |
| Ids.PrefixedIdInjective | smart_home/smart_bulb.py:5-8 | distinct counter values give distinct identifiers |
| IdCounters.IdCounter.constructor | smart_home/smart_bulb.py:5 | `itertools.count(start)` begins at `start` |
| IdCounters.IdCounter.Next | smart_home/smart_bulb.py:8 | `next(counter)` yields the current value and advances by one |
| Devices.Device.constructor | smart_home/device.py:4-17 | empty identifier, off, intensity at the minimum, bounds stored as given; the object is in range exactly when min <= max |
| Devices.Device.TurnOn | smart_home/device.py:34-36 | the device is on; its `to_dict` record changes only in `status` |
| Devices.Device.TurnOff | smart_home/device.py:38-41 | off, and the intensity is reset to the minimum; the `to_dict` record changes in exactly those two entries |
| Devices.Device.IncreaseIntensity | smart_home/device.py:43-55 | raises `ValueError` and changes nothing exactly when the result would exceed the maximum; otherwise adds `amount`, and the `to_dict` record changes only in `intensity`; the range invariant is kept for a non-negative amount and is broken by a negative amount that goes below the minimum |
| Devices.Device.DecreaseIntensity | smart_home/device.py:57-69 | raises `ValueError` and changes nothing exactly when the result would go below the minimum; otherwise subtracts `amount`, and the `to_dict` record changes only in `intensity`; the range invariant is kept for a non-negative amount and is broken by a negative amount that goes past the maximum |
| Devices.Device.ToDict | smart_home/device.py:71-77 | the record carries the current identifier, status and intensity; the setters' contracts state their effect through it |
| Bulbs.BulbId | smart_home/smart_bulb.py:8 | the identifier `f"Bulb_{n}"`; stated by `Bulbs.BulbIdsDistinct` and `IdSync.NewBulbIdsAreFresh` |
| Bulbs.SwitchedOn | smart_home/smart_bulb.py:45-49 | `turn_on` on the (on, intensity) pair; stated by `Bulbs.SwitchingFacts` |
| Bulbs.SwitchedOff | smart_home/smart_bulb.py:51-54 | `turn_off` on the (on, intensity) pair; stated by `Bulbs.SwitchingFacts` |
| Bulbs.BulbIdsDistinct | smart_home/smart_bulb.py:5-8 | two bulbs built from different counter values have different identifiers |
| Bulbs.SwitchingFacts | smart_home/smart_bulb.py:45-54 | switching on never leaves the bulb on but dark; switching off gives off at intensity 0; off then on gives intensity 100 |
| Bulbs.SmartBulb.constructor | smart_home/smart_bulb.py:7-13 | identifier `Bulb_<n>` from the shared counter, which advances by one; off, intensity 0, white, given name and flag; the bulb is valid |
| Bulbs.SmartBulb.TurnOn | smart_home/smart_bulb.py:45-49 | on; a dark bulb jumps to 100, otherwise the intensity is kept; validity is kept |
| Bulbs.SmartBulb.TurnOff | smart_home/smart_bulb.py:51-54 | off with intensity 0; validity is kept |
| Bulbs.SmartBulb.ChangeIntensity | smart_home/smart_bulb.py:61-74 | accepted exactly for 0..100, otherwise `ValueError` and no change; validity is kept |
| Bulbs.SmartBulb.ChangeColor | smart_home/smart_bulb.py:76-93 | all three channels are replaced together exactly when each is in 0..255, otherwise `ValueError` and no change; validity is kept |
| AirConditioners.AcId | smart_home/air_conditioner.py:8 | the identifier `f"AC_{n}"`; stated by `AirConditioners.AcIdsDistinct` and `IdSync.NewAcIdsAreFresh` |
| AirConditioners.AcIdsDistinct | smart_home/air_conditioner.py:5-8 | two air conditioners built from different counter values have different identifiers |
| AirConditioners.AirConditioner.constructor | smart_home/air_conditioner.py:7-10 | identifier `AC_<n>` from the shared counter, which advances; the given temperature stored unchecked; off |
| AirConditioners.AirConditioner.TurnOn | smart_home/air_conditioner.py:27-29 | on, nothing else changes |
| AirConditioners.AirConditioner.TurnOff | smart_home/air_conditioner.py:31-33 | off, the temperature untouched |
| AirConditioners.AirConditioner.ChangeTemperature | smart_home/air_conditioner.py:40-53 | accepted exactly for 16..30 inclusive, otherwise `ValueError` and no change; an in-range temperature stays in range |
| Scheduling.WeekDays | smart_home/scheduler.py:27-29 | seven distinct day names |
| Scheduling.DayIndex | smart_home/scheduler.py:64 | the sort key's first component is the day's position in the week-day list |
| Scheduling.ValidateEventTime | smart_home/scheduler.py:37-46 | succeeds exactly for a week day, hour 0..23, minute 0..59, second 0..59; otherwise `InvalidTimeError` |
| Scheduling.KeyLe | smart_home/scheduler.py:64 | the order of the sort key (weekday index, hour, minute, second), compared lexicographically |
| Scheduling.UpperBound | smart_home/scheduler.py:62-64 | the insertion point: every event before it has key at most the new one's, the event at it has a larger key |
| Scheduling.Inserted | smart_home/scheduler.py:62-64 | `append` followed by `sort` on a sorted schedule; stated by `Scheduling.InsertedIsStableSort` |
| Scheduling.InsertedIsStableSort | smart_home/scheduler.py:62-64 | appending then stably sorting a sorted schedule gives a sorted permutation of old schedule plus the event, the old events in their order, the new one after every event with key at most its own and before every other |
| Scheduling.InsertedKeepsActions | smart_home/scheduler.py:62-64 | inserting a `turn_on`/`turn_off` event keeps every action known |
| Scheduling.SortedWithout | smart_home/scheduler.py:102-107 | removing one event keeps the schedule sorted |
| Scheduling.Fire | smart_home/scheduler.py:120-130 | one loop step: a matching `turn_on` or `turn_off` switches the bulb, anything else leaves it |
| Scheduling.Replay | smart_home/scheduler.py:120-130 | the loop, firing the events in list order; stated by `Scheduling.LastMatchDecides` and `Scheduling.Scheduler.CheckAndExecuteSchedule` |
| Scheduling.LastMatch | smart_home/scheduler.py:120-124 | the position of the last event matching the current time to the second, or none when no event matches |
| Scheduling.LastMatchDecides | smart_home/scheduler.py:120-132 | polling leaves the bulb alone when nothing matches; otherwise the bulb ends up on exactly when the last match is `turn_on`, and dark exactly when it is `turn_off` |
| Scheduling.Scheduler.constructor | smart_home/scheduler.py:11-15 | the scheduler refers to the given bulb and starts with an empty, valid schedule |
| Scheduling.Scheduler.Create | smart_home/scheduler.py:11-15 | anything but a `SmartBulb` raises `TypeError`; otherwise a fresh scheduler with an empty schedule |
| Scheduling.Scheduler.AddStartEvent | smart_home/scheduler.py:48-64 | an invalid time raises `InvalidTimeError` and changes nothing; otherwise the `turn_on` event is stably inserted; the schedule stays sorted with known actions |
| Scheduling.Scheduler.AddEndEvent | smart_home/scheduler.py:66-82 | same for a `turn_off` event |
| Scheduling.Scheduler.DeleteEvent | smart_home/scheduler.py:84-107 | an invalid time raises `InvalidTimeError` and changes nothing; otherwise the first equal event is removed and the answer says whether one existed; the schedule stays sorted |
| Scheduling.Scheduler.CheckAndExecuteSchedule | smart_home/scheduler.py:109-132 | the bulb ends as if each matching event fired in order; unchanged when none matches; on exactly when the last match is `turn_on`; bulb validity kept |
| Rooms.Known | smart_home/room.py:62-70 | the records `from_dict` adds are those of a registered type, in order |
| Rooms.Room.constructor | smart_home/room.py:9-14 | a room with a non-empty name starts with no devices |
| Rooms.Room.Create | smart_home/room.py:9-14 | an empty name raises `ValueError`; otherwise an empty room with that name |
| Rooms.Room.Devices | smart_home/room.py:22-24 | one device per stored identifier, in insertion order; `AddDevice` extends it by exactly the added device |
| Rooms.Room.GetDeviceById | smart_home/room.py:32-34 | the stored device when the identifier is present, none otherwise; after `AddDevice` it finds the added device and answers as before for every other identifier |
| Rooms.Room.AddDevice | smart_home/room.py:26-30 | a present identifier raises `ValueError` and changes nothing; otherwise `get_device_by_id` finds the new device, every other lookup is unchanged, and both the `devices` list and the `to_dict` device records gain it at the end |
| Rooms.Room.ToDict | smart_home/room.py:52-57 | the name and one device record per device, in insertion order; `AddDevice` appends exactly the new device's record |
| Rooms.Room.AddKnown | smart_home/room.py:62-70 | adding the decoded records succeeds exactly when the registered ones have distinct identifiers, and the room then holds exactly them in order |
| Rooms.Room.AddRecord | smart_home/room.py:63-70 | one loop step: the record is added when its type is registered and skipped otherwise; a repeated identifier raises `ValueError` and makes the whole kept list non-unique |
| Rooms.FromDict | smart_home/room.py:60-71 | given records that the registered classes have already decoded: a missing name raises `KeyError`, an empty one `ValueError`; otherwise the room is built exactly when the kept records have distinct identifiers (else `ValueError`), and holds exactly those devices, in order |
| Rooms.RepeatSpreads | smart_home/room.py:62-70 | a kept record repeating an earlier kept identifier makes the whole kept list non-unique |
| Rooms.KnownPrefix | smart_home/room.py:62-70 | decoding a prefix of the records keeps a prefix of what decoding them all keeps |
| Homes.InRoom | smart_home/home.py:125-139 | the room listing is no longer than the device list |
| Homes.InRoomExactly | smart_home/home.py:125-139 | the listing holds exactly the identifiers placed in the room, each once |
| Homes.InRoomCount | smart_home/home.py:109-123 | the listing's length is the number of devices placed in the room |
| Homes.CountsAddUp | smart_home/home.py:100-123 | when every device sits in a known room, the per-room counts over the distinct rooms add up to the number of devices |
| Homes.Home.constructor | smart_home/home.py:3-5 | no rooms, no devices |
| Homes.Home.AddRoom | smart_home/home.py:17-29 | a known room raises `ValueError` and changes nothing; otherwise it is appended; room names stay distinct |
| Homes.Home.AddDevice | smart_home/home.py:31-50 | an unknown room or a present identifier raises `ValueError` and changes nothing; otherwise the placement is stored last, and `get_device_object` and `get_device_location` then return the new object and its room; every device stays in a known room |
| Homes.Home.RemoveDevice | smart_home/home.py:52-64 | an unknown identifier raises `ValueError` and changes nothing; otherwise exactly that entry is gone, the rest in order; afterwards both lookups of the identifier raise, and every other object lookup is unchanged |
| Homes.Home.GetDeviceLocation | smart_home/home.py:66-81 | the device's room (a known room) when present, `ValueError` otherwise |
| Homes.Home.GetDeviceObject | smart_home/home.py:83-98 | the stored object when present, `ValueError` otherwise; `AddDevice` and `RemoveDevice` state their effect through it |
| Homes.Home.CountDevices | smart_home/home.py:100-107 | the number of stored devices, one per listed identifier |
| Homes.Home.CountDevicesByRoom | smart_home/home.py:109-123 | the number of devices placed in the room |
| Homes.Home.GetDevicesInRoom | smart_home/home.py:125-139 | in insertion order, exactly the identifiers of the devices placed in the room |
| IdSync.IdNumber | smart_home/persistence.py:34 | `int(dev_obj.id.split('_')[-1])`, `None` for the `ValueError` |
| IdSync.MaxSuffix | smart_home/persistence.py:28-43 | the accumulator `max_bulb_id` / `max_ac_id` after the loop; stated by `IdSync.MaxSuffixIsMax` |
| IdSync.CaughtOnLoad | smart_home/persistence.py:73 | the exception kinds the load routines catch |
| IdSync.MaxSuffixIsMax | smart_home/persistence.py:28-43 | the accumulator is at least -1, bounds every readable number of a device of its kind, and is -1 or one of those numbers |
| IdSync.OtherKindsIgnored | smart_home/persistence.py:35-40 | devices of other kinds do not affect a kind's accumulator |
| IdSync.NoCollision | smart_home/persistence.py:45-46 | no identifier numbered past the accumulator equals a loaded identifier of that kind |
| IdSync.NewBulbIdsAreFresh | smart_home/persistence.py:45 | bulb identifiers from the resynchronised counter are new |
| IdSync.NewAcIdsAreFresh | smart_home/persistence.py:46 | air-conditioner identifiers from the resynchronised counter are new |
| IdSync.Unparsable | smart_home/data_manager.py:29-31 | the warned identifiers are exactly those whose number cannot be read |
| Persistence.SynchronizeIdCounters | smart_home/persistence.py:23-47 | each counter restarts one past max(-1, the numbers read from loaded identifiers of its kind), and no later identifier collides with a loaded one |
| Persistence.LoadHomeFromJson | smart_home/persistence.py:50-76 | none for a missing file; a fresh home for a caught exception (`IOError`, `JSONDecodeError`, `KeyError`, `TypeError`) and the same exception for any other, counters untouched in both cases; otherwise the rebuilt home with resynchronised counters |
| DataManagement.SynchronizeIdCounters | smart_home/data_manager.py:15-35 | as the persistence loop, and the warnings list exactly the unreadable identifiers in order |
| DataManagement.LoadHomeFromJson | smart_home/data_manager.py:49-68 | none for a missing file; a home named "Recovery Home" for a caught exception and the same exception for any other, counters untouched and no warnings in both cases; otherwise the rebuilt home with resynchronised counters and its warnings |
| Hogares.EnHabitacion | distribucion_hogar/distribucion_hogar_adt.py:51-56 | the identifiers of the devices in a room, in insertion order; stated by `Hogares.EnHabitacionExacta` and `Hogares.EnHabitacionCuenta` |
| Hogares.EnHabitacionExacta | distribucion_hogar/distribucion_hogar_adt.py:51-56 | the devices counted for a room are exactly those placed in it, each once |
| Hogares.EnHabitacionCuenta | distribucion_hogar/distribucion_hogar_adt.py:51-56 | the per-room count is the size of the set of devices placed in the room |
| Hogares.Hogar.constructor | distribucion_hogar/distribucion_hogar_adt.py:2-4 | no rooms, no devices |
| Hogares.Hogar.AnadirHabitacion | distribucion_hogar/distribucion_hogar_adt.py:6-12 | `True` and appended exactly when the room is new; room names stay distinct |
| Hogares.Hogar.ObtenerHabitaciones | distribucion_hogar/distribucion_hogar_adt.py:14-15 | the room list, each room once in the order added, with every device's room among them; `AnadirHabitacion` extends it by exactly the new room and the device setters leave it unchanged |
| Hogares.Hogar.AnadirDispositivo | distribucion_hogar/distribucion_hogar_adt.py:17-25 | `False` and no change for an unknown room; otherwise the entry is written, overwriting a present identifier in place (count unchanged) or appending a new one; the device is then located in the given room, every other location is unchanged, and `ObtenerDispositivos` gains exactly a new identifier at the end |
| Hogares.Hogar.QuitarDispositivo | distribucion_hogar/distribucion_hogar_adt.py:27-33 | `True` exactly when the identifier was present, and then exactly that entry is gone; afterwards the identifier has no location, every other location is unchanged, and `ObtenerDispositivos` is the old listing with that identifier removed |
| Hogares.Hogar.ContarDispositivos | distribucion_hogar/distribucion_hogar_adt.py:48-49 | the number of stored devices, one per listed identifier |
| Hogares.Hogar.ContarDispositivosPorHabitacion | distribucion_hogar/distribucion_hogar_adt.py:51-56 | the number of devices placed in the room |
| Hogares.Hogar.IdentificarDispositivoUbicacion | distribucion_hogar/distribucion_hogar_adt.py:58-62 | the device's room (a known room) when present, none otherwise |
| Hogares.Hogar.ObtenerDispositivos | distribucion_hogar/distribucion_hogar_adt.py:64-65 | every stored identifier exactly once, in insertion order; `AnadirDispositivo` appends exactly a new identifier, and `QuitarDispositivo` removes exactly the given one |
| Bombillas.BombillaInteligente.constructor | bombilla_inteligente/bombilla_adt.py:2-6 | off, intensity 0, white, valid |
| Bombillas.BombillaInteligente.Encender | bombilla_inteligente/bombilla_adt.py:8-11 | on; a dark bulb jumps to 100; validity kept |
| Bombillas.BombillaInteligente.Apagar | bombilla_inteligente/bombilla_adt.py:13-15 | off with intensity 0; validity kept |
| Bombillas.BombillaInteligente.CambiarIntensidad | bombilla_inteligente/bombilla_adt.py:21-27 | `True` and set exactly for 0..100, else `False` and no change; validity kept |
| Bombillas.BombillaInteligente.CambiarColor | bombilla_inteligente/bombilla_adt.py:29-37 | `True` and all three channels set exactly when each is in 0..255, else `False` and no change; validity kept |
| AiresAcondicionados.AireAcondicionado.constructor | aire_acondicionado/aire_acondicionado_adt.py:2-4 | off at 24 degrees, in range |
| AiresAcondicionados.AireAcondicionado.Encender | aire_acondicionado/aire_acondicionado_adt.py:6-7 | on |
| AiresAcondicionados.AireAcondicionado.Apagar | aire_acondicionado/aire_acondicionado_adt.py:9-10 | off |
| AiresAcondicionados.AireAcondicionado.CambiarTemperatura | aire_acondicionado/aire_acondicionado_adt.py:16-22 | `True` and set exactly for 16..30 inclusive, else `False` and no change; the temperature stays in 16..30 |

## Left out

- File I/O, JSON encoding and decoding, `print` output, `__str__`, `get_status`, `obtener_estado` and `save_log` (`HistoryLog`): these are text formatting and side effects with no state the model tracks.
- `save_home_to_json` (both routines): it only writes `home.to_dict()` to a file.
- Home reconstruction during a load: `home.py` has no `from_dict`, `to_dict` or `get_all_devices`, so reading the file and rebuilding the home enter the load routines as the input `decoded`. It is either the rebuilt home's devices, as (kind, identifier) pairs, or the exception raised on the way. The routines catch only `IOError`, `json.JSONDecodeError`, `KeyError` and `TypeError`. Any other exception propagates to the caller and is returned as `Err`. That includes the `ValueError` of an empty room name or a repeated device identifier, and an `AttributeError` for the missing method.
- `Home.__init__` in `home.py` takes no name. `data_manager.py` calls `Home("Recovery Home")` and is written against a home class that does; the model follows `data_manager.py` and returns a recovery home with that name.
- `get_system_time` and the clock: `check_and_execute_schedule` reads `time.localtime()`, which is a parameter `now` here.
- Rooms.FromDict: assumes that the `from_dict` of each registered class decodes every record without raising, and takes the decoded devices as input. None of the device classes in the source (`Device`, `SmartBulb`, `AirConditioner`) defines `from_dict`, so with any of them registered, `room.py:67` would raise `AttributeError`, which `Room.from_dict` does not catch. The model does not represent an exception from that call, so its contract covers only the `KeyError` and `ValueError` paths.
- Device subclassing: `SmartBulb` and `AirConditioner` do not inherit from `Device` in the source; the device-class registry is modelled as the set of registered type tags.
- Rooms.Room.ToDict: the room is modelled over `device.py`'s `Device`, the type its methods are annotated with. The source's room reads only `device.id` when adding and looking up, so it also accepts `SmartBulb` and `AirConditioner` objects (`test_main.py` adds a bulb to a room). Rooms of those objects are outside the model, and so is the `AttributeError` that `Room.to_dict` raises on them, since neither class defines `to_dict`.
- Python default arguments: the model's callers pass every argument. The numeric defaults (`amount=1`, `temperature=24.0`) appear as the constants `DefaultStep` and `DefaultTemperature`. The name defaults `"Bulb_1"` and `"Bombilla_1"` have no constant; callers pass the name.
- Temperatures are real numbers, not floating point; rounding is not modelled.
- `Ids.ParseInt`: Python's `int` also accepts surrounding whitespace and digit characters of other scripts; the model accepts only an optional sign and ASCII digits.
- Bulbs.SmartBulb.ChangeColor: the colour dictionary is a shared mutable object in the source, so other holders of it see the change; the model stores the colour as a value and does not capture that aliasing.
- `Hogar.modificar_dispositivo`: not modelled. It sets an attribute, chosen by name, on the stored object, and the object type is generic here.
- Room, Home and Hogar keep dictionary order as a separate key sequence; the source's direct attribute access (`hogar.dispositivos[...] = ...` from outside) is not modelled, only the methods.
- `InvalidTimeError` is a subclass of `ValueError` in the source; it is a separate error value here, so a caller catching `ValueError` corresponds to matching either value.

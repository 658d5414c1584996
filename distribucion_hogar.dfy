/** The earlier home container (distribucion_hogar/distribucion_hogar_adt.py):
    the same room list and device table as smart_home/home.py, reporting
    failure with `False`/`None` instead of raising, and with no duplicate
    check when a device is added. */
module Hogares {
  import opened Basics
  import opened Sequences

  /** The value `{'objeto': ..., 'habitacion': ...}` stored per device. */
  datatype Ubicacion<T> = Ubicacion(objeto: T, habitacion: string)

  predicate Cubre<T>(orden: seq<string>, dispositivos: map<string, Ubicacion<T>>) {
    forall i :: 0 <= i < |orden| ==> orden[i] in dispositivos
  }

  /** The identifiers, in `orden`, of the devices in room `habitacion`. */
  function EnHabitacion<T>(orden: seq<string>, dispositivos: map<string, Ubicacion<T>>, habitacion: string): seq<string>
    requires Cubre(orden, dispositivos)
  {
    if orden == [] then []
    else
      var resto := EnHabitacion(orden[..|orden| - 1], dispositivos, habitacion);
      var id := orden[|orden| - 1];
      if dispositivos[id].habitacion == habitacion then resto + [id] else resto
  }

  /** Over distinct identifiers the listing has one entry per device in the
      room, so its length is the size of that set of devices. */
  lemma {:induction false} EnHabitacionCuenta<T>(orden: seq<string>, dispositivos: map<string, Ubicacion<T>>, habitacion: string)
    requires Cubre(orden, dispositivos) && Distinct(orden)
    requires forall id :: id in dispositivos <==> id in orden
    ensures |EnHabitacion(orden, dispositivos, habitacion)| ==
      |set id | id in dispositivos && dispositivos[id].habitacion == habitacion|
  {
    EnHabitacionExacta(orden, dispositivos, habitacion);
    DistinctSize(EnHabitacion(orden, dispositivos, habitacion),
                 set id | id in dispositivos && dispositivos[id].habitacion == habitacion);
  }

  lemma {:induction false} EnHabitacionExacta<T>(orden: seq<string>, dispositivos: map<string, Ubicacion<T>>, habitacion: string)
    requires Cubre(orden, dispositivos) && Distinct(orden)
    ensures Distinct(EnHabitacion(orden, dispositivos, habitacion))
    ensures forall id :: id in EnHabitacion(orden, dispositivos, habitacion) <==>
      id in orden && dispositivos[id].habitacion == habitacion
  {
    if orden != [] {
      var n := |orden|;
      EnHabitacionExacta(orden[..n - 1], dispositivos, habitacion);
      assert orden == orden[..n - 1] + [orden[n - 1]];
    }
  }

  class Hogar<T> {
    var habitaciones: seq<string>
    /** The keys of the `dispositivos` dictionary, in insertion order. */
    var orden: seq<string>
    var dispositivos: map<string, Ubicacion<T>>

    ghost predicate Valid()
      reads this
    {
      && Distinct(habitaciones) && Distinct(orden)
      && (forall id :: id in dispositivos <==> id in orden)
      && (forall id :: id in dispositivos ==> dispositivos[id].habitacion in habitaciones)
    }

    constructor ()
      ensures habitaciones == [] && orden == [] && dispositivos == map[] && Valid()
    {
      habitaciones, orden, dispositivos := [], [], map[];
    }

    method AnadirHabitacion(nombreHabitacion: string) returns (ok: bool)
      requires Valid()
      modifies this`habitaciones
      ensures Valid()
      ensures ok == (nombreHabitacion !in old(habitaciones))
      ensures habitaciones == if ok then old(habitaciones) + [nombreHabitacion] else old(habitaciones)
      ensures ObtenerHabitaciones() ==
        if ok then old(ObtenerHabitaciones()) + [nombreHabitacion] else old(ObtenerHabitaciones())
    {
      if nombreHabitacion !in habitaciones {
        habitaciones := habitaciones + [nombreHabitacion];
        return true;
      }
      return false;
    }

    /** Every room once, in the order added; every stored device sits in
        one of them. */
    function ObtenerHabitaciones(): (r: seq<string>)
      reads this
      requires Valid()
      ensures r == habitaciones
      ensures Distinct(r)
      ensures forall id :: id in dispositivos ==> dispositivos[id].habitacion in r
    {
      habitaciones
    }

    /** An unknown room is refused; otherwise the entry is written, replacing
        any entry with the same identifier in place. */
    method AnadirDispositivo(dispositivoId: string, dispositivoObjeto: T, habitacion: string) returns (ok: bool)
      requires Valid()
      modifies this`orden, this`dispositivos
      ensures Valid()
      ensures ok == (habitacion in habitaciones)
      ensures !ok ==> orden == old(orden) && dispositivos == old(dispositivos)
      ensures ok ==> dispositivos == old(dispositivos)[dispositivoId := Ubicacion(dispositivoObjeto, habitacion)]
      ensures ok ==> orden == if dispositivoId in old(dispositivos) then old(orden) else old(orden) + [dispositivoId]
      ensures dispositivoId in old(dispositivos) ==> |dispositivos| == old(|dispositivos|)
      ensures ok ==> IdentificarDispositivoUbicacion(dispositivoId) == Some(habitacion)
      ensures ok ==> forall x :: x != dispositivoId ==>
        IdentificarDispositivoUbicacion(x) == old(IdentificarDispositivoUbicacion(x))
      ensures ObtenerDispositivos() ==
        if ok && dispositivoId !in old(dispositivos) then old(ObtenerDispositivos()) + [dispositivoId]
        else old(ObtenerDispositivos())
      ensures ObtenerHabitaciones() == old(ObtenerHabitaciones())
    {
      if habitacion !in habitaciones {
        return false;
      }
      if dispositivoId !in dispositivos {
        orden := orden + [dispositivoId];
      }
      dispositivos := dispositivos[dispositivoId := Ubicacion(dispositivoObjeto, habitacion)];
      ok := true;
    }

    method QuitarDispositivo(dispositivoId: string) returns (ok: bool)
      requires Valid()
      modifies this`orden, this`dispositivos
      ensures Valid()
      ensures ok == (dispositivoId in old(dispositivos))
      ensures !ok ==> orden == old(orden) && dispositivos == old(dispositivos)
      ensures ok ==> dispositivos == old(dispositivos) - {dispositivoId} && orden == RemoveFirst(old(orden), dispositivoId)
      ensures IdentificarDispositivoUbicacion(dispositivoId) == None
      ensures forall x :: x != dispositivoId ==>
        IdentificarDispositivoUbicacion(x) == old(IdentificarDispositivoUbicacion(x))
      ensures ObtenerDispositivos() == RemoveFirst(old(ObtenerDispositivos()), dispositivoId)
      ensures ObtenerHabitaciones() == old(ObtenerHabitaciones())
    {
      if dispositivoId in dispositivos {
        RemoveFirstOfDistinct(orden, dispositivoId);
        dispositivos := dispositivos - {dispositivoId};
        orden := RemoveFirst(orden, dispositivoId);
        return true;
      }
      return false;
    }

    function ContarDispositivos(): (n: nat)
      reads this
      requires Valid()
      ensures n == |dispositivos| == |orden|
    {
      DistinctSize(orden, dispositivos.Keys);
      |dispositivos|
    }

    method ContarDispositivosPorHabitacion(habitacion: string) returns (count: nat)
      requires Valid()
      ensures count == |set id | id in dispositivos && dispositivos[id].habitacion == habitacion|
    {
      count := 0;
      var i := 0;
      while i < |orden|
        invariant 0 <= i <= |orden|
        invariant count == |EnHabitacion(orden[..i], dispositivos, habitacion)|
      {
        assert orden[..i + 1][..i] == orden[..i];
        if dispositivos[orden[i]].habitacion == habitacion {
          count := count + 1;
        }
        i := i + 1;
      }
      assert orden[..i] == orden;
      EnHabitacionCuenta(orden, dispositivos, habitacion);
    }

    function IdentificarDispositivoUbicacion(dispositivoId: string): (r: Option<string>)
      reads this
      requires Valid()
      ensures r.Some? <==> dispositivoId in dispositivos
      ensures r.Some? ==> r.value == dispositivos[dispositivoId].habitacion && r.value in habitaciones
    {
      if dispositivoId in dispositivos then Some(dispositivos[dispositivoId].habitacion) else None
    }

    /** `list(self.dispositivos.keys())`: every identifier once, in insertion
        order. */
    function ObtenerDispositivos(): (ids: seq<string>)
      reads this
      requires Valid()
      ensures ids == orden
      ensures Distinct(ids) && |ids| == |dispositivos|
      ensures forall id :: id in ids <==> id in dispositivos
    {
      DistinctSize(orden, dispositivos.Keys);
      orden
    }
  }
}

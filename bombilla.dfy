/** The earlier smart bulb (bombilla_inteligente/bombilla_adt.py): the
    rules of smart_home/smart_bulb.py, with setters that answer `True` or
    `False` instead of raising. */
module Bombillas {
  import opened Basics

  class BombillaInteligente {
    const nombre: string
    var encendida: bool
    var intensidad: int
    var color: Rgb

    /** Intensity within 0..100 and every channel within 0..255. */
    ghost predicate Valid()
      reads this
    {
      0 <= intensidad <= 100 && ColorOk(color)
    }

    constructor (nombre: string)
      ensures this.nombre == nombre && !encendida && intensidad == 0 && color == White && Valid()
    {
      this.nombre := nombre;
      encendida := false;
      intensidad := 0;
      color := White;
    }

    method Encender()
      requires Valid()
      modifies this`encendida, this`intensidad
      ensures Valid()
      ensures encendida && intensidad == if old(intensidad) == 0 then 100 else old(intensidad)
    {
      encendida := true;
      if intensidad == 0 {
        intensidad := 100;
      }
    }

    method Apagar()
      requires Valid()
      modifies this`encendida, this`intensidad
      ensures Valid()
      ensures !encendida && intensidad == 0
    {
      encendida := false;
      intensidad := 0;
    }

    method CambiarIntensidad(nivel: int) returns (ok: bool)
      requires Valid()
      modifies this`intensidad
      ensures Valid()
      ensures ok == (0 <= nivel <= 100)
      ensures intensidad == if ok then nivel else old(intensidad)
    {
      if 0 <= nivel <= 100 {
        intensidad := nivel;
        return true;
      }
      return false;
    }

    method CambiarColor(r: int, g: int, b: int) returns (ok: bool)
      requires Valid()
      modifies this`color
      ensures Valid()
      ensures ok == (ChannelOk(r) && ChannelOk(g) && ChannelOk(b))
      ensures color == if ok then Rgb(r, g, b) else old(color)
    {
      if ChannelOk(r) && ChannelOk(g) && ChannelOk(b) {
        color := Rgb(r, g, b);
        return true;
      }
      return false;
    }
  }
}

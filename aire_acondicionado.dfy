/** The earlier air conditioner (aire_acondicionado/aire_acondicionado_adt.py):
    it starts off at 24 degrees, and its one setter answers `False` and keeps
    the temperature for a value outside 16..30. */
module AiresAcondicionados {

  class AireAcondicionado {
    var temperatura: real
    var encendido: bool

    /** The temperature is within 16..30, both ends included. */
    ghost predicate Valid()
      reads this
    {
      16.0 <= temperatura <= 30.0
    }

    constructor ()
      ensures temperatura == 24.0 && !encendido && Valid()
    {
      temperatura := 24.0;
      encendido := false;
    }

    method Encender()
      modifies this`encendido
      ensures encendido
    {
      encendido := true;
    }

    method Apagar()
      modifies this`encendido
      ensures !encendido
    {
      encendido := false;
    }

    method CambiarTemperatura(nuevaTemperatura: real) returns (ok: bool)
      requires Valid()
      modifies this`temperatura
      ensures Valid()
      ensures ok == (16.0 <= nuevaTemperatura <= 30.0)
      ensures temperatura == if ok then nuevaTemperatura else old(temperatura)
    {
      if 16.0 <= nuevaTemperatura <= 30.0 {
        temperatura := nuevaTemperatura;
        return true;
      }
      return false;
    }
  }
}

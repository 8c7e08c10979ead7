// Enumerations of the database schema (src/types/database.types.ts) and the
// Option wrapper used for nullable columns and optional request fields.

module Tipos {

  /** A value that may be absent: a SQL NULL, a JSON field that was omitted,
      or a lookup that found no row. */
  datatype Option<+T> = None | Some(value: T) {
    function GetOr(default: T): T {
      match this
      case Some(v) => v
      case None => default
    }
  }

  /** RolUsuario */
  datatype Rol = Administrador | Operador | SoloLectura

  /** EstadoAlquiler */
  datatype EstadoAlquiler = Activo | Reserva | Devuelto | Cancelado | Vencido

  /** EstadoPieza */
  datatype EstadoPieza = Bueno | DanoLeve | NoEntrego

  /** MetodoPago */
  datatype MetodoPago = Efectivo | Yape | Plin | TransferenciaBcp | TransferenciaIbk | Tarjeta

  /** TemporadaTipo */
  datatype Temporada = Normal | Alta

  /** Money is kept as an integer number of centimos (1/100 of a sol). */
  type Centimos = int

  /** The text each payment method has in the database. */
  function MetodoTexto(m: MetodoPago): string {
    match m
    case Efectivo => "efectivo"
    case Yape => "yape"
    case Plin => "plin"
    case TransferenciaBcp => "transferencia_bcp"
    case TransferenciaIbk => "transferencia_ibk"
    case Tarjeta => "tarjeta"
  }

  /** Reads a payment-method tag back; None for a text outside the enum. */
  function LeerMetodo(s: string): (r: Option<MetodoPago>)
    ensures r.Some? ==> MetodoTexto(r.value) == s
    ensures forall m :: MetodoTexto(m) == s ==> r == Some(m)
  {
    if s == "efectivo" then Some(Efectivo)
    else if s == "yape" then Some(Yape)
    else if s == "plin" then Some(Plin)
    else if s == "transferencia_bcp" then Some(TransferenciaBcp)
    else if s == "transferencia_ibk" then Some(TransferenciaIbk)
    else if s == "tarjeta" then Some(Tarjeta)
    else None
  }

  /** Distinct methods have distinct tags, so grouping by tag is grouping by method. */
  lemma MetodoTextoInyectivo(a: MetodoPago, b: MetodoPago)
    requires MetodoTexto(a) == MetodoTexto(b)
    ensures a == b
  {
    assert LeerMetodo(MetodoTexto(a)) == Some(a);
  }
}

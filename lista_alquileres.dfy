// The rental list page of the dashboard: the rows loaded with their client's
// and costume's names, the filter by state and by search text, and the
// colour badge of each state.

module ListaAlquileres {
  import opened Tipos
  import opened Texto
  import opened Listas

  /** A row of the list: the `alquileres` columns and the names the join brings
      (None when the joined row or its name is missing). */
  datatype Alquiler = Alquiler(
    id: string, clienteId: string, disfrazId: string,
    fechaRetiro: string, fechaVencimiento: string, estado: string,
    totalCobrado: Centimos, montoAdelanto: Centimos,
    nombreCliente: Option<string>, nombreDisfraz: Option<string>)

  /** The text each rental state has in the database. */
  function EstadoTexto(e: EstadoAlquiler): string {
    match e
    case Activo => "activo"
    case Reserva => "reserva"
    case Devuelto => "devuelto"
    case Cancelado => "cancelado"
    case Vencido => "vencido"
  }

  // ---- Filter ---------------------------------------------------------------

  /** `x?.nombre?.toLowerCase() || ''` */
  function NombreBuscable(n: Option<string>): string {
    match n
    case None => ""
    case Some(x) => Minusculas(x)
  }

  /** `!filtroEstado || a.estado === filtroEstado` */
  predicate CoincideEstado(a: Alquiler, filtroEstado: string) {
    filtroEstado == "" || a.estado == filtroEstado
  }

  /** `!busqueda || nombreCliente.includes(q) || nombreDisfraz.includes(q)`, q lower-cased. */
  predicate CoincideBusqueda(a: Alquiler, busqueda: string) {
    busqueda == ""
    || Contiene(NombreBuscable(a.nombreCliente), Minusculas(busqueda))
    || Contiene(NombreBuscable(a.nombreDisfraz), Minusculas(busqueda))
  }

  /** `filtered`: the rows that pass both filters, in load order. */
  function Filtrados(alquileres: seq<Alquiler>, filtroEstado: string, busqueda: string): (r: seq<Alquiler>)
    ensures Subsecuencia(r, alquileres)
    ensures forall a :: a in r <==> a in alquileres && CoincideEstado(a, filtroEstado) && CoincideBusqueda(a, busqueda)
  {
    FiltrarEnOrden(alquileres, (a: Alquiler) => CoincideEstado(a, filtroEstado) && CoincideBusqueda(a, busqueda));
    Filtrar(alquileres, (a: Alquiler) => CoincideEstado(a, filtroEstado) && CoincideBusqueda(a, busqueda))
  }

  /** With no state chosen and no search text the whole list is shown. */
  lemma SinFiltrosSeVeTodo(alquileres: seq<Alquiler>)
    ensures Filtrados(alquileres, "", "") == alquileres
  {
    FiltrarTodos(alquileres, (a: Alquiler) => CoincideEstado(a, "") && CoincideBusqueda(a, ""));
  }

  /** With a state chosen, every row shown has that state, and no row of that
      state that matches the search is hidden. */
  lemma FiltroPorEstado(alquileres: seq<Alquiler>, filtroEstado: string, busqueda: string)
    requires filtroEstado != ""
    ensures forall i :: 0 <= i < |Filtrados(alquileres, filtroEstado, busqueda)| ==>
      Filtrados(alquileres, filtroEstado, busqueda)[i].estado == filtroEstado
    ensures forall i :: 0 <= i < |alquileres| && alquileres[i].estado == filtroEstado && CoincideBusqueda(alquileres[i], busqueda) ==>
      alquileres[i] in Filtrados(alquileres, filtroEstado, busqueda)
  {
    var r := Filtrados(alquileres, filtroEstado, busqueda);
    forall i | 0 <= i < |r|
      ensures r[i].estado == filtroEstado
    {
      assert r[i] in r;
    }
  }

  /** A row whose client and costume names are both missing is never found by
      a non-empty search: a missing name is searched as the empty text. */
  lemma SinNombresNoSeEncuentra(a: Alquiler, busqueda: string)
    requires a.nombreCliente.None? && a.nombreDisfraz.None? && busqueda != ""
    ensures !CoincideBusqueda(a, busqueda)
  {
    assert |Minusculas(busqueda)| > 0;
  }

  /** The search ignores the case of what is typed. */
  lemma BusquedaSinMayusculas(a: Alquiler, busqueda: string)
    ensures CoincideBusqueda(a, Minusculas(busqueda)) <==> CoincideBusqueda(a, busqueda)
  {
    MinusculasIdempotente(busqueda);
  }

  /** The options of the state filter: every state but `vencido`. */
  const OpcionesDeEstado: seq<string> := ["", "activo", "reserva", "devuelto", "cancelado"]

  /** An overdue rental is listed only when no state is chosen. */
  lemma VencidosSoloSinFiltro(alquileres: seq<Alquiler>, filtroEstado: string, busqueda: string, i: nat)
    requires filtroEstado in OpcionesDeEstado
    requires i < |alquileres| && alquileres[i].estado == EstadoTexto(Vencido)
    requires alquileres[i] in Filtrados(alquileres, filtroEstado, busqueda)
    ensures filtroEstado == ""
  {
    assert CoincideEstado(alquileres[i], filtroEstado);
  }

  // ---- State badge ------------------------------------------------------------

  /** The background, text colour and label of a state badge. */
  datatype Insignia = Insignia(bg: string, color: string, etiqueta: string)

  /** The `estilos` table: only four states have an entry. */
  function Estilos(estado: string): (r: Option<Insignia>)
    ensures r.Some? <==> estado in {"activo", "reserva", "devuelto", "cancelado"}
    ensures r.Some? ==> r.value.etiqueta != ""
  {
    if estado == "activo" then Some(Insignia("rgba(39,174,96,0.15)", "#27AE60", "Activo"))
    else if estado == "reserva" then Some(Insignia("rgba(41,128,185,0.15)", "#2980B9", "Reserva"))
    else if estado == "devuelto" then Some(Insignia("rgba(201,168,76,0.15)", "#C9A84C", "Devuelto"))
    else if estado == "cancelado" then Some(Insignia("rgba(192,57,43,0.15)", "#E74C3C", "Cancelado"))
    else None
  }

  /** `getEstadoBadge`: the table entry, or the `activo` entry when there is none. */
  function EstadoBadge(estado: string): Insignia {
    Estilos(estado).GetOr(Estilos("activo").value)
  }

  /** The four listed states get their own background, colour and label;
      every other text, `vencido` included, gets the `activo` badge. */
  lemma EtiquetasDeEstado(estado: string)
    ensures estado == "activo" ==> EstadoBadge(estado) == Insignia("rgba(39,174,96,0.15)", "#27AE60", "Activo")
    ensures estado == "reserva" ==> EstadoBadge(estado) == Insignia("rgba(41,128,185,0.15)", "#2980B9", "Reserva")
    ensures estado == "devuelto" ==> EstadoBadge(estado) == Insignia("rgba(201,168,76,0.15)", "#C9A84C", "Devuelto")
    ensures estado == "cancelado" ==> EstadoBadge(estado) == Insignia("rgba(192,57,43,0.15)", "#E74C3C", "Cancelado")
    ensures estado !in {"activo", "reserva", "devuelto", "cancelado"} ==> EstadoBadge(estado) == EstadoBadge("activo")
  {
  }

  /** An overdue rental cannot be told apart from an active one by its badge,
      while any two other distinct states can. */
  lemma InsigniaDeVencido(e1: EstadoAlquiler, e2: EstadoAlquiler)
    ensures EstadoBadge(EstadoTexto(Vencido)) == EstadoBadge(EstadoTexto(Activo))
    ensures e1 != Vencido && e2 != Vencido && e1 != e2 ==>
      EstadoBadge(EstadoTexto(e1)).etiqueta != EstadoBadge(EstadoTexto(e2)).etiqueta
  {
  }
}

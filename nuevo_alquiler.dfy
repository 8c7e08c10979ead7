// The new-rental page of the dashboard: a three-step wizard (client, costume,
// dates and payment) whose state lives in React state hooks. The page writes
// the rental and its payment straight into the tables, without going through
// the registration Edge Function, so none of that function's checks apply.
//
// The hooks are the fields of `Asistente`; every event handler is a method,
// and the effect that recomputes the due date and the season runs at the end
// of the handlers that change its dependencies. Query results, insert
// outcomes and generated ids are parameters of the handlers.

module NuevoAlquiler {
  import opened Tipos
  import opened Texto
  import opened Fechas
  import opened Listas

  /** A `clientes` row as the page keeps it. */
  datatype ClienteFila = ClienteFila(id: string, nombre: string, dni: string, whatsapp: string)

  /** A `disfraces` row as the page keeps it. */
  datatype DisfrazFila = DisfrazFila(
    id: string, nombre: string, danza: string, talla: string,
    precioBase: Centimos, precioTemporada: Centimos, stockDisponible: int)

  /** The new-client form. */
  datatype DatosCliente = DatosCliente(nombre: string, dni: string, whatsapp: string)

  /** The `alquileres` row the page inserts. */
  datatype AlquilerNuevo = AlquilerNuevo(
    clienteId: string, disfrazId: string, fechaRetiro: string, fechaVencimiento: string,
    estado: EstadoAlquiler, totalCobrado: Centimos, montoAdelanto: Centimos, notas: Option<string>)

  /** The `pagos` row the page inserts; the method is free text here. */
  datatype PagoNuevo = PagoNuevo(
    clienteId: string, alquilerId: Option<string>, monto: Centimos, metodo: string, concepto: string)

  /** The options of the payment-method select. */
  const MetodosPago: seq<string> := ["efectivo", "yape", "plin", "transferencia", "tarjeta"]

  /** The select offers a method the `metodo_pago` enum does not have. */
  lemma TransferenciaFueraDelEnum()
    ensures "transferencia" in MetodosPago && LeerMetodo("transferencia").None?
  {
    assert MetodosPago[3] == "transferencia";
  }

  // ---- Due date and season ----------------------------------------------

  /** The due date the effect writes: pickup plus three calendar days, as
      `toISOString().split('T')[0]` renders it. */
  function Vencimiento(retiro: Fecha): string
    requires Valida(retiro)
  {
    EscribirFecha(SumarDias(retiro, DiasDePrestamo))
  }

  /** `vence.setDate(vence.getDate() + 3)` */
  const DiasDePrestamo: nat := 3

  /** The written due date reads back as the day three days after the
      pickup, and so never precedes it (for a due date before the year 10000,
      whose rendering has four digits). */
  lemma VencimientoTresDias(retiro: Fecha)
    requires Valida(retiro) && SumarDias(retiro, DiasDePrestamo).anio < 10000
    ensures LeerFecha(Vencimiento(retiro)).Some?
    ensures var v := LeerFecha(Vencimiento(retiro)).value;
      NumeroDeDia(v) == NumeroDeDia(retiro) + 3 && AntesCivil(retiro, v)
  {
    FechaTrasDias(retiro, DiasDePrestamo);
  }

  /** A date n > 0 days ahead, written and read back, is that day, after f. */
  lemma FechaTrasDias(f: Fecha, n: nat)
    requires Valida(f) && n > 0 && SumarDias(f, n).anio < 10000
    ensures LeerFecha(EscribirFecha(SumarDias(f, n))) == Some(SumarDias(f, n))
    ensures AntesCivil(f, SumarDias(f, n))
  {
    var v := SumarDias(f, n);
    LeerEscribirFecha(v);
    OrdenDeDias(f, v);
  }

  /** `retiro.getMonth()`: the zero-based month index of the pickup. */
  function IndiceMes(f: Fecha): int { f.mes as int - 1 }

  /** `mes >= 5 && mes <= 8` */
  predicate TemporadaPorMes(f: Fecha) {
    5 <= IndiceMes(f) <= 8
  }

  /** High season is June to September of the pickup's calendar month. */
  lemma TemporadaJunioASetiembre(f: Fecha)
    ensures TemporadaPorMes(f) <==> 6 <= f.mes <= 9
  {
  }

  /** The month `getMonth()` reads in a browser: `new Date("YYYY-MM-DD")` is
      midnight UTC, so west of Greenwich (Lima is UTC-5) the local clock still
      shows the evening of the previous day. */
  function MesLocal(f: Fecha, alOesteDeUTC: bool): int {
    if alOesteDeUTC && f.dia == 1 then (if f.mes == 1 then 12 else f.mes - 1)
    else f.mes
  }

  /** The season as the page computes it in the user's browser. */
  predicate TemporadaEnNavegador(f: Fecha, alOesteDeUTC: bool) {
    5 <= MesLocal(f, alOesteDeUTC) - 1 <= 8
  }

  /** In Lima a pickup on June 1 is priced as low season and one on October 1
      as high season, the opposite of the calendar months. */
  lemma TemporadaDesfasadaEnLima()
    ensures TemporadaPorMes(Fecha(2025, 6, 1)) && !TemporadaEnNavegador(Fecha(2025, 6, 1), true)
    ensures !TemporadaPorMes(Fecha(2025, 10, 1)) && TemporadaEnNavegador(Fecha(2025, 10, 1), true)
  {
  }

  /** Only the first of a month is read wrongly, and never east of Greenwich. */
  lemma TemporadaDesfasadaSoloElDiaUno(f: Fecha, alOesteDeUTC: bool)
    requires !alOesteDeUTC || f.dia != 1
    ensures TemporadaEnNavegador(f, alOesteDeUTC) <==> TemporadaPorMes(f)
  {
  }

  /** `precioTotal`: nothing without a costume, otherwise the season price or
      the base price. */
  function PrecioTotal(d: Option<DisfrazFila>, esTemporada: bool): (p: Centimos)
    ensures d.None? ==> p == 0
    ensures d.Some? && esTemporada ==> p == d.value.precioTemporada
    ensures d.Some? && !esTemporada ==> p == d.value.precioBase
  {
    match d
    case None => 0
    case Some(x) => if esTemporada then x.precioTemporada else x.precioBase
  }

  // ---- Searches ---------------------------------------------------------

  /** The client search only runs for two characters or more. */
  predicate DisparaBusqueda(q: string) { |q| >= 2 }

  /** The costume filter: name or dance contains the search text, both lower-cased. */
  predicate CoincideDisfraz(d: DisfrazFila, q: string) {
    Contiene(Minusculas(d.nombre), Minusculas(q)) || Contiene(Minusculas(d.danza), Minusculas(q))
  }

  /** The costumes the second step lists, in load order. */
  function DisfracesVisibles(ds: seq<DisfrazFila>, q: string): (r: seq<DisfrazFila>)
    ensures Subsecuencia(r, ds)
    ensures forall d :: d in r <==> d in ds && CoincideDisfraz(d, q)
  {
    FiltrarEnOrden(ds, (d: DisfrazFila) => CoincideDisfraz(d, q));
    Filtrar(ds, (d: DisfrazFila) => CoincideDisfraz(d, q))
  }

  /** An empty search lists every loaded costume. */
  lemma BusquedaVaciaMuestraTodo(ds: seq<DisfrazFila>)
    ensures DisfracesVisibles(ds, "") == ds
  {
    forall i | 0 <= i < |ds|
      ensures CoincideDisfraz(ds[i], "")
    {
      ContieneVacio(Minusculas(ds[i].nombre));
    }
    FiltrarTodos(ds, (d: DisfrazFila) => CoincideDisfraz(d, ""));
  }

  /** The search ignores case: typing the text in capitals or not lists the same costumes. */
  lemma BusquedaSinMayusculas(ds: seq<DisfrazFila>, q: string)
    ensures DisfracesVisibles(ds, Minusculas(q)) == DisfracesVisibles(ds, q)
  {
    MinusculasIdempotente(q);
    FiltrarIgual(ds, (d: DisfrazFila) => CoincideDisfraz(d, Minusculas(q)), (d: DisfrazFila) => CoincideDisfraz(d, q));
  }

  // ---- Guards and rows ----------------------------------------------------

  /** `crearCliente` needs all three fields non-empty. */
  predicate DatosClienteCompletos(n: DatosCliente) {
    n.nombre != "" && n.dni != "" && n.whatsapp != ""
  }

  /** `notas || null` */
  function NotasGuardadas(notas: string): (r: Option<string>)
    ensures r.None? <==> notas == ""
    ensures r.Some? ==> r.value == notas
  {
    if notas == "" then None else Some(notas)
  }

  /** The form state of the wizard, one component per state hook. */
  datatype Formulario = Formulario(
    paso: nat, mensaje: string,
    busquedaCliente: string, clientes: seq<ClienteFila>, clienteSeleccionado: Option<ClienteFila>,
    nuevoCliente: DatosCliente, mostrarNuevoCliente: bool,
    disfraces: seq<DisfrazFila>, disfrazSeleccionado: Option<DisfrazFila>, busquedaDisfraz: string,
    fechaRetiro: string, fechaVence: string, esReserva: bool, esTemporada: bool,
    montoAdelanto: Centimos, metodoPago: string, notas: string)

  /** The state after the effect that runs when the costume or the pickup date
      changes: with both set, the due date and the season follow the pickup. */
  function ConEfecto(f: Formulario): (g: Formulario)
    ensures f.disfrazSeleccionado.Some? && LeerFecha(f.fechaRetiro).Some? ==>
      g == f.(fechaVence := Vencimiento(LeerFecha(f.fechaRetiro).value),
               esTemporada := TemporadaPorMes(LeerFecha(f.fechaRetiro).value))
    ensures f.disfrazSeleccionado.None? || LeerFecha(f.fechaRetiro).None? ==> g == f
  {
    if f.disfrazSeleccionado.Some? && f.fechaRetiro != "" then
      match LeerFecha(f.fechaRetiro)
      case Some(r) => f.(fechaVence := Vencimiento(r), esTemporada := TemporadaPorMes(r))
      case None => f
    else f
  }

  /** Once the effect has run, the price is the season price exactly when the
      pickup falls in June to September. */
  lemma PrecioSegunRetiro(f: Formulario)
    requires f.disfrazSeleccionado.Some? && LeerFecha(f.fechaRetiro).Some?
    ensures var g := ConEfecto(f);
      var d := f.disfrazSeleccionado.value;
      var mes := LeerFecha(f.fechaRetiro).value.mes;
      PrecioTotal(g.disfrazSeleccionado, g.esTemporada)
        == (if 6 <= mes <= 9 then d.precioTemporada else d.precioBase)
  {
    TemporadaJunioASetiembre(LeerFecha(f.fechaRetiro).value);
  }

  /** The wizard's step is 1, 2 or 3, and a step past the first needs a
      client, the third also a costume. */
  predicate PasoValido(f: Formulario) {
    1 <= f.paso <= 3
    && (f.paso >= 2 ==> f.clienteSeleccionado.Some?)
    && (f.paso == 3 ==> f.disfrazSeleccionado.Some?)
  }

  /** `guardarAlquiler` needs a client, a costume and both dates. */
  predicate ListoParaGuardar(f: Formulario) {
    f.clienteSeleccionado.Some? && f.disfrazSeleccionado.Some? && f.fechaRetiro != "" && f.fechaVence != ""
  }

  /** The rental row built from the form. */
  function FilaAlquiler(f: Formulario): AlquilerNuevo
    requires ListoParaGuardar(f)
  {
    AlquilerNuevo(
      f.clienteSeleccionado.value.id, f.disfrazSeleccionado.value.id, f.fechaRetiro, f.fechaVence,
      if f.esReserva then Reserva else Activo,
      PrecioTotal(f.disfrazSeleccionado, f.esTemporada), f.montoAdelanto, NotasGuardadas(f.notas))
  }

  /** The saved rental is a reservation or active as the checkbox says, and
      charges the price shown, whatever the deposit. */
  lemma FilaDelFormulario(f: Formulario)
    requires ListoParaGuardar(f)
    ensures var a := FilaAlquiler(f);
      && (a.estado == Reserva <==> f.esReserva)
      && (a.estado == Activo <==> !f.esReserva)
      && a.totalCobrado == PrecioTotal(f.disfrazSeleccionado, f.esTemporada)
      && a.montoAdelanto == f.montoAdelanto
      && a.clienteId == f.clienteSeleccionado.value.id && a.disfrazId == f.disfrazSeleccionado.value.id
      && a.fechaRetiro == f.fechaRetiro && a.fechaVencimiento == f.fechaVence
      && (a.notas.None? <==> f.notas == "")
  {
  }

  /** The page applies no payment policy: a rental handed over with nothing
      paid is saved as active with its full price and no payment row. */
  lemma SinPoliticaDePago(f: Formulario)
    requires ListoParaGuardar(f) && !f.esReserva && f.montoAdelanto == 0
    requires PrecioTotal(f.disfrazSeleccionado, f.esTemporada) > 0
    ensures FilaAlquiler(f).estado == Activo
    ensures FilaAlquiler(f).montoAdelanto < FilaAlquiler(f).totalCobrado
  {
  }

  /** The payment row `guardarAlquiler` leaves behind once the rental is in:
      one `adelanto` row for a positive deposit, unless its insert failed.
      The page never reads that insert's `error`, so `errorPago` is the
      insert's outcome; it fails for instance on a method outside the
      `metodo_pago` enum, such as `transferencia`. */
  function PagoDelAdelanto(f: Formulario, ultimoId: Option<string>, errorPago: bool): (r: seq<PagoNuevo>)
    requires f.clienteSeleccionado.Some?
    ensures |r| <= 1
    ensures r != [] <==> f.montoAdelanto > 0 && !errorPago
    ensures r != [] ==>
      && r[0].monto == f.montoAdelanto > 0 && r[0].metodo == f.metodoPago
      && r[0].clienteId == f.clienteSeleccionado.value.id && r[0].alquilerId == ultimoId && r[0].concepto == "adelanto"
  {
    if f.montoAdelanto > 0 && !errorPago
    then [PagoNuevo(f.clienteSeleccionado.value.id, ultimoId, f.montoAdelanto, f.metodoPago, "adelanto")]
    else []
  }

  /** A deposit paid with `transferencia` is outside the enum, so its payment
      insert fails; the rental keeps its deposit while no payment row
      records it. */
  lemma AdelantoSinPago(f: Formulario, ultimoId: Option<string>)
    requires ListoParaGuardar(f) && f.montoAdelanto > 0 && f.metodoPago == "transferencia"
    ensures LeerMetodo(f.metodoPago).None?
    ensures FilaAlquiler(f).montoAdelanto == f.montoAdelanto > 0
    ensures PagoDelAdelanto(f, ultimoId, true) == []
  {
    TransferenciaFueraDelEnum();
  }

  class Asistente {
    var paso: nat
    var mensaje: string
    var busquedaCliente: string
    var clientes: seq<ClienteFila>
    var clienteSeleccionado: Option<ClienteFila>
    var nuevoCliente: DatosCliente
    var mostrarNuevoCliente: bool
    var disfraces: seq<DisfrazFila>
    var disfrazSeleccionado: Option<DisfrazFila>
    var busquedaDisfraz: string
    var fechaRetiro: string
    var fechaVence: string
    var esReserva: bool
    var esTemporada: bool
    var montoAdelanto: Centimos
    var metodoPago: string
    var notas: string

    /** The tables the page inserts into. */
    var clientesCreados: seq<ClienteFila>
    var alquileres: seq<AlquilerNuevo>
    var pagos: seq<PagoNuevo>

    function Estado(): Formulario
      reads this
    {
      Formulario(paso, mensaje, busquedaCliente, clientes, clienteSeleccionado, nuevoCliente,
        mostrarNuevoCliente, disfraces, disfrazSeleccionado, busquedaDisfraz, fechaRetiro,
        fechaVence, esReserva, esTemporada, montoAdelanto, metodoPago, notas)
    }

    /** The rows inserted so far, in the clients, rentals and payments tables. */
    function Tablas(): (seq<ClienteFila>, seq<AlquilerNuevo>, seq<PagoNuevo>)
      reads this
    {
      (clientesCreados, alquileres, pagos)
    }

    predicate Valido()
      reads this
    {
      PasoValido(Estado())
    }

    /** The initial state of every hook; `disponibles` is what `cargarDisfraces` loads. */
    constructor(disponibles: seq<DisfrazFila>)
      ensures Valido()
      ensures Estado() == Formulario(1, "", "", [], None, DatosCliente("", "", ""), false,
        disponibles, None, "", "", "", false, false, 0, "efectivo", "")
      ensures clientesCreados == [] && alquileres == [] && pagos == []
    {
      paso := 1;
      mensaje := "";
      busquedaCliente := "";
      clientes := [];
      clienteSeleccionado := None;
      nuevoCliente := DatosCliente("", "", "");
      mostrarNuevoCliente := false;
      disfraces := disponibles;
      disfrazSeleccionado := None;
      busquedaDisfraz := "";
      fechaRetiro := "";
      fechaVence := "";
      esReserva := false;
      esTemporada := false;
      montoAdelanto := 0;
      metodoPago := "efectivo";
      notas := "";
      clientesCreados := [];
      alquileres := [];
      pagos := [];
    }

    /** The effect on the costume and the pickup date. */
    method AplicarEfecto()
      modifies this
      ensures Estado() == ConEfecto(old(Estado()))
      ensures Tablas() == old(Tablas())
    {
      if disfrazSeleccionado.Some? && fechaRetiro != "" {
        var r := LeerFecha(fechaRetiro);
        if r.Some? {
          fechaVence := Vencimiento(r.value);
          esTemporada := TemporadaPorMes(r.value);
        }
      }
    }

    /** "Siguiente": enabled in step 1 only with a client, in step 2 only with a costume. */
    method Avanzar()
      requires Valido()
      modifies this
      ensures Valido()
      ensures old(paso) == 1 && old(clienteSeleccionado).Some? ==> Estado() == old(Estado()).(paso := 2)
      ensures old(paso) == 2 && old(disfrazSeleccionado).Some? ==> Estado() == old(Estado()).(paso := 3)
      ensures !(old(paso) == 1 && old(clienteSeleccionado).Some?) && !(old(paso) == 2 && old(disfrazSeleccionado).Some?)
        ==> Estado() == old(Estado())
      ensures Tablas() == old(Tablas())
    {
      if paso == 1 && clienteSeleccionado.Some? {
        paso := 2;
      } else if paso == 2 && disfrazSeleccionado.Some? {
        paso := 3;
      }
    }

    /** "Atrás": from step 2 to 1 and from step 3 to 2. */
    method Retroceder()
      requires Valido()
      modifies this
      ensures Valido()
      ensures Estado() == old(Estado()).(paso := if old(paso) > 1 then old(paso) - 1 else old(paso))
      ensures Tablas() == old(Tablas())
    {
      if paso > 1 {
        paso := paso - 1;
      }
    }

    /** Typing in the client search box; the query runs (and its rows, `encontrados`,
        replace the list) only from two characters on. */
    method EscribirBusquedaCliente(q: string, encontrados: seq<ClienteFila>)
      requires Valido()
      modifies this
      ensures Valido()
      ensures DisparaBusqueda(q) ==> Estado() == old(Estado()).(busquedaCliente := q, clientes := encontrados)
      ensures !DisparaBusqueda(q) ==> Estado() == old(Estado()).(busquedaCliente := q)
      ensures Tablas() == old(Tablas())
    {
      busquedaCliente := q;
      if DisparaBusqueda(q) {
        clientes := encontrados;
      }
    }

    /** Clicking a client of the list selects it and clears the search. */
    method SeleccionarCliente(c: ClienteFila)
      requires Valido()
      modifies this
      ensures Valido()
      ensures Estado() == old(Estado()).(clienteSeleccionado := Some(c), busquedaCliente := "")
      ensures Tablas() == old(Tablas())
    {
      clienteSeleccionado := Some(c);
      busquedaCliente := "";
    }

    /** The "new client" button toggles the form. */
    method AlternarNuevoCliente()
      requires Valido()
      modifies this
      ensures Valido()
      ensures Estado() == old(Estado()).(mostrarNuevoCliente := !old(mostrarNuevoCliente))
      ensures Tablas() == old(Tablas())
    {
      mostrarNuevoCliente := !mostrarNuevoCliente;
    }

    /** Typing in the new-client form. */
    method EscribirNuevoCliente(n: DatosCliente)
      requires Valido()
      modifies this
      ensures Valido()
      ensures Estado() == old(Estado()).(nuevoCliente := n)
      ensures Tablas() == old(Tablas())
    {
      nuevoCliente := n;
    }

    /** `crearCliente`: refuses incomplete data; otherwise inserts the client
        (`id` is the id the database assigns, `error` the insert's error) and
        selects it. */
    method CrearCliente(id: string, error: Option<string>)
      requires Valido()
      modifies this
      ensures Valido()
      ensures !DatosClienteCompletos(old(nuevoCliente)) ==>
        Estado() == old(Estado()).(mensaje := "Completa todos los campos") && clientesCreados == old(clientesCreados)
      ensures DatosClienteCompletos(old(nuevoCliente)) && error.Some? ==>
        Estado() == old(Estado()).(mensaje := error.value) && clientesCreados == old(clientesCreados)
      ensures DatosClienteCompletos(old(nuevoCliente)) && error.None? ==>
        var c := ClienteFila(id, old(nuevoCliente).nombre, old(nuevoCliente).dni, old(nuevoCliente).whatsapp);
        Estado() == old(Estado()).(clienteSeleccionado := Some(c), mostrarNuevoCliente := false)
        && clientesCreados == old(clientesCreados) + [c]
      ensures alquileres == old(alquileres) && pagos == old(pagos)
    {
      if !DatosClienteCompletos(nuevoCliente) {
        mensaje := "Completa todos los campos";
        return;
      }
      if error.Some? {
        mensaje := error.value;
        return;
      }
      SeleccionarCreado(ClienteFila(id, nuevoCliente.nombre, nuevoCliente.dni, nuevoCliente.whatsapp));
    }

    /** After a successful insert: the returned row is the selected client and the form closes. */
    method SeleccionarCreado(c: ClienteFila)
      requires Valido()
      modifies this
      ensures Valido()
      ensures Estado() == old(Estado()).(clienteSeleccionado := Some(c), mostrarNuevoCliente := false)
      ensures clientesCreados == old(clientesCreados) + [c]
      ensures alquileres == old(alquileres) && pagos == old(pagos)
    {
      clientesCreados := clientesCreados + [c];
      clienteSeleccionado := Some(c);
      mostrarNuevoCliente := false;
    }

    /** Typing in the costume search box. */
    method EscribirBusquedaDisfraz(q: string)
      requires Valido()
      modifies this
      ensures Valido()
      ensures Estado() == old(Estado()).(busquedaDisfraz := q)
      ensures Tablas() == old(Tablas())
    {
      busquedaDisfraz := q;
    }

    /** Clicking a costume selects it. The effect runs only when the selection
        changes: setting a state hook to the value it already holds leaves the
        state alone and does not rerun the effects that depend on it. The
        costume list is loaded once, so the same row is the same object. */
    method SeleccionarDisfraz(d: DisfrazFila)
      requires Valido()
      modifies this
      ensures Valido()
      ensures old(disfrazSeleccionado) == Some(d) ==> Estado() == old(Estado())
      ensures old(disfrazSeleccionado) != Some(d) ==>
        Estado() == ConEfecto(old(Estado()).(disfrazSeleccionado := Some(d)))
      ensures Tablas() == old(Tablas())
    {
      if disfrazSeleccionado != Some(d) {
        disfrazSeleccionado := Some(d);
        AplicarEfecto();
      }
    }

    /** Picking the pickup date; the effect runs when the date changes. */
    method FijarRetiro(s: string)
      requires Valido()
      modifies this
      ensures Valido()
      ensures old(fechaRetiro) == s ==> Estado() == old(Estado())
      ensures old(fechaRetiro) != s ==> Estado() == ConEfecto(old(Estado()).(fechaRetiro := s))
      ensures Tablas() == old(Tablas())
    {
      if fechaRetiro != s {
        fechaRetiro := s;
        AplicarEfecto();
      }
    }

    /** Editing the due date by hand; the effect does not run, so the date stays as typed. */
    method FijarVence(s: string)
      requires Valido()
      modifies this
      ensures Valido()
      ensures Estado() == old(Estado()).(fechaVence := s)
      ensures Tablas() == old(Tablas())
    {
      fechaVence := s;
    }

    /** The reservation checkbox. */
    method FijarReserva(v: bool)
      requires Valido()
      modifies this
      ensures Valido()
      ensures Estado() == old(Estado()).(esReserva := v)
      ensures Tablas() == old(Tablas())
    {
      esReserva := v;
    }

    /** The deposit field (`Number(e.target.value)`; the `min={0}` of the input is only a hint to the browser). */
    method FijarAdelanto(v: Centimos)
      requires Valido()
      modifies this
      ensures Valido()
      ensures Estado() == old(Estado()).(montoAdelanto := v)
      ensures Tablas() == old(Tablas())
    {
      montoAdelanto := v;
    }

    /** The payment-method select. */
    method FijarMetodo(v: string)
      requires Valido()
      modifies this
      ensures Valido()
      ensures Estado() == old(Estado()).(metodoPago := v)
      ensures Tablas() == old(Tablas())
    {
      metodoPago := v;
    }

    /** The notes field. */
    method FijarNotas(v: string)
      requires Valido()
      modifies this
      ensures Valido()
      ensures Estado() == old(Estado()).(notas := v)
      ensures Tablas() == old(Tablas())
    {
      notas := v;
    }

    /** `guardarAlquiler`: refuses an incomplete form; otherwise inserts the
        rental (`error` is the insert's error) and, when a deposit was
        entered, its payment, linked to `ultimoId`, the id of the most
        recently created rental. `errorPago` is whether the payment insert
        failed: the page does not look, and reports success either way. */
    method GuardarAlquiler(error: Option<string>, ultimoId: Option<string>, errorPago: bool)
      requires Valido()
      modifies this
      ensures Valido()
      ensures !ListoParaGuardar(old(Estado())) ==>
        Estado() == old(Estado()).(mensaje := "Completa todos los campos")
        && alquileres == old(alquileres) && pagos == old(pagos)
      ensures ListoParaGuardar(old(Estado())) && error.Some? ==>
        Estado() == old(Estado()).(mensaje := MensajeDeError(error.value))
        && alquileres == old(alquileres) && pagos == old(pagos)
      ensures ListoParaGuardar(old(Estado())) && error.None? ==>
        Estado() == old(Estado()).(mensaje := "Alquiler guardado correctamente")
        && alquileres == old(alquileres) + [FilaAlquiler(old(Estado()))]
        && pagos == old(pagos) + PagoDelAdelanto(old(Estado()), ultimoId, errorPago)
      ensures clientesCreados == old(clientesCreados)
    {
      if !ListoParaGuardar(Estado()) {
        mensaje := "Completa todos los campos";
        return;
      }
      mensaje := "";
      if error.Some? {
        mensaje := MensajeDeError(error.value);
        return;
      }
      Insertar(ultimoId, errorPago);
      mensaje := "Alquiler guardado correctamente";
    }

    /** The two inserts of `guardarAlquiler`: the rental, then the payment when
        a deposit was entered, which is stored only if its insert succeeds. */
    method Insertar(ultimoId: Option<string>, errorPago: bool)
      requires ListoParaGuardar(Estado())
      modifies this
      ensures Estado() == old(Estado())
      ensures alquileres == old(alquileres) + [FilaAlquiler(old(Estado()))]
      ensures pagos == old(pagos) + PagoDelAdelanto(Estado(), ultimoId, errorPago)
      ensures clientesCreados == old(clientesCreados)
    {
      alquileres := alquileres + [FilaAlquiler(Estado())];
      if montoAdelanto > 0 && !errorPago {
        pagos := pagos + [PagoNuevo(clienteSeleccionado.value.id, ultimoId, montoAdelanto, metodoPago, "adelanto")];
      }
    }
  }
}

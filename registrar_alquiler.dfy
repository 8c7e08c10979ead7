// The rental-registration Edge Function (registrar-alquiler): its domain
// validators, the confirmation-text composer, the fixed ladder of checks that
// rejects a request, and the rows it writes when the request is accepted.
//
// The handler is modelled twice, as the source invites: `Decidir` is the pure
// decision from a request and the rows the handler reads to either a rejection
// or the bundle of rows to insert, and `Almacen.Registrar` is the step-by-step
// early-return chain over the store's tables, proved to follow `Decidir`.

module RegistrarAlquiler {
  import opened Tipos
  import opened Texto
  import opened Fechas
  import opened Listas

  // ---- Domain validators ------------------------------------------------

  /** /^\d{8}$/ */
  function ValidarDNI(dni: string): (ok: bool)
    ensures ok <==> |dni| == 8 && forall i :: 0 <= i < |dni| ==> EsDigito(dni[i])
  {
    |dni| == 8 && TodosDigitos(dni)
  }

  /** /^\+51\d{9}$/ */
  function ValidarWhatsApp(numero: string): (ok: bool)
    ensures ok <==> |numero| == 12 && numero[..3] == "+51"
                    && forall i :: 3 <= i < |numero| ==> EsDigito(numero[i])
  {
    |numero| == 12 && numero[..3] == "+51" && TodosDigitos(numero[3..])
  }

  /** Every accepted number is "+51" followed by nine digits, twelve characters in all,
      and every such text is accepted. */
  lemma WhatsAppEsPrefijoMasNueveDigitos(numero: string)
    ensures ValidarWhatsApp(numero) <==>
      exists d :: |d| == 9 && TodosDigitos(d) && numero == "+51" + d
  {
    if ValidarWhatsApp(numero) {
      var d := numero[3..];
      assert numero == "+51" + d;
    }
    if exists d :: |d| == 9 && TodosDigitos(d) && numero == "+51" + d {
      var d :| |d| == 9 && TodosDigitos(d) && numero == "+51" + d;
      assert numero[..3] == "+51" && numero[3..] == d;
    }
  }

  /** The date text parses to a real calendar day: what is accepted is the
      rendering of a valid date ... */
  function ValidarFecha(fecha: string): (ok: bool)
    ensures ok ==> exists f :: Valida(f) && f.anio < 10000 && EscribirFecha(f) == fecha
  {
    if LeerFecha(fecha).Some? then
      LeerFechaExacta(fecha);
      true
    else false
  }

  /** ... and the rendering of every valid date with a four-digit year is accepted. */
  lemma ValidarFechaCompleta(f: Fecha)
    requires Valida(f) && f.anio < 10000
    ensures ValidarFecha(EscribirFecha(f))
  {
    LeerEscribirFecha(f);
  }

  // ---- Confirmation text --------------------------------------------------

  datatype DatosMensaje = DatosMensaje(
    nombre: string,
    disfraz: string,
    talla: string,
    fechaVencimiento: string,
    montoTotal: Centimos,
    montoPagado: Centimos,
    saldoPendiente: Centimos,
    esReserva: bool,
    fechaRetiro: string)

  /** Lines joined by newlines, as a template literal spread over lines reads. */
  function Unir(lineas: seq<string>): string {
    if |lineas| == 0 then ""
    else if |lineas| == 1 then lineas[0]
    else lineas[0] + "\n" + Unir(lineas[1..])
  }

  /** Every line of a joined text occurs in it. */
  lemma {:induction false} UnirContiene(lineas: seq<string>, i: nat)
    requires i < |lineas|
    ensures Contiene(Unir(lineas), lineas[i])
    decreases |lineas|
  {
    var u := Unir(lineas);
    if |lineas| == 1 {
      assert u[0..0 + |lineas[0]|] == lineas[0];
      ContieneEn(u, lineas[0], 0);
    } else if i == 0 {
      assert u[0..0 + |lineas[0]|] == lineas[0];
      ContieneEn(u, lineas[0], 0);
    } else {
      var resto := Unir(lineas[1..]);
      UnirContiene(lineas[1..], i - 1);
      ContienePosicion(resto, lineas[i]);
      var k: nat :| OcurreEn(resto, lineas[i], k);
      var d := |lineas[0]| + 1;
      assert u == (lineas[0] + "\n") + resto;
      assert u[d + k..d + k + |lineas[i]|] == resto[k..k + |lineas[i]|];
      ContieneEn(u, lineas[i], d + k);
    }
  }

  /** The lines of the confirmation text; `Unir` of them is the message. */
  function LineasMensaje(p: DatosMensaje): (ls: seq<string>)
    ensures |ls| > 5 && ls[2] == "Hola " + p.nombre + " 👋"
    ensures ls[5] == "• *Traje:* " + p.disfraz + " (Talla " + p.talla + ")"
  {
    if p.esReserva then
      [ "🎭 *¡Reserva confirmada! - SisDisfraz Perú*",
        "",
        "Hola " + p.nombre + " 👋",
        "",
        "Tu reserva está asegurada:",
        "• *Traje:* " + p.disfraz + " (Talla " + p.talla + ")",
        "• *Fecha de recojo:* " + p.fechaRetiro,
        "• *Fecha de devolución:* " + p.fechaVencimiento,
        "",
        "💰 *Detalle de pago:*",
        "• Total: S/ " + FormatoCentimos(p.montoTotal),
        "• Adelanto pagado: S/ " + FormatoCentimos(p.montoPagado),
        "• Saldo al recoger: S/ " + FormatoCentimos(p.saldoPendiente),
        "",
        "¡Te esperamos! 🎊" ]
    else
      [ "🎭 *¡Alquiler confirmado! - SisDisfraz Perú*",
        "",
        "Hola " + p.nombre + " 👋",
        "",
        "Gracias por tu alquiler:",
        "• *Traje:* " + p.disfraz + " (Talla " + p.talla + ")",
        "• *Devolver antes del:* " + p.fechaVencimiento + " hasta las 7 PM",
        "",
        "💰 *Total pagado:* S/ " + FormatoCentimos(p.montoTotal),
        "",
        "Cuida bien el traje. ¡Que lo disfrutes! 🎉" ]
  }

  /** mensajeConfirmacionAlquiler: the reservation template or the rental template. */
  function MensajeConfirmacionAlquiler(p: DatosMensaje): (m: string)
    ensures Contiene(m, "Hola " + p.nombre + " 👋")
    ensures Contiene(m, "• *Traje:* " + p.disfraz + " (Talla " + p.talla + ")")
  {
    var ls := LineasMensaje(p);
    UnirContiene(ls, 2);
    UnirContiene(ls, 5);
    Unir(ls)
  }

  /** The reservation text greets the client, names the costume, its size and
      both dates, and shows the total, the deposit and the balance, each
      rendered with two decimals. */
  lemma MensajeReservaCompleto(p: DatosMensaje)
    requires p.esReserva
    ensures var m := MensajeConfirmacionAlquiler(p);
      && Contiene(m, "Hola " + p.nombre + " 👋")
      && Contiene(m, "• *Traje:* " + p.disfraz + " (Talla " + p.talla + ")")
      && Contiene(m, "• *Fecha de recojo:* " + p.fechaRetiro)
      && Contiene(m, "• *Fecha de devolución:* " + p.fechaVencimiento)
      && Contiene(m, "• Total: S/ " + FormatoCentimos(p.montoTotal))
      && Contiene(m, "• Adelanto pagado: S/ " + FormatoCentimos(p.montoPagado))
      && Contiene(m, "• Saldo al recoger: S/ " + FormatoCentimos(p.saldoPendiente))
  {
    var ls := LineasMensaje(p);
    UnirContiene(ls, 2);
    UnirContiene(ls, 5);
    UnirContiene(ls, 6);
    UnirContiene(ls, 7);
    UnirContiene(ls, 10);
    UnirContiene(ls, 11);
    UnirContiene(ls, 12);
  }

  /** The rental text names the costume, the return date and the total, and
      nothing of the deposit, the balance or the pickup date: changing those
      leaves the text as it is. */
  lemma MensajeAlquilerSoloTotal(p: DatosMensaje, pagado: Centimos, saldo: Centimos, retiro: string)
    requires !p.esReserva
    ensures var m := MensajeConfirmacionAlquiler(p);
      && Contiene(m, "• *Traje:* " + p.disfraz + " (Talla " + p.talla + ")")
      && Contiene(m, "• *Devolver antes del:* " + p.fechaVencimiento + " hasta las 7 PM")
      && Contiene(m, "💰 *Total pagado:* S/ " + FormatoCentimos(p.montoTotal))
      && m == MensajeConfirmacionAlquiler(p.(montoPagado := pagado, saldoPendiente := saldo, fechaRetiro := retiro))
  {
    var ls := LineasMensaje(p);
    UnirContiene(ls, 5);
    UnirContiene(ls, 6);
    UnirContiene(ls, 8);
  }

  // ---- Rows read by the handler ------------------------------------------

  /** A `disfraces` row, with the columns the handler selects and `activo`. */
  datatype Disfraz = Disfraz(
    id: string,
    nombre: string,
    talla: string,
    precioBase: Centimos,
    precioTemporadaAlta: Centimos,
    stockDisponible: int,
    activo: bool)

  datatype Cliente = Cliente(id: string, nombre: string, whatsapp: string)

  /** A `piezas_disfraz` row: one template piece of a costume. */
  datatype PiezaDisfraz = PiezaDisfraz(id: string, disfrazId: string, nombre: string)

  // ---- The request ---------------------------------------------------------

  /** The JSON body. An empty text stands for a field that is missing or empty
      (both falsy); `esReserva` and `montoAdelanto` keep the difference
      between an omitted field and a present one. */
  datatype Cuerpo = Cuerpo(
    clienteId: string,
    disfrazId: string,
    esReserva: Option<bool>,
    fechaRetiro: string,
    fechaVencimiento: string,
    montoAdelanto: Option<Centimos>,
    metodoPago: MetodoPago,
    fotoDniUrl: Option<string>,
    notas: Option<string>,
    referenciaPago: Option<string>,
    numeroOrigen: Option<string>)

  /** One call of the handler: the Authorization header, what the identity
      service and the `perfiles` lookup return, the body, the results of the
      two SQL functions (whose bodies are not part of this model) and whether
      the `alquileres` insert reports an error. */
  datatype Solicitud = Solicitud(
    autorizacion: Option<string>,
    usuario: Option<string>,
    rolPerfil: Option<Rol>,
    cuerpo: Cuerpo,
    precioCalculado: Centimos,
    temporadaAlta: bool,
    falloInsercion: bool)

  /** `es_reserva` is truthy. */
  predicate EsReserva(c: Cuerpo) {
    c.esReserva == Some(true)
  }

  /** `monto_adelanto ?? precio`: an omitted deposit defaults to the full price. */
  function Adelanto(c: Cuerpo, precio: Centimos): Centimos {
    c.montoAdelanto.GetOr(precio)
  }

  /** Math.max(0, precio - adelanto) */
  function Saldo(precio: Centimos, adelanto: Centimos): (s: Centimos)
    ensures s >= 0 && s >= precio - adelanto
    ensures s == 0 || s == precio - adelanto
  {
    if precio - adelanto > 0 then precio - adelanto else 0
  }

  // ---- Rows written ----------------------------------------------------------

  datatype FilaAlquiler = FilaAlquiler(
    id: nat,
    clienteId: string,
    disfrazId: string,
    operadorId: string,
    esReserva: bool,
    estado: EstadoAlquiler,
    temporadaAplicada: Temporada,
    fechaRetiro: string,
    fechaVencimiento: string,
    precioCalculado: Centimos,
    montoAdelanto: Centimos,
    saldoPendiente: Centimos,
    totalCobrado: Centimos,
    fotoDniUrl: Option<string>,
    notas: Option<string>)

  datatype FilaPago = FilaPago(
    alquilerId: nat,
    operadorId: string,
    metodo: MetodoPago,
    monto: Centimos,
    concepto: string,
    referencia: Option<string>,
    numeroOrigen: Option<string>)

  datatype FilaAlquilerPieza = FilaAlquilerPieza(
    alquilerId: nat,
    piezaId: string,
    nombrePieza: string,
    estadoSalida: EstadoPieza)

  /** `datos_despues` of the audit entry; `es_reserva` is copied from the body as sent. */
  datatype DatosAuditoria = DatosAuditoria(
    alquilerId: nat,
    clienteId: string,
    disfrazId: string,
    precio: Centimos,
    esReserva: Option<bool>)

  datatype FilaAuditoria = FilaAuditoria(
    usuarioId: string,
    accion: string,
    tabla: string,
    registroId: nat,
    datosDespues: DatosAuditoria)

  datatype FilaNotificacion = FilaNotificacion(
    alquilerId: nat,
    clienteId: string,
    tipo: string,
    mensaje: string,
    enviado: bool)

  /** Everything one accepted request inserts, table by table. */
  datatype Filas = Filas(
    alquiler: FilaAlquiler,
    pago: FilaPago,
    piezas: seq<FilaAlquilerPieza>,
    auditoria: FilaAuditoria,
    notificacion: FilaNotificacion)

  /** The `alquiler` object of the 201 response. */
  datatype Resumen = Resumen(
    id: nat,
    estado: EstadoAlquiler,
    precioCalculado: Centimos,
    temporadaAplicada: Temporada,
    montoAdelanto: Centimos,
    saldoPendiente: Centimos,
    whatsappEncolado: bool)

  /** Why a request was turned away. The two payment failures carry the price
      that their messages quote. */
  datatype Falla =
    | NoAutorizado
    | UsuarioNoEncontrado
    | SinPermisos
    | FaltanCampos
    | FechaInvalida
    | VencimientoAnterior
    | DisfrazNoEncontrado
    | SinStock
    | ContadoIncompleto(precio: Centimos)
    | ReservaInsuficiente(precio: Centimos)
    | ClienteNoEncontrado
    | ErrorInsercion

  datatype Resultado = Rechazado(falla: Falla) | Registrado(filas: Filas, resumen: Resumen)

  /** The HTTP status each outcome is answered with. The two thrown errors
      (no user behind the token, a failed rental insert) reach the catch-all 500. */
  function CodigoHttp(f: Falla): int {
    match f
    case NoAutorizado => 401
    case UsuarioNoEncontrado => 500
    case SinPermisos => 403
    case FaltanCampos => 400
    case FechaInvalida => 400
    case VencimientoAnterior => 400
    case DisfrazNoEncontrado => 404
    case SinStock => 409
    case ContadoIncompleto(_) => 400
    case ReservaInsuficiente(_) => 400
    case ClienteNoEncontrado => 404
    case ErrorInsercion => 500
  }

  function Status(r: Resultado): int {
    match r
    case Rechazado(f) => CodigoHttp(f)
    case Registrado(_, _) => 201
  }

  /** The `piezas_disfraz` rows of one costume, in table order. */
  function PiezasDe(piezas: seq<PiezaDisfraz>, disfrazId: string): seq<PiezaDisfraz> {
    Filtrar(piezas, (p: PiezaDisfraz) => p.disfrazId == disfrazId)
  }

  /** piezas.map(...): one checklist row per template piece, leaving in good state. */
  function FilasChecklist(alquilerId: nat, piezas: seq<PiezaDisfraz>): (r: seq<FilaAlquilerPieza>)
    ensures |r| == |piezas|
    ensures forall i :: 0 <= i < |r| ==>
      r[i] == FilaAlquilerPieza(alquilerId, piezas[i].id, piezas[i].nombre, Bueno)
  {
    if piezas == [] then []
    else [FilaAlquilerPieza(alquilerId, piezas[0].id, piezas[0].nombre, Bueno)]
         + FilasChecklist(alquilerId, piezas[1..])
  }

  /** What every rental row written by the handler satisfies. */
  predicate Coherente(a: FilaAlquiler) {
    && (a.estado == Reserva || a.estado == Activo)
    && a.esReserva == (a.estado == Reserva)
    && a.totalCobrado == a.montoAdelanto
    && a.saldoPendiente == Saldo(a.precioCalculado, a.montoAdelanto)
    && (a.estado == Activo ==> a.montoAdelanto >= a.precioCalculado && a.saldoPendiente == 0)
    && (a.estado == Reserva ==> 100 * a.montoAdelanto >= 30 * a.precioCalculado)
  }

  /** The rows of one accepted request, for the rental with id `id`. */
  predicate FilasBienFormadas(f: Filas, id: nat) {
    && f.alquiler.id == id && Coherente(f.alquiler)
    && f.pago.alquilerId == id && f.pago.monto == f.alquiler.montoAdelanto
    && (forall i :: 0 <= i < |f.piezas| ==> f.piezas[i].alquilerId == id && f.piezas[i].estadoSalida == Bueno)
    && f.auditoria.registroId == id
    && f.notificacion.alquilerId == id && !f.notificacion.enviado
  }

  /** The written tables are consistent: every rental is coherent and keyed
      by its position, every dependent row points at an existing rental, and
      no notification has been sent. */
  predicate TablasValidas(
    alquileres: seq<FilaAlquiler>, pagos: seq<FilaPago>, piezas: seq<FilaAlquilerPieza>,
    auditoria: seq<FilaAuditoria>, notificaciones: seq<FilaNotificacion>)
  {
    && (forall i :: 0 <= i < |alquileres| ==> alquileres[i].id == i && Coherente(alquileres[i]))
    && (forall i :: 0 <= i < |pagos| ==> pagos[i].alquilerId < |alquileres|)
    && (forall i :: 0 <= i < |piezas| ==> piezas[i].alquilerId < |alquileres| && piezas[i].estadoSalida == Bueno)
    && (forall i :: 0 <= i < |auditoria| ==> auditoria[i].registroId < |alquileres|)
    && (forall i :: 0 <= i < |notificaciones| ==>
          notificaciones[i].alquilerId < |alquileres| && !notificaciones[i].enviado)
  }

  /** Appending the rows of one accepted request, numbered after the last
      rental, keeps the tables consistent. */
  lemma AgregarFilas(
    alquileres: seq<FilaAlquiler>, pagos: seq<FilaPago>, piezas: seq<FilaAlquilerPieza>,
    auditoria: seq<FilaAuditoria>, notificaciones: seq<FilaNotificacion>, f: Filas)
    requires TablasValidas(alquileres, pagos, piezas, auditoria, notificaciones)
    requires FilasBienFormadas(f, |alquileres|)
    ensures TablasValidas(alquileres + [f.alquiler], pagos + [f.pago], piezas + f.piezas,
                          auditoria + [f.auditoria], notificaciones + [f.notificacion])
  {
    var ps := piezas + f.piezas;
    forall i | 0 <= i < |ps|
      ensures ps[i].alquilerId < |alquileres| + 1 && ps[i].estadoSalida == Bueno
    {
      if i >= |piezas| {
        assert ps[i] == f.piezas[i - |piezas|];
      }
    }
  }

  /** The rows an accepted request writes. */
  function FilasDe(s: Solicitud, d: Disfraz, cl: Cliente, piezas: seq<PiezaDisfraz>, id: nat): (r: Filas)
    requires s.usuario.Some?
    ensures r.alquiler.id == id && r.pago.alquilerId == id && r.auditoria.registroId == id
    ensures r.notificacion.alquilerId == id && !r.notificacion.enviado
    ensures r.pago.monto == r.alquiler.montoAdelanto == Adelanto(s.cuerpo, s.precioCalculado)
    ensures forall i :: 0 <= i < |r.piezas| ==> r.piezas[i].alquilerId == id
  {
    var c := s.cuerpo;
    var usuario := s.usuario.value;
    var precio := s.precioCalculado;
    var adelanto := Adelanto(c, precio);
    var saldo := Saldo(precio, adelanto);
    var temporada := if s.temporadaAlta then Alta else Normal;
    var alquiler := FilaAlquiler(
      id, c.clienteId, c.disfrazId, usuario,
      c.esReserva.GetOr(false),
      if EsReserva(c) then Reserva else Activo,
      temporada, c.fechaRetiro, c.fechaVencimiento,
      precio, adelanto, saldo, adelanto,
      c.fotoDniUrl, c.notas);
    var pago := FilaPago(
      id, usuario, c.metodoPago, adelanto,
      if EsReserva(c) then "Adelanto de reserva (30%)" else "Pago completo alquiler contado",
      c.referenciaPago, c.numeroOrigen);
    var auditoria := FilaAuditoria(
      usuario, "ALQUILER_CREADO", "alquileres", id,
      DatosAuditoria(id, c.clienteId, c.disfrazId, precio, c.esReserva));
    var texto := MensajeConfirmacionAlquiler(DatosMensaje(
      cl.nombre, d.nombre, d.talla, c.fechaVencimiento,
      precio, adelanto, saldo, c.esReserva.GetOr(false), c.fechaRetiro));
    var notificacion := FilaNotificacion(
      id, c.clienteId,
      if EsReserva(c) then "confirmacion_reserva" else "confirmacion_reserva",
      texto, false);
    Filas(alquiler, pago, FilasChecklist(id, PiezasDe(piezas, c.disfrazId)), auditoria, notificacion)
  }

  /** The rows built for an accepted payment are well formed: the rental
      row is coherent and every dependent row points at it. */
  lemma FilasDeBienFormadas(s: Solicitud, d: Disfraz, cl: Cliente, piezas: seq<PiezaDisfraz>, id: nat)
    requires s.usuario.Some? && PagoAceptado(s.cuerpo, s.precioCalculado)
    ensures FilasBienFormadas(FilasDe(s, d, cl, piezas, id), id)
  {
  }

  /** The rental row records the request as sent: reservation or active by
      the flag (absent means no), the computed price, the deposit (the full
      price when omitted) as both deposit and amount collected, and the
      clamped balance; the single payment row carries the same amount, and
      the audit entry names the new rental. */
  lemma FilaAlquilerYPago(s: Solicitud, d: Disfraz, cl: Cliente, piezas: seq<PiezaDisfraz>, id: nat)
    requires s.usuario.Some?
    ensures var f := FilasDe(s, d, cl, piezas, id);
      var c := s.cuerpo;
      var a := f.alquiler;
      var adelanto := c.montoAdelanto.GetOr(s.precioCalculado);
      && a.id == id && a.clienteId == c.clienteId && a.disfrazId == c.disfrazId
      && a.operadorId == s.usuario.value
      && a.esReserva == (c.esReserva == Some(true))
      && a.estado == (if c.esReserva == Some(true) then Reserva else Activo)
      && a.temporadaAplicada == (if s.temporadaAlta then Alta else Normal)
      && a.precioCalculado == s.precioCalculado
      && a.montoAdelanto == adelanto && a.totalCobrado == adelanto
      && a.saldoPendiente >= 0
      && a.saldoPendiente == (if adelanto < s.precioCalculado then s.precioCalculado - adelanto else 0)
      && f.pago.alquilerId == id && f.pago.monto == adelanto && f.pago.metodo == c.metodoPago
      && f.pago.concepto == (if a.estado == Reserva then "Adelanto de reserva (30%)" else "Pago completo alquiler contado")
      && f.auditoria.accion == "ALQUILER_CREADO" && f.auditoria.registroId == id
      && f.auditoria.datosDespues.alquilerId == id && f.auditoria.datosDespues.precio == s.precioCalculado
  {
  }

  /** One checklist row per template piece of the rented costume, in order,
      each with the piece's name and leaving in good state; a costume with no
      template pieces gets no rows. */
  lemma ChecklistDeSalida(s: Solicitud, d: Disfraz, cl: Cliente, piezas: seq<PiezaDisfraz>, id: nat)
    requires s.usuario.Some?
    ensures var f := FilasDe(s, d, cl, piezas, id);
      var plantilla := PiezasDe(piezas, s.cuerpo.disfrazId);
      && |f.piezas| == |plantilla|
      && (forall i :: 0 <= i < |f.piezas| ==>
            && f.piezas[i].alquilerId == id
            && f.piezas[i].piezaId == plantilla[i].id
            && f.piezas[i].nombrePieza == plantilla[i].nombre
            && f.piezas[i].estadoSalida == Bueno)
      && (forall i :: 0 <= i < |plantilla| ==> plantilla[i] in piezas && plantilla[i].disfrazId == s.cuerpo.disfrazId)
      && (forall i :: 0 <= i < |piezas| && piezas[i].disfrazId == s.cuerpo.disfrazId ==> piezas[i] in plantilla)
      && (f.piezas == [] <==> plantilla == [])
  {
  }

  /** The queued notification is unsent and of type `confirmacion_reserva`
      whether or not the request is a reservation; for a reservation its
      text names the pickup date and shows total, deposit and balance, and
      otherwise it shows the total paid. */
  lemma NotificacionEncolada(s: Solicitud, d: Disfraz, cl: Cliente, piezas: seq<PiezaDisfraz>, id: nat)
    requires s.usuario.Some?
    ensures var f := FilasDe(s, d, cl, piezas, id);
      var c := s.cuerpo;
      var adelanto := Adelanto(c, s.precioCalculado);
      var n := f.notificacion;
      && n.alquilerId == id && n.clienteId == c.clienteId
      && !n.enviado && n.tipo == "confirmacion_reserva"
      && Contiene(n.mensaje, "Hola " + cl.nombre + " 👋")
      && (EsReserva(c) ==>
            && Contiene(n.mensaje, "• *Fecha de recojo:* " + c.fechaRetiro)
            && Contiene(n.mensaje, "• Total: S/ " + FormatoCentimos(s.precioCalculado))
            && Contiene(n.mensaje, "• Adelanto pagado: S/ " + FormatoCentimos(adelanto))
            && Contiene(n.mensaje, "• Saldo al recoger: S/ " + FormatoCentimos(Saldo(s.precioCalculado, adelanto))))
      && (!EsReserva(c) ==> Contiene(n.mensaje, "💰 *Total pagado:* S/ " + FormatoCentimos(s.precioCalculado)))
  {
    var c := s.cuerpo;
    var adelanto := Adelanto(c, s.precioCalculado);
    var p := DatosMensaje(
      cl.nombre, d.nombre, d.talla, c.fechaVencimiento,
      s.precioCalculado, adelanto, Saldo(s.precioCalculado, adelanto), c.esReserva.GetOr(false), c.fechaRetiro);
    assert FilasDe(s, d, cl, piezas, id).notificacion.mensaje == MensajeConfirmacionAlquiler(p);
    UnirContiene(LineasMensaje(p), 2);
    if EsReserva(c) {
      MensajeReservaCompleto(p);
    } else {
      MensajeAlquilerSoloTotal(p, p.montoPagado, p.saldoPendiente, p.fechaRetiro);
    }
  }

  function ResumenDe(f: FilaAlquiler): Resumen {
    Resumen(f.id, f.estado, f.precioCalculado, f.temporadaAplicada, f.montoAdelanto, f.saldoPendiente, true)
  }

  /** The payment policy: a rental is paid in full, a reservation leaves at
      least 30% of the price as deposit. */
  predicate PagoAceptado(c: Cuerpo, precio: Centimos): (b: bool)
    ensures precio >= 0 && Adelanto(c, precio) >= precio ==> b
    ensures b && precio >= 0 ==> 100 * Adelanto(c, precio) >= 30 * precio
    ensures b && !EsReserva(c) ==> Adelanto(c, precio) >= precio
  {
    var adelanto := Adelanto(c, precio);
    if EsReserva(c) then 100 * adelanto >= 30 * precio else adelanto >= precio
  }

  /** The handler's checks in the source's order; the first that fails
      decides the rejection, and None means every check passed. */
  function Rechazo(s: Solicitud, disfraces: map<string, Disfraz>, clientes: map<string, Cliente>): (r: Option<Falla>)
    ensures r.None? ==>
      var c := s.cuerpo;
      var adelanto := Adelanto(c, s.precioCalculado);
      && s.autorizacion.Some? && s.autorizacion.value != ""
      && s.usuario.Some?
      && (s.rolPerfil == Some(Administrador) || s.rolPerfil == Some(Operador))
      && LeerFecha(c.fechaRetiro).Some? && LeerFecha(c.fechaVencimiento).Some?
      && !AntesCivil(LeerFecha(c.fechaVencimiento).value, LeerFecha(c.fechaRetiro).value)
      && c.disfrazId in disfraces && disfraces[c.disfrazId].activo
      && disfraces[c.disfrazId].stockDisponible >= 1
      && PagoAceptado(c, s.precioCalculado)
      && c.clienteId in clientes
      && !s.falloInsercion
  {
    var c := s.cuerpo;
    if s.autorizacion.None? || s.autorizacion.value == "" then Some(NoAutorizado)
    else if s.usuario.None? then Some(UsuarioNoEncontrado)
    else if s.rolPerfil.None? || s.rolPerfil.value !in {Administrador, Operador} then Some(SinPermisos)
    else if c.clienteId == "" || c.disfrazId == "" || c.fechaRetiro == "" || c.fechaVencimiento == "" then
      Some(FaltanCampos)
    else if !ValidarFecha(c.fechaRetiro) || !ValidarFecha(c.fechaVencimiento) then Some(FechaInvalida)
    else
      var retiro := LeerFecha(c.fechaRetiro).value;
      var vence := LeerFecha(c.fechaVencimiento).value;
      OrdenDeDias(vence, retiro);
      if NumeroDeDia(vence) < NumeroDeDia(retiro) then Some(VencimientoAnterior)
      else if c.disfrazId !in disfraces || !disfraces[c.disfrazId].activo then Some(DisfrazNoEncontrado)
      else if disfraces[c.disfrazId].stockDisponible < 1 then Some(SinStock)
      else
        var precio := s.precioCalculado;
        var adelanto := Adelanto(c, precio);
        if !EsReserva(c) && adelanto < precio then Some(ContadoIncompleto(precio))
        else if EsReserva(c) && 100 * adelanto < 30 * precio then Some(ReservaInsuficiente(precio))
        else if c.clienteId !in clientes then Some(ClienteNoEncontrado)
        else if s.falloInsercion then Some(ErrorInsercion)
        else None
  }

  /** The handler as a decision: the first failing check rejects the request;
      otherwise the rows to insert, with the new rental's id `nuevoId`. */
  function Decidir(
    s: Solicitud,
    disfraces: map<string, Disfraz>,
    clientes: map<string, Cliente>,
    piezas: seq<PiezaDisfraz>,
    nuevoId: nat): (r: Resultado)
    ensures r.Rechazado? <==> Rechazo(s, disfraces, clientes).Some?
    ensures r.Rechazado? ==> Rechazo(s, disfraces, clientes) == Some(r.falla)
    ensures r.Registrado? ==>
      && s.usuario.Some? && s.cuerpo.disfrazId in disfraces && s.cuerpo.clienteId in clientes
      && r.filas == FilasDe(s, disfraces[s.cuerpo.disfrazId], clientes[s.cuerpo.clienteId], piezas, nuevoId)
      && FilasBienFormadas(r.filas, nuevoId)
      && r.resumen == ResumenDe(r.filas.alquiler)
  {
    match Rechazo(s, disfraces, clientes)
    case Some(f) => Rechazado(f)
    case None =>
      var c := s.cuerpo;
      var filas := FilasDe(s, disfraces[c.disfrazId], clientes[c.clienteId], piezas, nuevoId);
      FilasDeBienFormadas(s, disfraces[c.disfrazId], clientes[c.clienteId], piezas, nuevoId);
      Registrado(filas, ResumenDe(filas.alquiler))
  }

  // ---- The order of the checks, as data ------------------------------------

  /** One check of the ladder: whether the request passes it, and the
      rejection it causes otherwise. */
  datatype Control = Control(pasa: bool, falla: Falla)

  /** The checks in the order the handler runs them, each stated on its own.
      The date-order check is stated in calendar order. */
  function Controles(s: Solicitud, disfraces: map<string, Disfraz>, clientes: map<string, Cliente>): seq<Control> {
    var c := s.cuerpo;
    var retiro := LeerFecha(c.fechaRetiro);
    var vence := LeerFecha(c.fechaVencimiento);
    var hayDisfraz := c.disfrazId in disfraces && disfraces[c.disfrazId].activo;
    var precio := s.precioCalculado;
    var adelanto := Adelanto(c, precio);
    [ Control(s.autorizacion.Some? && s.autorizacion.value != "", NoAutorizado),
      Control(s.usuario.Some?, UsuarioNoEncontrado),
      Control(s.rolPerfil == Some(Administrador) || s.rolPerfil == Some(Operador), SinPermisos),
      Control(c.clienteId != "" && c.disfrazId != "" && c.fechaRetiro != "" && c.fechaVencimiento != "", FaltanCampos),
      Control(retiro.Some? && vence.Some?, FechaInvalida),
      Control(retiro.Some? && vence.Some? && !AntesCivil(vence.value, retiro.value), VencimientoAnterior),
      Control(hayDisfraz, DisfrazNoEncontrado),
      Control(hayDisfraz && disfraces[c.disfrazId].stockDisponible >= 1, SinStock),
      Control(EsReserva(c) || adelanto >= precio, ContadoIncompleto(precio)),
      Control(!EsReserva(c) || 100 * adelanto >= 30 * precio, ReservaInsuficiente(precio)),
      Control(c.clienteId in clientes, ClienteNoEncontrado),
      Control(!s.falloInsercion, ErrorInsercion) ]
  }

  /** The rejection of the first check that fails, if any. */
  function PrimeraFalla(cs: seq<Control>, i: nat): (r: Option<Falla>)
    decreases |cs| - i
  {
    if i >= |cs| then None
    else if !cs[i].pasa then Some(cs[i].falla)
    else PrimeraFalla(cs, i + 1)
  }

  /** When the checks from i to k-1 pass and check k fails, the outcome is
      check k's rejection. */
  lemma {:induction false} PrimeraFallaEn(cs: seq<Control>, i: nat, k: nat)
    requires i <= k < |cs| && !cs[k].pasa
    requires forall j :: i <= j < k ==> cs[j].pasa
    ensures PrimeraFalla(cs, i) == Some(cs[k].falla)
    decreases k - i
  {
    if i < k {
      PrimeraFallaEn(cs, i + 1, k);
    }
  }

  /** There is no rejection exactly when every check from i on passes. */
  lemma {:induction false} SinFalla(cs: seq<Control>, i: nat)
    ensures PrimeraFalla(cs, i) == None <==> forall j :: i <= j < |cs| ==> cs[j].pasa
    decreases |cs| - i
  {
    if i < |cs| {
      SinFalla(cs, i + 1);
    }
  }

  /** The handler rejects exactly when one of its checks fails, and then with
      the rejection of the first failing check in the source's order: a
      missing header (401) before the profile (403), before the fields and
      dates (400), before the costume (404) and its stock (409), before the
      payment policy (400), before the client lookup (404). */
  lemma EscaleraDeRechazos(s: Solicitud, disfraces: map<string, Disfraz>, clientes: map<string, Cliente>)
    ensures Rechazo(s, disfraces, clientes) == PrimeraFalla(Controles(s, disfraces, clientes), 0)
  {
    var cs := Controles(s, disfraces, clientes);
    var c := s.cuerpo;
    if LeerFecha(c.fechaRetiro).Some? && LeerFecha(c.fechaVencimiento).Some? {
      if s.autorizacion.Some? && s.autorizacion.value != "" && s.usuario.Some?
         && (s.rolPerfil == Some(Administrador) || s.rolPerfil == Some(Operador))
         && c.clienteId != "" && c.disfrazId != "" && c.fechaRetiro != "" && c.fechaVencimiento != ""
      {
        EscaleraTramoFinal(s, disfraces, clientes);
      }
    }
    assert PrimeraFalla(cs, 4) == if !cs[4].pasa then Some(cs[4].falla) else PrimeraFalla(cs, 5);
    assert PrimeraFalla(cs, 3) == if !cs[3].pasa then Some(cs[3].falla) else PrimeraFalla(cs, 4);
    assert PrimeraFalla(cs, 2) == if !cs[2].pasa then Some(cs[2].falla) else PrimeraFalla(cs, 3);
    assert PrimeraFalla(cs, 1) == if !cs[1].pasa then Some(cs[1].falla) else PrimeraFalla(cs, 2);
    assert PrimeraFalla(cs, 0) == if !cs[0].pasa then Some(cs[0].falla) else PrimeraFalla(cs, 1);
  }

  /** From the date-order check on, once header, user, role, fields and both
      dates have passed. */
  lemma EscaleraTramoFinal(s: Solicitud, disfraces: map<string, Disfraz>, clientes: map<string, Cliente>)
    requires var c := s.cuerpo;
      && s.autorizacion.Some? && s.autorizacion.value != "" && s.usuario.Some?
      && (s.rolPerfil == Some(Administrador) || s.rolPerfil == Some(Operador))
      && c.clienteId != "" && c.disfrazId != "" && c.fechaRetiro != "" && c.fechaVencimiento != ""
      && LeerFecha(c.fechaRetiro).Some? && LeerFecha(c.fechaVencimiento).Some?
    ensures Rechazo(s, disfraces, clientes) == PrimeraFalla(Controles(s, disfraces, clientes), 5)
  {
    var cs := Controles(s, disfraces, clientes);
    var c := s.cuerpo;
    OrdenDeDias(LeerFecha(c.fechaVencimiento).value, LeerFecha(c.fechaRetiro).value);
    assert PrimeraFalla(cs, 12) == None;
    assert PrimeraFalla(cs, 11) == if !cs[11].pasa then Some(cs[11].falla) else PrimeraFalla(cs, 12);
    assert PrimeraFalla(cs, 10) == if !cs[10].pasa then Some(cs[10].falla) else PrimeraFalla(cs, 11);
    assert PrimeraFalla(cs, 9) == if !cs[9].pasa then Some(cs[9].falla) else PrimeraFalla(cs, 10);
    assert PrimeraFalla(cs, 8) == if !cs[8].pasa then Some(cs[8].falla) else PrimeraFalla(cs, 9);
    assert PrimeraFalla(cs, 7) == if !cs[7].pasa then Some(cs[7].falla) else PrimeraFalla(cs, 8);
    assert PrimeraFalla(cs, 6) == if !cs[6].pasa then Some(cs[6].falla) else PrimeraFalla(cs, 7);
    assert PrimeraFalla(cs, 5) == if !cs[5].pasa then Some(cs[5].falla) else PrimeraFalla(cs, 6);
  }

  /** A request is registered exactly when it passes all twelve checks. */
  lemma AceptadaSiPasaTodo(s: Solicitud, disfraces: map<string, Disfraz>, clientes: map<string, Cliente>)
    ensures Rechazo(s, disfraces, clientes) == None <==>
      forall j :: 0 <= j < |Controles(s, disfraces, clientes)| ==> Controles(s, disfraces, clientes)[j].pasa
  {
    EscaleraDeRechazos(s, disfraces, clientes);
    SinFalla(Controles(s, disfraces, clientes), 0);
  }

  // ---- The payment policy and the quirks of the ladder ----------------------

  /** The request passes every check up to the costume lookup: header, user,
      role, fields, both dates and their order, and an active costume. */
  predicate AdmitidaHastaDisfraz(s: Solicitud, disfraces: map<string, Disfraz>) {
    var c := s.cuerpo;
    && s.autorizacion.Some? && s.autorizacion.value != ""
    && s.usuario.Some?
    && (s.rolPerfil == Some(Administrador) || s.rolPerfil == Some(Operador))
    && c.clienteId != "" && c.disfrazId != "" && c.fechaRetiro != "" && c.fechaVencimiento != ""
    && LeerFecha(c.fechaRetiro).Some? && LeerFecha(c.fechaVencimiento).Some?
    && !AntesCivil(LeerFecha(c.fechaVencimiento).value, LeerFecha(c.fechaRetiro).value)
    && c.disfrazId in disfraces && disfraces[c.disfrazId].activo
  }

  /** ... and the stock check as well. */
  predicate AdmitidaHastaStock(s: Solicitud, disfraces: map<string, Disfraz>) {
    AdmitidaHastaDisfraz(s, disfraces) && disfraces[s.cuerpo.disfrazId].stockDisponible >= 1
  }

  /** Once the stock check is passed, a rental paid in full is turned away
      exactly when the payment is below the price, and a reservation exactly
      when the deposit is below 30% of it; with the payment accepted, the
      request fails only on a missing client or a failed insert. */
  lemma PoliticaDePago(s: Solicitud, disfraces: map<string, Disfraz>, clientes: map<string, Cliente>)
    requires AdmitidaHastaStock(s, disfraces)
    ensures var c := s.cuerpo;
      var precio := s.precioCalculado;
      var adelanto := Adelanto(c, precio);
      var r := Rechazo(s, disfraces, clientes);
      && (r == Some(ContadoIncompleto(precio)) <==> !EsReserva(c) && adelanto < precio)
      && (r == Some(ReservaInsuficiente(precio)) <==> EsReserva(c) && 100 * adelanto < 30 * precio)
      && (r.None? <==> PagoAceptado(c, precio) && c.clienteId in clientes && !s.falloInsercion)
  {
    var c := s.cuerpo;
    OrdenDeDias(LeerFecha(c.fechaVencimiento).value, LeerFecha(c.fechaRetiro).value);
  }

  /** The stock gate does not look at the reservation flag: with no unit
      available a request is answered 409 whether or not it is a reservation
      for a later date. */
  lemma StockTambienParaReservas(
    s: Solicitud, disfraces: map<string, Disfraz>, clientes: map<string, Cliente>, reserva: Option<bool>)
    requires AdmitidaHastaDisfraz(s, disfraces) && disfraces[s.cuerpo.disfrazId].stockDisponible < 1
    ensures Rechazo(s.(cuerpo := s.cuerpo.(esReserva := reserva)), disfraces, clientes) == Some(SinStock)
    ensures CodigoHttp(SinStock) == 409
  {
    var c := s.cuerpo;
    OrdenDeDias(LeerFecha(c.fechaVencimiento).value, LeerFecha(c.fechaRetiro).value);
  }

  /** Paying more than the price of a rental is accepted: the row records the
      whole payment and a balance of zero. */
  lemma SobrepagoAceptado(
    s: Solicitud, disfraces: map<string, Disfraz>, clientes: map<string, Cliente>,
    piezas: seq<PiezaDisfraz>, nuevoId: nat)
    requires AdmitidaHastaStock(s, disfraces)
    requires !EsReserva(s.cuerpo) && Adelanto(s.cuerpo, s.precioCalculado) > s.precioCalculado
    requires s.cuerpo.clienteId in clientes && !s.falloInsercion
    ensures var r := Decidir(s, disfraces, clientes, piezas, nuevoId);
      && r.Registrado?
      && r.filas.alquiler.montoAdelanto > r.filas.alquiler.precioCalculado
      && r.filas.alquiler.saldoPendiente == 0
  {
    PoliticaDePago(s, disfraces, clientes);
  }

  /** The client is looked up only after the payment checks: a request for an
      unknown client with a short payment is answered with the payment error,
      and a 404 for the client means everything before it passed. */
  lemma ClienteTrasElPago(s: Solicitud, disfraces: map<string, Disfraz>, clientes: map<string, Cliente>)
    ensures Rechazo(s, disfraces, clientes) == Some(ClienteNoEncontrado) ==>
      && AdmitidaHastaStock(s, disfraces)
      && PagoAceptado(s.cuerpo, s.precioCalculado)
      && s.cuerpo.clienteId !in clientes
  {
    var c := s.cuerpo;
    if Rechazo(s, disfraces, clientes) == Some(ClienteNoEncontrado) {
      OrdenDeDias(LeerFecha(c.fechaVencimiento).value, LeerFecha(c.fechaRetiro).value);
    }
  }

  /** A due date strictly before the pickup date is what the date-order check
      rejects; the same day for both is accepted. */
  lemma OrdenDeFechas(s: Solicitud, disfraces: map<string, Disfraz>, clientes: map<string, Cliente>)
    ensures var c := s.cuerpo;
      Rechazo(s, disfraces, clientes) == Some(VencimientoAnterior) <==>
        && s.autorizacion.Some? && s.autorizacion.value != ""
        && s.usuario.Some?
        && (s.rolPerfil == Some(Administrador) || s.rolPerfil == Some(Operador))
        && c.clienteId != "" && c.disfrazId != "" && c.fechaRetiro != "" && c.fechaVencimiento != ""
        && LeerFecha(c.fechaRetiro).Some? && LeerFecha(c.fechaVencimiento).Some?
        && AntesCivil(LeerFecha(c.fechaVencimiento).value, LeerFecha(c.fechaRetiro).value)
  {
    var c := s.cuerpo;
    if LeerFecha(c.fechaRetiro).Some? && LeerFecha(c.fechaVencimiento).Some? {
      OrdenDeDias(LeerFecha(c.fechaVencimiento).value, LeerFecha(c.fechaRetiro).value);
    }
  }

  // ---- The store and the handler as a step-by-step chain ---------------------

  /** The tables the handler reads (costumes, clients, template pieces) and
      the five it appends to. A rental's id is its position in `alquileres`. */
  class Almacen {
    var disfraces: map<string, Disfraz>
    var clientes: map<string, Cliente>
    var piezasDisfraz: seq<PiezaDisfraz>
    var alquileres: seq<FilaAlquiler>
    var pagos: seq<FilaPago>
    var alquilerPiezas: seq<FilaAlquilerPieza>
    var auditoria: seq<FilaAuditoria>
    var notificaciones: seq<FilaNotificacion>

    ghost predicate Valido()
      reads this
    {
      TablasValidas(alquileres, pagos, alquilerPiezas, auditoria, notificaciones)
    }

    constructor(disfraces: map<string, Disfraz>, clientes: map<string, Cliente>, piezas: seq<PiezaDisfraz>)
      ensures Valido()
      ensures this.disfraces == disfraces && this.clientes == clientes && this.piezasDisfraz == piezas
      ensures alquileres == [] && pagos == [] && alquilerPiezas == [] && auditoria == [] && notificaciones == []
    {
      this.disfraces := disfraces;
      this.clientes := clientes;
      this.piezasDisfraz := piezas;
      alquileres := [];
      pagos := [];
      alquilerPiezas := [];
      auditoria := [];
      notificaciones := [];
    }

    /** The check chain of the `serve` handler, run against the store's
        tables: each check returns its rejection as soon as it fails. */
    method Verificar(s: Solicitud) returns (f: Option<Falla>)
      ensures f == Rechazo(s, disfraces, clientes)
    {
      if s.autorizacion.None? || s.autorizacion.value == "" {
        return Some(NoAutorizado);
      }
      if s.usuario.None? {
        return Some(UsuarioNoEncontrado);
      }
      if s.rolPerfil.None? || s.rolPerfil.value !in {Administrador, Operador} {
        return Some(SinPermisos);
      }
      var c := s.cuerpo;
      if c.clienteId == "" || c.disfrazId == "" || c.fechaRetiro == "" || c.fechaVencimiento == "" {
        return Some(FaltanCampos);
      }
      if !ValidarFecha(c.fechaRetiro) || !ValidarFecha(c.fechaVencimiento) {
        return Some(FechaInvalida);
      }
      var retiro := LeerFecha(c.fechaRetiro).value;
      var vence := LeerFecha(c.fechaVencimiento).value;
      if NumeroDeDia(vence) < NumeroDeDia(retiro) {
        return Some(VencimientoAnterior);
      }
      if c.disfrazId !in disfraces || !disfraces[c.disfrazId].activo {
        return Some(DisfrazNoEncontrado);
      }
      var disfraz := disfraces[c.disfrazId];
      if disfraz.stockDisponible < 1 {
        return Some(SinStock);
      }
      var precio := s.precioCalculado;
      var adelanto := Adelanto(c, precio);
      if !EsReserva(c) && adelanto < precio {
        return Some(ContadoIncompleto(precio));
      }
      if EsReserva(c) && 100 * adelanto < 30 * precio {
        return Some(ReservaInsuficiente(precio));
      }
      if c.clienteId !in clientes {
        return Some(ClienteNoEncontrado);
      }
      if s.falloInsercion {
        return Some(ErrorInsercion);
      }
      return None;
    }

    /** The `serve` handler: a failed check answers with its status before
        anything is written; an accepted request appends one rental, one
        payment, one checklist row per template piece, one audit entry and
        one queued notification, and is answered 201. The read tables,
        costume stock included, are never written. */
    method Registrar(s: Solicitud) returns (status: int, r: Resultado)
      requires Valido()
      modifies this
      ensures Valido()
      ensures r == Decidir(s, old(disfraces), old(clientes), old(piezasDisfraz), old(|alquileres|))
      ensures status == Status(r)
      ensures disfraces == old(disfraces) && clientes == old(clientes) && piezasDisfraz == old(piezasDisfraz)
      ensures r.Rechazado? ==>
        && alquileres == old(alquileres) && pagos == old(pagos) && alquilerPiezas == old(alquilerPiezas)
        && auditoria == old(auditoria) && notificaciones == old(notificaciones)
      ensures r.Registrado? ==>
        && alquileres == old(alquileres) + [r.filas.alquiler]
        && pagos == old(pagos) + [r.filas.pago]
        && alquilerPiezas == old(alquilerPiezas) + r.filas.piezas
        && auditoria == old(auditoria) + [r.filas.auditoria]
        && notificaciones == old(notificaciones) + [r.filas.notificacion]
    {
      var falla := Verificar(s);
      if falla.Some? {
        r := Rechazado(falla.value);
        status := CodigoHttp(falla.value);
        return;
      }
      var c := s.cuerpo;
      var filas := FilasDe(s, disfraces[c.disfrazId], clientes[c.clienteId], piezasDisfraz, |alquileres|);
      FilasDeBienFormadas(s, disfraces[c.disfrazId], clientes[c.clienteId], piezasDisfraz, |alquileres|);
      Anexar(filas);
      r := Registrado(filas, ResumenDe(filas.alquiler));
      status := 201;
    }

    /** The write sequence of an accepted request, in the handler's order:
        the rental, its payment, the checklist (only when the costume has
        template pieces), the audit entry and the queued message. */
    method Anexar(filas: Filas)
      requires Valido() && FilasBienFormadas(filas, |alquileres|)
      modifies this
      ensures Valido()
      ensures disfraces == old(disfraces) && clientes == old(clientes) && piezasDisfraz == old(piezasDisfraz)
      ensures alquileres == old(alquileres) + [filas.alquiler]
      ensures pagos == old(pagos) + [filas.pago]
      ensures alquilerPiezas == old(alquilerPiezas) + filas.piezas
      ensures auditoria == old(auditoria) + [filas.auditoria]
      ensures notificaciones == old(notificaciones) + [filas.notificacion]
    {
      AgregarFilas(alquileres, pagos, alquilerPiezas, auditoria, notificaciones, filas);
      alquileres := alquileres + [filas.alquiler];
      pagos := pagos + [filas.pago];
      if |filas.piezas| > 0 {
        alquilerPiezas := alquilerPiezas + filas.piezas;
      } else {
        assert alquilerPiezas + filas.piezas == alquilerPiezas;
      }
      auditoria := auditoria + [filas.auditoria];
      notificaciones := notificaciones + [filas.notificacion];
    }
  }
}

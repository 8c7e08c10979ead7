# SisDisfraz Perú — a verified model of the rental rules

SisDisfraz is a costume-rental back office. It has two parts: a Supabase Edge
Function that registers rentals (`registrar-alquiler`) and a Next.js
dashboard. This project models, in Dafny, the logic these pieces implement:

- **Rental registration** (`registrar_alquiler.dfy`, module `RegistrarAlquiler`):
  - the DNI, WhatsApp and date validators;
  - the WhatsApp confirmation text;
  - the ladder of rejections with their HTTP statuses;
  - the deposit and balance arithmetic and the payment policy (paid in full, or at least 30% for a reservation);
  - the rows the handler appends to `alquileres`, `pagos`, `alquiler_piezas`, `audit_log` and `notificaciones_whatsapp`.
  
  The handler is the class `Almacen`. Its method `Registrar` is the step-by-step early-return chain. It is proved to return what the pure decision function `Decidir` prescribes, and to keep the tables consistent.
- **Reports of the client library** (`reportes.dfy`, module `Reportes`):
  - the daily cash report, which groups the day's payments by method;
  - the ranking of dances by revenue;
  - the storage path of an uploaded ID photo.
  
  The `reduce` callbacks that update an accumulator dictionary in place become the loop `Agrupar`. It is proved to compute the recursive specification `Resumen`/`Claves`.
- **The new-rental wizard** (`nuevo_alquiler.dfy`, class `NuevoAlquiler.Asistente`). Its fields are the page's state hooks and its methods the event handlers:
  - step guards;
  - the effect that sets the due date to pickup + 3 days and picks the season;
  - the price shown;
  - the guards and inserts of `crearCliente` and `guardarAlquiler`;
  - the costume search.
- **The rental list** (`lista_alquileres.dfy`): the state/search filter and the state badge with its fallback.
- **The catalogue page** (`catalogo.dfy`, class `Catalogo.PaginaCatalogo`):
  - the form that opens for a new or an edited costume;
  - the record a save sends;
  - the on/off toggle.
- **The dashboard layout** (`navegacion.dfy`):
  - the sidebar entries each role sees;
  - the fallback to the administrator role;
  - the top-bar title;
  - the session check (class `Navegacion.Sesion`).

Shared helper modules:

- `Tipos`: the enums of `src/types/database.types.ts`, `Option`, and money in céntimos.
- `Texto`: digits, ASCII/Latin-1 lower-casing, `includes`, and the two-decimal rendering of amounts.
- `Listas`: `filter`, `find`, and order-preserving subsequences.
- `Fechas`: civil `YYYY-MM-DD` dates, day numbers and adding days.

Database reads, generated ids, the outcome of each insert or update the code looks at, the clock and the time zone are parameters of the operations that need them. Where the code ignores an insert's outcome (the wizard's payment insert), that outcome is a parameter too, and the model shows what the page reports regardless.

The model keeps these quirks of the code:

- The handler never calls `validarDNI` or `validarWhatsApp`. They are modelled as functions of their own.
- The handler accepts overpayment.
- The handler checks stock for reservations too.
- The handler looks the client up only after the payment checks.
- The notification type is `confirmacion_reserva` in both branches.
- The wizard writes `alquileres` and `pagos` directly. None of the handler's checks apply to it.
- The catalogue page reads and writes a column `precio_temporada`. The types file calls it `precio_temporada_alta`. The model uses a single field for it.

## Model

| member | source | states |
|---|---|---|
| Tipos.LeerMetodo | src/types/database.types.ts:14 | a text read back as a payment method is that method's text, and every method's own text reads back as that method |
| Tipos.MetodoTextoInyectivo | src/types/database.types.ts:14 | two payment methods with the same database text are the same method |
| Texto.FormatoCentimosIda | supabase/functions/registrar-alquiler/index.ts:54-56 | `toFixed(2)` on an amount of whole céntimos loses nothing: the rendering reads back as the amount, negative amounts included |
| Texto.DosDecimales | supabase/functions/registrar-alquiler/index.ts:54-56 | every rendered amount ends in a point and exactly two digits, and has no other point |
| Texto.Minusculas | src/app/dashboard/alquileres/page.tsx:49-53 | `toLowerCase` keeps the length and lower-cases each character on its own |
| Texto.MinusculasIdempotente | src/app/dashboard/alquileres/page.tsx:52-53 | lower-casing an already lower-cased text changes nothing |
| Texto.MensajeDeError | src/app/dashboard/catalogo/page.tsx:133 | the message `err.message` or else `'Error al guardar'` is never empty, and it is the error's own message whenever that is non-empty |
| Texto.ContienePosicion | src/app/dashboard/alquileres/page.tsx:52-53 | when `includes` holds, the searched text occurs at some position |
| Listas.Filtrar | src/app/dashboard/alquileres/page.tsx:47-55 | `filter` keeps exactly the elements that pass the predicate, and never more elements than it was given |
| Listas.FiltrarEnOrden | src/app/dashboard/alquileres/page.tsx:47-55 | the result of `filter` is an order-preserving subsequence of its input |
| Listas.BuscarPrimero | src/app/dashboard/layout.tsx:208 | `find`: the index found passes and no earlier one does; nothing is found only when no element passes |
| Fechas.LeerFecha | supabase/functions/registrar-alquiler/index.ts:26-29 | a text that parses names a day the calendar has (month 1–12, day within the month, leap years included) |
| Fechas.LeerFechaExacta | supabase/functions/registrar-alquiler/index.ts:26-29 | a text that parses is exactly the `YYYY-MM-DD` rendering of the day it names |
| Fechas.LeerEscribirFecha | supabase/functions/registrar-alquiler/index.ts:26-29 | every real day before the year 10000, rendered as `YYYY-MM-DD`, parses back to itself |
| Fechas.OrdenDeDias | supabase/functions/registrar-alquiler/index.ts:146 | comparing day numbers, as comparing two `Date`s does, agrees with calendar order in both directions, and equal numbers mean the same day |
| Fechas.SumarDias | src/app/dashboard/alquileres/nuevo/page.tsx:67-68 | adding n days to a real day gives a real day whose day number is n larger |
| RegistrarAlquiler.ValidarDNI | supabase/functions/registrar-alquiler/index.ts:18-20 | accepts exactly the texts of eight decimal digits |
| RegistrarAlquiler.ValidarWhatsApp | supabase/functions/registrar-alquiler/index.ts:22-24 | accepts exactly the texts of length 12 that start with `+51` and continue with digits |
| RegistrarAlquiler.WhatsAppEsPrefijoMasNueveDigitos | supabase/functions/registrar-alquiler/index.ts:22-24 | a number is accepted iff it is `+51` followed by nine digits |
| RegistrarAlquiler.ValidarFecha | supabase/functions/registrar-alquiler/index.ts:26-29 | an accepted date text is the `YYYY-MM-DD` rendering of a real day |
| RegistrarAlquiler.ValidarFechaCompleta | supabase/functions/registrar-alquiler/index.ts:26-29 | conversely, the rendering of every real day before the year 10000 is accepted |
| RegistrarAlquiler.UnirContiene | supabase/functions/registrar-alquiler/index.ts:46-66 | every line of the composed message occurs in the message |
| RegistrarAlquiler.MensajeConfirmacionAlquiler | supabase/functions/registrar-alquiler/index.ts:44-67 | both templates greet the client by name and name the costume with its size |
| RegistrarAlquiler.MensajeReservaCompleto | supabase/functions/registrar-alquiler/index.ts:46-58 | the reservation text contains the greeting, the costume and size, the pickup and return dates, and the total, deposit and balance, each with two decimals |
| RegistrarAlquiler.MensajeAlquilerSoloTotal | supabase/functions/registrar-alquiler/index.ts:60-66 | the rental text contains the costume, the return date and the total, and does not depend on the deposit, the balance or the pickup date |
| RegistrarAlquiler.Saldo | supabase/functions/registrar-alquiler/index.ts:195 | the balance is never negative, is at least price minus deposit, and is either 0 or exactly price minus deposit |
| RegistrarAlquiler.FilasChecklist | supabase/functions/registrar-alquiler/index.ts:274-279 | one checklist row per template piece, in order, each carrying that piece's id and name and leaving in state `bueno` |
| RegistrarAlquiler.PagoAceptado | supabase/functions/registrar-alquiler/index.ts:194-213 | a payment of the full price is always accepted; an accepted payment covers at least 30% of the price, and for a cash rental the whole price |
| RegistrarAlquiler.Rechazo | supabase/functions/registrar-alquiler/index.ts:79-225 | when no check fails, every condition of the chain holds: header, user, role, both dates parse, due not before pickup, costume active, stock, payment policy, client found, rental inserted |
| RegistrarAlquiler.Decidir | supabase/functions/registrar-alquiler/index.ts:79-330 | a request is rejected exactly when a check fails, with that failure; otherwise the rows written are those built from the request and the looked-up rows, they are well formed, and the response summary is the rental row's |
| RegistrarAlquiler.EscaleraDeRechazos | supabase/functions/registrar-alquiler/index.ts:79-249 | the verdict is the first failing check of the twelve in the handler's order (401, 500, 403, 400, 400, 400, 404, 409, 400, 400, 404, 500) |
| RegistrarAlquiler.PrimeraFallaEn | supabase/functions/registrar-alquiler/index.ts:79-249 | when every check before position k passes and check k fails, check k decides |
| RegistrarAlquiler.SinFalla | supabase/functions/registrar-alquiler/index.ts:79-249 | the ladder finds no failure iff every check from the given position on passes |
| RegistrarAlquiler.AceptadaSiPasaTodo | supabase/functions/registrar-alquiler/index.ts:79-249 | a request is accepted iff every check of the ladder passes |
| RegistrarAlquiler.EscaleraTramoFinal | supabase/functions/registrar-alquiler/index.ts:154-249 | once header, user, role, fields and date formats pass, the verdict is the first failure from the date-order check on |
| RegistrarAlquiler.OrdenDeFechas | supabase/functions/registrar-alquiler/index.ts:146-151 | the "due before pickup" rejection happens exactly when the earlier checks pass and the due date is strictly earlier; equal dates are accepted |
| RegistrarAlquiler.StockTambienParaReservas | supabase/functions/registrar-alquiler/index.ts:168-176 | without stock, a request that reaches the stock check is refused with 409 whatever `es_reserva` says |
| RegistrarAlquiler.PoliticaDePago | supabase/functions/registrar-alquiler/index.ts:194-225 | past the stock check: a cash rental is refused iff the deposit is below the price; a reservation iff 100·deposit < 30·price; with the payment accepted, only a missing client or a failed insert refuses |
| RegistrarAlquiler.SobrepagoAceptado | supabase/functions/registrar-alquiler/index.ts:194-203 | a cash rental paying more than the price is registered, with balance 0 |
| RegistrarAlquiler.ClienteTrasElPago | supabase/functions/registrar-alquiler/index.ts:213-225 | a "client not found" rejection means every earlier check, the payment policy included, had passed |
| RegistrarAlquiler.FilaAlquilerYPago | supabase/functions/registrar-alquiler/index.ts:194-292 | the rental row has `estado` reserva/activo per `es_reserva`, `es_reserva` defaulting to false, `monto_adelanto = total_cobrado` = the deposit (the price when omitted), the price, season and clamped balance; the one payment row carries the deposit and the concept of its branch; the audit row names the rental |
| RegistrarAlquiler.ChecklistDeSalida | supabase/functions/registrar-alquiler/index.ts:265-281 | one checklist row per template piece of the requested costume, in order, exactly the pieces with that costume id, each `bueno`, and none when the template is empty |
| RegistrarAlquiler.NotificacionEncolada | supabase/functions/registrar-alquiler/index.ts:294-315 | the queued notification is unsent, of type `confirmacion_reserva` in both branches, and its text greets the client and shows the amounts of its branch |
| RegistrarAlquiler.FilasDe | supabase/functions/registrar-alquiler/index.ts:228-315 | the rental, payment, checklist, audit and notification rows all reference the new rental's id, the notification is queued unsent, and the payment amount is the rental's deposit, the full price when none was sent |
| RegistrarAlquiler.FilasDeBienFormadas | supabase/functions/registrar-alquiler/index.ts:228-315 | for an accepted payment the rows are well formed: a coherent rental row (a cash rental fully paid with balance 0, a reservation with at least 30%) and every dependent row pointing at it |
| RegistrarAlquiler.AgregarFilas | supabase/functions/registrar-alquiler/index.ts:228-315 | appending the well-formed rows of one request keeps the five tables consistent: every row points at an existing rental and no notification is sent |
| RegistrarAlquiler.Almacen.Verificar | supabase/functions/registrar-alquiler/index.ts:79-225 | the early-return chain over the store's tables returns exactly the ladder's verdict |
| RegistrarAlquiler.Almacen.Registrar | supabase/functions/registrar-alquiler/index.ts:71-335 | the handler's result is the decision's and its status is the verdict's HTTP code; the costume, client and piece tables (so `stock_disponible`) never change; a rejection writes nothing; an acceptance appends exactly the decided rows; the tables stay consistent |
| RegistrarAlquiler.Almacen.Anexar | supabase/functions/registrar-alquiler/index.ts:228-315 | the five inserts append one rental, one payment, the checklist rows, one audit row and one notification, and nothing else changes |
| Reportes.Agrupar | src/lib/supabase.ts:97-103 | the in-place `reduce` loop leaves exactly the specified accumulator and lists its keys in first-insertion order |
| Reportes.ResumenPorClave | src/lib/supabase.ts:97-103 | a key is in the accumulator iff some row has it; its `total` is the sum of its rows' amounts and its `count` their number; a missing key has no amount |
| Reportes.CuentaPositiva | src/lib/supabase.ts:97-103 | a key's count is positive iff some row carries that key |
| Reportes.ClavesDelResumen | src/lib/supabase.ts:153 | `Object.entries` lists every key of the accumulator exactly once |
| Reportes.SumaTotalPorClaves | src/lib/supabase.ts:97-105 | the per-key totals add up to the sum of all amounts |
| Reportes.SumaCantidadPorClaves | src/lib/supabase.ts:145-151 | the per-key counts add up to the number of rows |
| Reportes.VentanaDelDia | src/lib/supabase.ts:89-90 | the day window holds exactly the instants of that day up to 23:59:59.000000 inclusive |
| Reportes.UltimaFraccionFuera | src/lib/supabase.ts:90 | a payment at 23:59:59.000001 falls outside its own day's report |
| Reportes.DiaObjetivo | src/lib/supabase.ts:84 | the reported day is the given date, or today when none is given |
| Reportes.MovimientosDeCaja | src/lib/supabase.ts:98-100 | every payment is grouped under its method's text with its amount |
| Reportes.CajaDiaria | src/lib/supabase.ts:83-107 | the report holds the payments inside the day's window, their per-method summary and their total, and every listed payment lies in the window |
| Reportes.MetodosDeCaja | src/lib/supabase.ts:97-103 | a method is a key of the summary iff one of the day's payments used it |
| Reportes.ClavesDeCaja | src/lib/supabase.ts:98 | every key of the summary reads back as a payment method of the enum |
| Reportes.ResumenDeCaja | src/lib/supabase.ts:97-105 | each method's count and total are those of its payments, and the per-method totals add up to `totalDia` |
| Reportes.MovimientosDeDanza | src/lib/supabase.ts:146-148 | each rental is grouped under its dance, or `'Desconocida'` when it has none, with its `total_cobrado` |
| Reportes.Entradas | src/lib/supabase.ts:153-154 | one `{ danza, total, count }` entry per key, in key order, with that key's totals |
| Reportes.InsertarOrdenado | src/lib/supabase.ts:155 | insertion adds exactly the new entry to the list (as multisets) |
| Reportes.InsertarDescendente | src/lib/supabase.ts:155 | inserting into a list sorted by total, largest first, keeps it sorted |
| Reportes.OrdenarPorTotal | src/lib/supabase.ts:155 | the sort is a permutation of its input |
| Reportes.OrdenarDescendente | src/lib/supabase.ts:155 | the sort's result is ordered by total, largest first |
| Reportes.OrdenarSumaCuentas | src/lib/supabase.ts:155 | sorting keeps the sum of the counts |
| Reportes.OrdenarDistintas | src/lib/supabase.ts:155 | sorting a list of distinct dances keeps them distinct |
| Reportes.DanzasRentables | src/lib/supabase.ts:131-156 | the grouping loop followed by the sort yields the specified ranking of the returned rentals within the bounds |
| Reportes.RankingOrdenado | src/lib/supabase.ts:145-155 | the ranking is sorted by total, largest first, has one entry per dance among the selected rentals, and its counts add up to the number of those rentals |
| Reportes.RankingPorDanza | src/lib/supabase.ts:145-155 | each entry's total and count are its dance's revenue and number of rentals, and the count is positive |
| Reportes.TrasUltimoPunto | src/lib/supabase.ts:200 | `split('.').pop()` is a suffix of the name with no '.', preceded by a '.' whenever it is not the whole name |
| Reportes.TrasPuntoFinal | src/lib/supabase.ts:200 | after `p + '.' + e`, with e free of points, the extension is e |
| Reportes.ExtensionDeLaRuta | src/lib/supabase.ts:200-201 | the stored path `dni/<cliente>_<ms>.<ext>` has the file name's extension as its own |
| Reportes.NombreSinPunto | src/lib/supabase.ts:200 | a name without any '.' is its own "extension" |
| NuevoAlquiler.TransferenciaFueraDelEnum | src/app/dashboard/alquileres/nuevo/page.tsx:28 | the select offers `transferencia`, which is not a payment method of the enum |
| NuevoAlquiler.VencimientoTresDias | src/app/dashboard/alquileres/nuevo/page.tsx:66-69 | the due date the effect writes parses back as the day three days after the pickup, so strictly after it |
| NuevoAlquiler.FechaTrasDias | src/app/dashboard/alquileres/nuevo/page.tsx:67-69 | a date n > 0 days ahead, written as `YYYY-MM-DD`, reads back as itself and lies after the start |
| NuevoAlquiler.TemporadaJunioASetiembre | src/app/dashboard/alquileres/nuevo/page.tsx:71-72 | the season is high iff the pickup's calendar month is June to September |
| NuevoAlquiler.TemporadaDesfasadaEnLima | src/app/dashboard/alquileres/nuevo/page.tsx:66-72 | read in Lima's local time, a pickup on 1 June counts as low season and one on 1 October as high season |
| NuevoAlquiler.TemporadaDesfasadaSoloElDiaUno | src/app/dashboard/alquileres/nuevo/page.tsx:66-72 | away from the first of a month, or east of Greenwich, the browser's season is the calendar month's |
| NuevoAlquiler.DisfracesVisibles | src/app/dashboard/alquileres/nuevo/page.tsx:328 | the listed costumes keep their order, and a costume is listed iff its name or dance contains the search text, ignoring case |
| NuevoAlquiler.BusquedaVaciaMuestraTodo | src/app/dashboard/alquileres/nuevo/page.tsx:328 | an empty search lists every loaded costume |
| NuevoAlquiler.BusquedaSinMayusculas | src/app/dashboard/alquileres/nuevo/page.tsx:328 | typing the search in capitals or not lists the same costumes |
| NuevoAlquiler.NotasGuardadas | src/app/dashboard/alquileres/nuevo/page.tsx:150 | the saved notes are null exactly for empty notes, and the notes otherwise |
| NuevoAlquiler.ConEfecto | src/app/dashboard/alquileres/nuevo/page.tsx:64-75 | with a costume and a pickup date set, the due date becomes pickup + 3 days and the season follows the pickup's month; otherwise nothing changes |
| NuevoAlquiler.PrecioTotal | src/app/dashboard/alquileres/nuevo/page.tsx:126-128 | the price shown is 0 without a costume, the costume's season price in season and its base price otherwise |
| NuevoAlquiler.PrecioSegunRetiro | src/app/dashboard/alquileres/nuevo/page.tsx:126-128 | after the effect, the price shown is the season price exactly when the pickup falls in June to September, the base price otherwise |
| NuevoAlquiler.FilaDelFormulario | src/app/dashboard/alquileres/nuevo/page.tsx:140-151 | the saved rental is `reserva`/`activo` as the checkbox says, charges the price shown, and carries the chosen client, costume, dates, deposit and notes |
| NuevoAlquiler.SinPoliticaDePago | src/app/dashboard/alquileres/nuevo/page.tsx:130-163 | the page applies no payment policy: a cash rental with nothing paid is saved as active with a deposit below its price |
| NuevoAlquiler.PagoDelAdelanto | src/app/dashboard/alquileres/nuevo/page.tsx:156-162 | at most one payment row, present exactly for a positive deposit whose insert did not fail, carrying the deposit, the chosen method, the client and the latest rental's id |
| NuevoAlquiler.AdelantoSinPago | src/app/dashboard/alquileres/nuevo/page.tsx:28 | a deposit paid by `transferencia` uses a method outside the enum; the rental row keeps the positive deposit while the failed payment insert leaves no payment row |
| NuevoAlquiler.Asistente.constructor | src/app/dashboard/alquileres/nuevo/page.tsx:32-52 | every hook starts at its initial value (step 1, method `efectivo`, empty texts), with the loaded costumes |
| NuevoAlquiler.Asistente.AplicarEfecto | src/app/dashboard/alquileres/nuevo/page.tsx:64-75 | running the effect applies it to the state and writes no table |
| NuevoAlquiler.Asistente.Avanzar | src/app/dashboard/alquileres/nuevo/page.tsx:309-349 | "next" moves 1→2 only with a client selected and 2→3 only with a costume selected, otherwise nothing changes; the step invariant holds |
| NuevoAlquiler.Asistente.Retroceder | src/app/dashboard/alquileres/nuevo/page.tsx:348-400 | "back" moves 2→1 and 3→2 and changes nothing else |
| NuevoAlquiler.Asistente.EscribirBusquedaCliente | src/app/dashboard/alquileres/nuevo/page.tsx:58-62 | typing stores the search text, and the results are replaced only for two characters or more |
| NuevoAlquiler.Asistente.SeleccionarCliente | src/app/dashboard/alquileres/nuevo/page.tsx:272 | choosing a client selects it and clears the search |
| NuevoAlquiler.Asistente.AlternarNuevoCliente | src/app/dashboard/alquileres/nuevo/page.tsx:280 | the button shows or hides the new-client form |
| NuevoAlquiler.Asistente.EscribirNuevoCliente | src/app/dashboard/alquileres/nuevo/page.tsx:288-297 | typing updates the new-client fields only |
| NuevoAlquiler.Asistente.CrearCliente | src/app/dashboard/alquileres/nuevo/page.tsx:98-124 | with a field empty, only the message changes; on an insert error, only the message; otherwise one client row is added and selected and the form closes |
| NuevoAlquiler.Asistente.SeleccionarCreado | src/app/dashboard/alquileres/nuevo/page.tsx:121-122 | the inserted client is recorded, selected, and the form closes |
| NuevoAlquiler.Asistente.EscribirBusquedaDisfraz | src/app/dashboard/alquileres/nuevo/page.tsx:323 | typing updates the costume search only |
| NuevoAlquiler.Asistente.SeleccionarDisfraz | src/app/dashboard/alquileres/nuevo/page.tsx:333 | choosing a different costume selects it and reruns the due-date/season effect; choosing the costume already selected changes nothing, so a due date typed by hand survives |
| NuevoAlquiler.Asistente.FijarRetiro | src/app/dashboard/alquileres/nuevo/page.tsx:361 | a different pickup date is stored and the effect reruns; the same date changes nothing |
| NuevoAlquiler.Asistente.FijarVence | src/app/dashboard/alquileres/nuevo/page.tsx:365 | the due date can be overwritten by hand, changing nothing else |
| NuevoAlquiler.Asistente.FijarReserva | src/app/dashboard/alquileres/nuevo/page.tsx:371 | the checkbox sets the reservation flag only |
| NuevoAlquiler.Asistente.FijarAdelanto | src/app/dashboard/alquileres/nuevo/page.tsx:384 | the input sets the deposit only |
| NuevoAlquiler.Asistente.FijarMetodo | src/app/dashboard/alquileres/nuevo/page.tsx:388 | the select sets the payment method only |
| NuevoAlquiler.Asistente.FijarNotas | src/app/dashboard/alquileres/nuevo/page.tsx:396 | the text area sets the notes only |
| NuevoAlquiler.Asistente.GuardarAlquiler | src/app/dashboard/alquileres/nuevo/page.tsx:130-172 | without client, costume and both dates, only the message changes; on a rental insert error, no row and the error's message; otherwise one rental row, one payment row linked to the latest rental only for a positive deposit whose insert succeeded, and the success message whether or not the payment was stored |
| NuevoAlquiler.Asistente.Insertar | src/app/dashboard/alquileres/nuevo/page.tsx:140-163 | the rental row is appended, and the payment row exactly when the deposit is positive and its insert succeeded |
| ListaAlquileres.Filtrados | src/app/dashboard/alquileres/page.tsx:47-55 | the shown rentals keep the list's order, and a rental is shown iff it matches the state filter and the search |
| ListaAlquileres.SinFiltrosSeVeTodo | src/app/dashboard/alquileres/page.tsx:47-55 | with no state and no search text, every rental is shown |
| ListaAlquileres.FiltroPorEstado | src/app/dashboard/alquileres/page.tsx:48 | with a state chosen, every shown rental has it, and none of that state that matches the search is hidden |
| ListaAlquileres.SinNombresNoSeEncuentra | src/app/dashboard/alquileres/page.tsx:49-53 | a missing client or costume name is searched as `''`, so a rental with neither is never found by a non-empty search |
| ListaAlquileres.BusquedaSinMayusculas | src/app/dashboard/alquileres/page.tsx:51-53 | the search ignores the case of what is typed |
| ListaAlquileres.VencidosSoloSinFiltro | src/app/dashboard/alquileres/page.tsx:126-130 | the state options lack `vencido`, so an overdue rental is shown only when no state is chosen |
| ListaAlquileres.Estilos | src/app/dashboard/alquileres/page.tsx:58-63 | the style table has an entry exactly for `activo`, `reserva`, `devuelto` and `cancelado`, each with a non-empty label |
| ListaAlquileres.EtiquetasDeEstado | src/app/dashboard/alquileres/page.tsx:57-65 | `activo`, `reserva`, `devuelto` and `cancelado` get their own background, colour and label; every other text gets the `activo` badge |
| ListaAlquileres.InsigniaDeVencido | src/app/dashboard/alquileres/page.tsx:58-64 | an overdue rental's badge is the active one's, while any two other distinct states have distinct labels |
| Catalogo.FormularioDe | src/app/dashboard/catalogo/page.tsx:80-88 | the edit form shows a missing photo as the empty text |
| Catalogo.CrearConTodoDisponible | src/app/dashboard/catalogo/page.tsx:99-125 | a created costume has all its units available and is active |
| Catalogo.EditarConservaDisponible | src/app/dashboard/catalogo/page.tsx:106-115 | an edit takes the new total but keeps the available count and the id |
| Catalogo.EdicionDejaMasDisponiblesQueTotal | src/app/dashboard/catalogo/page.tsx:106-115 | an edit can leave more units available than exist: five of five available, total edited to two |
| Catalogo.DatosDe | src/app/dashboard/catalogo/page.tsx:99-109 | the saved record is always active, carries the available stock (equal to the total) only when creating, and turns an empty photo into null |
| Catalogo.Actualizar | src/app/dashboard/catalogo/page.tsx:111-115 | an update keeps the row's id, takes the sent total and active flag, and keeps the available count when the record leaves it out |
| Catalogo.EditarReactiva | src/app/dashboard/catalogo/page.tsx:108 | saving an edit switches a costume that was off back on |
| Catalogo.FotoVaciaEsNula | src/app/dashboard/catalogo/page.tsx:87-107 | an empty photo text is saved as null, and a null photo opens as the empty text |
| Catalogo.EditarSinCambios | src/app/dashboard/catalogo/page.tsx:78-115 | opening a row and saving it untouched writes it back unchanged apart from switching it on |
| Catalogo.Alternar | src/app/dashboard/catalogo/page.tsx:139-143 | the toggle writes the negation of the shown value and touches no other field |
| Catalogo.AlternarDosVeces | src/app/dashboard/catalogo/page.tsx:139-143 | the toggle negates `activo` and touches no other field; toggling twice restores the row |
| Catalogo.PaginaCatalogo.constructor | src/app/dashboard/catalogo/page.tsx:29-44 | the page starts with the loaded table, the modal closed, nothing being edited and the default form |
| Catalogo.PaginaCatalogo.AbrirNuevo | src/app/dashboard/catalogo/page.tsx:63-76 | opening "new" clears the edited row and the message, resets the form to its defaults and shows the modal |
| Catalogo.PaginaCatalogo.AbrirEditar | src/app/dashboard/catalogo/page.tsx:78-91 | opening an edit loads the row into the form and shows the modal |
| Catalogo.PaginaCatalogo.EditarFormulario | src/app/dashboard/catalogo/page.tsx:271-299 | typing changes the form only |
| Catalogo.PaginaCatalogo.Guardar | src/app/dashboard/catalogo/page.tsx:93-137 | on error only the message changes; an edit updates the edited row with the record (available count kept); a creation inserts a row under the new id; both close the modal with their message |
| Catalogo.PaginaCatalogo.ToggleActivo | src/app/dashboard/catalogo/page.tsx:139-148 | on success the row's `activo` becomes the negation of the value shown; on error, or for an unknown id, nothing changes |
| Navegacion.ItemsVisibles | src/app/dashboard/layout.tsx:104 | an entry is visible iff it is in `NAV_ITEMS` and lists the role |
| Navegacion.VisiblesEnOrden | src/app/dashboard/layout.tsx:104 | the visible entries keep the order of `NAV_ITEMS` |
| Navegacion.AdministradorVeTodo | src/app/dashboard/layout.tsx:22-32 | an administrator sees all nine entries, in order |
| Navegacion.SoloLecturaVeTres | src/app/dashboard/layout.tsx:22-32 | a read-only user sees exactly Alertas, Alquileres and Catálogo |
| Navegacion.OperadorVeSeis | src/app/dashboard/layout.tsx:22-32 | an operator sees exactly the first six entries |
| Navegacion.SinPaginasDeAdministrador | src/app/dashboard/layout.tsx:29-31 | no role but the administrator sees Proveedores, Reportes or Usuarios |
| Navegacion.RolEfectivo | src/app/dashboard/layout.tsx:103 | the role is the profile's when it has one, the administrator otherwise |
| Navegacion.SinPerfilVeTodo | src/app/dashboard/layout.tsx:103-104 | without a profile or a role, the sidebar fails open and shows every entry |
| Navegacion.RutasDistintas | src/app/dashboard/layout.tsx:22-32 | no two entries share a route |
| Navegacion.Titulo | src/app/dashboard/layout.tsx:208 | the title is `'Dashboard'` or the label of an entry the role sees whose route is the current one |
| Navegacion.TituloDeLaRuta | src/app/dashboard/layout.tsx:208 | on the route of an entry the role sees, the title is its label; on one it does not see, `'Dashboard'` |
| Navegacion.AntesDeArroba | src/app/dashboard/layout.tsx:75 | `split('@')[0]` is the prefix before the first '@', the whole text when there is none |
| Navegacion.AntesDeArrobaDeCorreo | src/app/dashboard/layout.tsx:75 | for `local@domain`, with no '@' in the local part, the split gives the local part |
| Navegacion.NombrePorDefecto | src/app/dashboard/layout.tsx:75 | the fallback name is never empty, and is the address's local part when that is non-empty |
| Navegacion.Sesion.constructor | src/app/dashboard/layout.tsx:47-49 | the layout starts with no user, no profile and loading |
| Navegacion.Sesion.ComprobarSesion | src/app/dashboard/layout.tsx:55-80 | without a user the page goes to `/login` and stays loading; with one, the user is stored, the profile is the row found or a made-up administrator profile, and loading ends |
| Navegacion.UsuarioSinPerfilEsAdministrador | src/app/dashboard/layout.tsx:72-76 | a signed-in user with no profile row gets the administrator role and every entry |

## Left out

- Key order of `Object.entries` for integer-like keys: JavaScript lists keys that look like array indices first, in ascending order, before the others in insertion order. The reports' key list is insertion order, which assumes no dance name and no payment-method tag is such a key.
- HTTP, CORS and the OPTIONS preflight; `req.json`, `createClient`, `auth.getUser` and the query builders. The caller, the role, the request body and the looked-up rows are inputs of a `Solicitud`.
- The SQL functions `calcular_precio_alquiler` and `es_temporada_alta` are not part of this model. Their results (price and season) are inputs.
- Atomicity and concurrency: the handler's inserts are separate calls. The payment, checklist, audit and notification inserts ignore their errors; the model appends them all.
- No stock decrement appears in the handler. The model proves that it writes none, and says nothing about concurrent overbooking.
- Thrown errors become a 500: a missing user and a failed rental insert. No other error path inside the Deno runtime is modelled.
- Database ids are abstracted: a rental's id is its position in `alquileres`. The id the wizard attaches to its payment (the latest rental by `created_at`) is a parameter.
- RegistrarAlquiler.ValidarFecha: JavaScript's `Date` also parses texts other than `YYYY-MM-DD`, and in that shape it accepts any day from 1 to 31 and rolls an impossible one into the next month (`2025-02-30` is read as 2 March). The model accepts only real days in that shape and rejects such texts with the invalid-date answer, where the handler goes on to its later checks, so this is weaker than the source's acceptance. Years from 10000 on are not represented.
- Fechas.LeerFecha: reads only `YYYY-MM-DD` texts that name a real day; texts of other shapes and in-shape impossible days that `Date` rolls over are not read.
- Floating point: amounts are whole céntimos, and `precio * 0.30` becomes the comparison `100·adelanto < 30·precio`.
- NuevoAlquiler.ConEfecto: the wizard's due date assumes a valid pickup date, as the date input provides. A non-empty text that does not parse (an Invalid Date, on which `toISOString` throws) leaves the state unchanged in the model.
- Time zones: outside the finding below, dates are civil days. Timestamps in the reports are a day plus microseconds, compared the way PostgreSQL compares `timestamptz` in UTC.
- Reportes.OrdenarPorTotal: the stability of `Array.prototype.sort` (entries of equal total keep their order) is not proved. The proved facts are the order, permutation, distinct dances and counts.
- The order of the cash report's payments (`created_at` descending) is not modelled. The summary and the total do not depend on it.
- Lower-casing covers ASCII and Latin-1 only. Other Unicode case mappings of `toLowerCase` are not modelled.
- The payment-method text the wizard inserts (including `transferencia`, which is outside the enum) is kept as free text. Whether the database accepts the payment row (a method outside the enum, or its `cliente_id` column and missing `operador_id`, which the `Pago` type does not match) is not decided by the model: it is the `errorPago` input of `GuardarAlquiler`.
- The client search query itself (`ilike`, limit 10) and `cargarDisfraces` are not modelled. Their results are parameters.
- Loading and saving flags, the `setTimeout` that closes the catalogue modal and reloads it, and router navigation after saving are not modelled. The modal closes at once.
- `eliminar` in the catalogue, realtime subscriptions, the storage upload itself and `getPublicUrl` are not modelled. The `Date.now()` in the photo path is a parameter.
- `src/app/dashboard/page.tsx`, the users page, the login page, `ROL_COLORS`, the mobile menu and all JSX/CSS are not part of this model.

## Findings

| source | as written | input that shows it | evidently intended | confidence | as-written member | corrected member |
|---|---|---|---|---|---|---|
| src/app/dashboard/alquileres/nuevo/page.tsx:66-72 | `new Date("YYYY-MM-DD")` is midnight UTC, and `getMonth()` reads the browser's local month | a pickup on `2025-06-01` in Lima (UTC-5) reads as month index 4, so low season; `2025-10-01` reads as September, so high season | high season for pickups in June to September by calendar month | not executed | NuevoAlquiler.TemporadaDesfasadaEnLima | NuevoAlquiler.PrecioSegunRetiro |

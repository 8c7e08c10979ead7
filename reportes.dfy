// The report helpers of the client library: the daily cash summary (payments
// of one day grouped by method), the dance revenue ranking (returned rentals
// grouped by dance, sorted by revenue), and the storage path of an uploaded
// ID photo.
//
// Both reports group rows with a `reduce` whose callback updates an
// accumulator dictionary in place. The dictionary is a map plus the order in
// which keys were first added. That is the order `Object.entries` lists them
// in only for keys that do not look like array indices (such keys come first,
// in ascending numeric order); the model assumes no dance name and no
// payment-method tag is such a key. `Agrupar` is the in-place loop, proved to
// compute `Resumen` and `Claves`.

module Reportes {
  import opened Tipos
  import opened Texto
  import opened Fechas
  import opened Listas

  // ---- Grouping ---------------------------------------------------------

  /** `{ total, count }` of one key of the accumulator. */
  datatype Totales = Totales(total: Centimos, count: nat)

  /** One row as the reduce callback sees it: the key it groups under and the amount it adds. */
  datatype Movimiento = Movimiento(clave: string, monto: Centimos)

  function Total(t: Totales): int { t.total }

  function Cantidad(t: Totales): int { t.count }

  /** One call of the callback: create the key at zero if it is missing, then
      add the amount and one to the count. */
  function Acumular(acc: map<string, Totales>, m: Movimiento): map<string, Totales> {
    var t := if m.clave in acc then acc[m.clave] else Totales(0, 0);
    acc[m.clave := Totales(t.total + m.monto, t.count + 1)]
  }

  /** The accumulator after the whole reduce, starting from `{}`. */
  function Resumen(filas: seq<Movimiento>): map<string, Totales>
    decreases |filas|
  {
    if filas == [] then map[]
    else Acumular(Resumen(filas[..|filas| - 1]), filas[|filas| - 1])
  }

  /** The keys in the order they were first added. */
  function Claves(filas: seq<Movimiento>): seq<string>
    decreases |filas|
  {
    if filas == [] then []
    else
      var c := Claves(filas[..|filas| - 1]);
      var k := filas[|filas| - 1].clave;
      if k in c then c else c + [k]
  }

  /** Number of rows with key k. */
  function Cuenta(filas: seq<Movimiento>, k: string): nat
    decreases |filas|
  {
    if filas == [] then 0
    else Cuenta(filas[..|filas| - 1], k) + (if filas[|filas| - 1].clave == k then 1 else 0)
  }

  /** Sum of the amounts of the rows with key k. */
  function SumaDe(filas: seq<Movimiento>, k: string): int
    decreases |filas|
  {
    if filas == [] then 0
    else SumaDe(filas[..|filas| - 1], k) + (if filas[|filas| - 1].clave == k then filas[|filas| - 1].monto else 0)
  }

  /** `reduce((sum, p) => sum + p.monto, 0)` */
  function SumaMontos(filas: seq<Movimiento>): int
    decreases |filas|
  {
    if filas == [] then 0 else SumaMontos(filas[..|filas| - 1]) + filas[|filas| - 1].monto
  }

  predicate Distintas(s: seq<string>) {
    forall i, j :: 0 <= i < j < |s| ==> s[i] != s[j]
  }

  /** A key is in the summary exactly when some row has it, and then its
      total is the sum of those rows' amounts and its count their number. */
  lemma {:induction false} ResumenPorClave(filas: seq<Movimiento>)
    ensures forall k :: k in Resumen(filas) <==> Cuenta(filas, k) > 0
    ensures forall k :: k in Resumen(filas) ==> Resumen(filas)[k] == Totales(SumaDe(filas, k), Cuenta(filas, k))
    ensures forall k :: k !in Resumen(filas) ==> SumaDe(filas, k) == 0
    decreases |filas|
  {
    if filas != [] {
      var ini := filas[..|filas| - 1];
      var m := filas[|filas| - 1];
      ResumenPorClave(ini);
      assert Resumen(filas) == Acumular(Resumen(ini), m);
      forall k | k in Resumen(filas)
        ensures Resumen(filas)[k] == Totales(SumaDe(filas, k), Cuenta(filas, k))
      {
        if k != m.clave {
          assert Resumen(filas)[k] == Resumen(ini)[k];
        } else if k !in Resumen(ini) {
          assert SumaDe(ini, k) == 0 && Cuenta(ini, k) == 0;
        }
      }
    }
  }

  /** Cuenta counts the positions holding the key. */
  lemma {:induction false} CuentaPositiva(filas: seq<Movimiento>, k: string)
    ensures Cuenta(filas, k) > 0 <==> exists i :: 0 <= i < |filas| && filas[i].clave == k
    decreases |filas|
  {
    if filas != [] {
      var ini := filas[..|filas| - 1];
      CuentaPositiva(ini, k);
      if exists i :: 0 <= i < |filas| && filas[i].clave == k {
        var i :| 0 <= i < |filas| && filas[i].clave == k;
        if i < |ini| {
          assert ini[i].clave == k;
        }
      }
      if exists i :: 0 <= i < |ini| && ini[i].clave == k {
        var i :| 0 <= i < |ini| && ini[i].clave == k;
        assert filas[i].clave == k;
      }
    }
  }

  /** The key order lists every key of the summary once. */
  lemma {:induction false} ClavesDelResumen(filas: seq<Movimiento>)
    ensures Distintas(Claves(filas))
    ensures forall k :: k in Claves(filas) <==> k in Resumen(filas)
    decreases |filas|
  {
    if filas != [] {
      ClavesDelResumen(filas[..|filas| - 1]);
    }
  }

  /** Sum of one field over the keys of a summary, in the given order. */
  function Sumar(claves: seq<string>, r: map<string, Totales>, f: Totales -> int): int
    decreases |claves|
  {
    if claves == [] then 0
    else
      var k := claves[|claves| - 1];
      Sumar(claves[..|claves| - 1], r, f) + (if k in r then f(r[k]) else 0)
  }

  lemma {:induction false} SumarSinLaClave(claves: seq<string>, r: map<string, Totales>, k: string, v: Totales, f: Totales -> int)
    requires k !in claves
    ensures Sumar(claves, r[k := v], f) == Sumar(claves, r, f)
    decreases |claves|
  {
    if claves != [] {
      SumarSinLaClave(claves[..|claves| - 1], r, k, v, f);
    }
  }

  lemma {:induction false} SumarCambioUnico(claves: seq<string>, r: map<string, Totales>, k: string, v: Totales, f: Totales -> int)
    requires Distintas(claves) && k in claves && k in r
    ensures Sumar(claves, r[k := v], f) == Sumar(claves, r, f) - f(r[k]) + f(v)
    decreases |claves|
  {
    var ini := claves[..|claves| - 1];
    if claves[|claves| - 1] == k {
      assert k !in ini;
      SumarSinLaClave(ini, r, k, v, f);
    } else {
      assert k in ini;
      SumarCambioUnico(ini, r, k, v, f);
    }
  }

  /** One call of the callback changes the sum of a field over the key order
      by the difference at the key it touched. */
  lemma SumarAcumular(c: seq<string>, r: map<string, Totales>, m: Movimiento, f: Totales -> int)
    requires Distintas(c) && forall k :: k in c <==> k in r
    ensures Sumar(if m.clave in c then c else c + [m.clave], Acumular(r, m), f)
         == Sumar(c, r, f) - (if m.clave in r then f(r[m.clave]) else 0) + f(Acumular(r, m)[m.clave])
  {
    var v := Acumular(r, m)[m.clave];
    assert Acumular(r, m) == r[m.clave := v];
    if m.clave in c {
      SumarCambioUnico(c, r, m.clave, v, f);
    } else {
      assert (c + [m.clave])[..|c|] == c;
      SumarSinLaClave(c, r, m.clave, v, f);
    }
  }

  /** The per-key totals of the summary add up to the sum of all amounts. */
  lemma {:induction false} SumaTotalPorClaves(filas: seq<Movimiento>)
    ensures Sumar(Claves(filas), Resumen(filas), Total) == SumaMontos(filas)
    decreases |filas|
  {
    if filas != [] {
      var ini := filas[..|filas| - 1];
      SumaTotalPorClaves(ini);
      ClavesDelResumen(ini);
      SumarAcumular(Claves(ini), Resumen(ini), filas[|filas| - 1], Total);
    }
  }

  /** The per-key counts of the summary add up to the number of rows. */
  lemma {:induction false} SumaCantidadPorClaves(filas: seq<Movimiento>)
    ensures Sumar(Claves(filas), Resumen(filas), Cantidad) == |filas|
    decreases |filas|
  {
    if filas != [] {
      var ini := filas[..|filas| - 1];
      SumaCantidadPorClaves(ini);
      ClavesDelResumen(ini);
      SumarAcumular(Claves(ini), Resumen(ini), filas[|filas| - 1], Cantidad);
    }
  }

  /** The reduce itself: one pass over the rows updating the accumulator in
      place; the key order is what `Object.entries` would list for keys that
      are not integer-like. */
  method Agrupar(filas: seq<Movimiento>) returns (acc: map<string, Totales>, orden: seq<string>)
    ensures acc == Resumen(filas) && orden == Claves(filas)
  {
    acc := map[];
    orden := [];
    var i := 0;
    while i < |filas|
      invariant 0 <= i <= |filas|
      invariant acc == Resumen(filas[..i]) && orden == Claves(filas[..i])
    {
      var m := filas[i];
      assert filas[..i + 1][..i] == filas[..i];
      if m.clave !in acc {
        ClavesDelResumen(filas[..i]);
        acc := acc[m.clave := Totales(0, 0)];
        orden := orden + [m.clave];
      } else {
        ClavesDelResumen(filas[..i]);
      }
      acc := acc[m.clave := Totales(acc[m.clave].total + m.monto, acc[m.clave].count + 1)];
      i := i + 1;
    }
    assert filas[..|filas|] == filas;
  }

  // ---- Timestamps -----------------------------------------------------------

  const MicrosPorSegundo: nat := 1000000
  const MicrosPorDia: nat := 86400 * MicrosPorSegundo

  /** A `timestamptz` value: a calendar day and the microseconds since its midnight. */
  datatype Instante = Instante(fecha: Fecha, micros: nat)

  predicate InstanteValido(t: Instante) {
    Valida(t.fecha) && t.micros < MicrosPorDia
  }

  /** a <= b */
  predicate NoDespues(a: Instante, b: Instante) {
    AntesCivil(a.fecha, b.fecha) || (a.fecha == b.fecha && a.micros <= b.micros)
  }

  /** `${d}T00:00:00` */
  function Inicio(d: Fecha): Instante { Instante(d, 0) }

  /** `${d}T23:59:59` */
  function Cierre(d: Fecha): Instante { Instante(d, 86399 * MicrosPorSegundo) }

  /** The query window of the cash report: at or after the start of the day
      and at or before its last whole second. */
  predicate EnCaja(t: Instante, d: Fecha) {
    NoDespues(Inicio(d), t) && NoDespues(t, Cierre(d))
  }

  /** The window holds exactly the instants of day d up to 23:59:59 inclusive. */
  lemma VentanaDelDia(t: Instante, d: Fecha)
    ensures EnCaja(t, d) <==> t.fecha == d && t.micros <= 86399 * MicrosPorSegundo
  {
    if EnCaja(t, d) {
      assert !(AntesCivil(d, t.fecha) && AntesCivil(t.fecha, d));
    }
  }

  /** The fraction of the last second of the day falls outside the window:
      a payment at 23:59:59.000001 is not in that day's cash report. */
  lemma UltimaFraccionFuera(d: Fecha)
    requires Valida(d)
    ensures var t := Instante(d, 86399 * MicrosPorSegundo + 1);
      InstanteValido(t) && !EnCaja(t, d)
  {
    VentanaDelDia(Instante(d, 86399 * MicrosPorSegundo + 1), d);
  }

  // ---- Daily cash report --------------------------------------------------------

  /** The columns of `pagos` the cash report selects. */
  datatype Pago = Pago(metodo: MetodoPago, monto: Centimos, concepto: string, creado: Instante)

  /** `fecha ?? today`: the day to report, with today's date as a parameter. */
  function DiaObjetivo(fecha: Option<Fecha>, hoy: Fecha): (d: Fecha)
    ensures fecha.Some? ==> d == fecha.value
    ensures fecha.None? ==> d == hoy
  {
    fecha.GetOr(hoy)
  }

  /** The payments the query returns for day d. */
  function PagosDelDia(pagos: seq<Pago>, d: Fecha): seq<Pago> {
    Filtrar(pagos, (p: Pago) => EnCaja(p.creado, d))
  }

  /** Each payment grouped under `String(pago.metodo)`. */
  function MovimientosDeCaja(pagos: seq<Pago>): (r: seq<Movimiento>)
    ensures |r| == |pagos|
    ensures forall i :: 0 <= i < |r| ==> r[i] == Movimiento(MetodoTexto(pagos[i].metodo), pagos[i].monto)
    decreases |pagos|
  {
    if pagos == [] then []
    else MovimientosDeCaja(pagos[..|pagos| - 1])
         + [Movimiento(MetodoTexto(pagos[|pagos| - 1].metodo), pagos[|pagos| - 1].monto)]
  }

  datatype Caja = Caja(pagos: seq<Pago>, resumen: map<string, Totales>, totalDia: Centimos)

  /** fetchCajaDiaria after the query: the payments of the day, the per-method
      summary built by the in-place reduce, and the day's total. */
  method CajaDiaria(pagos: seq<Pago>, fecha: Option<Fecha>, hoy: Fecha) returns (c: Caja)
    ensures c.pagos == PagosDelDia(pagos, DiaObjetivo(fecha, hoy))
    ensures c.resumen == Resumen(MovimientosDeCaja(c.pagos))
    ensures c.totalDia == SumaMontos(MovimientosDeCaja(c.pagos))
    ensures forall i :: 0 <= i < |c.pagos| ==> EnCaja(c.pagos[i].creado, DiaObjetivo(fecha, hoy))
  {
    var d := DiaObjetivo(fecha, hoy);
    var delDia := PagosDelDia(pagos, d);
    var movimientos := MovimientosDeCaja(delDia);
    var resumen, orden := Agrupar(movimientos);
    c := Caja(delDia, resumen, SumaMontos(movimientos));
  }

  /** A method is a key of the day's summary exactly when one of the day's
      payments used it. */
  lemma MetodosDeCaja(pagos: seq<Pago>, m: MetodoPago)
    ensures MetodoTexto(m) in Resumen(MovimientosDeCaja(pagos))
        <==> exists i :: 0 <= i < |pagos| && pagos[i].metodo == m
  {
    var movs := MovimientosDeCaja(pagos);
    ResumenPorClave(movs);
    CuentaPositiva(movs, MetodoTexto(m));
    if exists i :: 0 <= i < |pagos| && pagos[i].metodo == m {
      var i :| 0 <= i < |pagos| && pagos[i].metodo == m;
      assert movs[i].clave == MetodoTexto(m);
    }
    if MetodoTexto(m) in Resumen(movs) {
      var i :| 0 <= i < |movs| && movs[i].clave == MetodoTexto(m);
      MetodoTextoInyectivo(pagos[i].metodo, m);
    }
  }

  /** Every key of the day's summary is the tag of a payment method. */
  lemma ClavesDeCaja(pagos: seq<Pago>, k: string)
    requires k in Resumen(MovimientosDeCaja(pagos))
    ensures LeerMetodo(k).Some?
  {
    var movs := MovimientosDeCaja(pagos);
    ResumenPorClave(movs);
    CuentaPositiva(movs, k);
    var i :| 0 <= i < |movs| && movs[i].clave == k;
    assert k == MetodoTexto(pagos[i].metodo);
  }

  /** Each method's count in the summary is the number of its payments and
      its total their sum, and the per-method totals add up to the day's total. */
  lemma ResumenDeCaja(pagos: seq<Pago>)
    ensures var movs := MovimientosDeCaja(pagos);
      var r := Resumen(movs);
      && (forall k :: k in r ==> r[k].count == Cuenta(movs, k) && r[k].total == SumaDe(movs, k))
      && Sumar(Claves(movs), r, Total) == SumaMontos(movs)
  {
    var movs := MovimientosDeCaja(pagos);
    ResumenPorClave(movs);
    SumaTotalPorClaves(movs);
  }

  // ---- Dance revenue ranking ----------------------------------------------------

  /** The columns the ranking selects from `alquileres`, with the state and
      creation instant the query filters on, and the costume's dance (absent
      when the rental has no costume row). */
  datatype Alquilado = Alquilado(estado: EstadoAlquiler, creado: Instante, totalCobrado: Centimos, danza: Option<string>)

  /** The rows of the query: returned rentals, within the optional bounds. */
  function Devueltos(filas: seq<Alquilado>, desde: Option<Instante>, hasta: Option<Instante>): seq<Alquilado> {
    Filtrar(filas, (a: Alquilado) =>
      a.estado == Devuelto
      && (desde.None? || NoDespues(desde.value, a.creado))
      && (hasta.None? || NoDespues(a.creado, hasta.value)))
  }

  /** Each rental grouped under its dance, `'Desconocida'` when there is none. */
  function MovimientosDeDanza(filas: seq<Alquilado>): (r: seq<Movimiento>)
    ensures |r| == |filas|
    ensures forall i :: 0 <= i < |r| ==>
      r[i] == Movimiento(if filas[i].danza.Some? then filas[i].danza.value else "Desconocida", filas[i].totalCobrado)
    decreases |filas|
  {
    if filas == [] then []
    else
      var a := filas[|filas| - 1];
      MovimientosDeDanza(filas[..|filas| - 1]) + [Movimiento(a.danza.GetOr("Desconocida"), a.totalCobrado)]
  }

  /** `{ danza, ...stats }` */
  datatype DanzaTotal = DanzaTotal(danza: string, total: Centimos, count: nat)

  /** `Object.entries(porDanza).map(...)`: one entry per key, in key order. */
  function Entradas(claves: seq<string>, r: map<string, Totales>): (e: seq<DanzaTotal>)
    requires forall i :: 0 <= i < |claves| ==> claves[i] in r
    ensures |e| == |claves|
    ensures forall i :: 0 <= i < |e| ==> e[i] == DanzaTotal(claves[i], r[claves[i]].total, r[claves[i]].count)
    decreases |claves|
  {
    if claves == [] then []
    else
      var k := claves[|claves| - 1];
      Entradas(claves[..|claves| - 1], r) + [DanzaTotal(k, r[k].total, r[k].count)]
  }

  predicate Descendente(s: seq<DanzaTotal>) {
    forall i, j :: 0 <= i < j < |s| ==> s[i].total >= s[j].total
  }

  predicate DanzasDistintas(s: seq<DanzaTotal>) {
    forall i, j :: 0 <= i < j < |s| ==> s[i].danza != s[j].danza
  }

  function SumaCuentas(s: seq<DanzaTotal>): int
    decreases |s|
  {
    if s == [] then 0 else s[0].count + SumaCuentas(s[1..])
  }

  /** Inserts e into a descending list after every entry whose total is at least e's. */
  function InsertarOrdenado(e: DanzaTotal, s: seq<DanzaTotal>): (r: seq<DanzaTotal>)
    ensures |r| == |s| + 1
    ensures multiset(r) == multiset(s) + multiset{e}
    ensures r[0] == e || (|s| > 0 && r[0] == s[0])
    decreases |s|
  {
    if s == [] then [e]
    else if s[0].total >= e.total then
      var resto := InsertarOrdenado(e, s[1..]);
      assert s == [s[0]] + s[1..];
      [s[0]] + resto
    else
      [e] + s
  }

  /** An element of the insertion is the inserted one or one of the list's. */
  lemma InsertarMiembros(e: DanzaTotal, s: seq<DanzaTotal>, j: nat)
    requires j < |InsertarOrdenado(e, s)|
    ensures InsertarOrdenado(e, s)[j] == e || InsertarOrdenado(e, s)[j] in s
  {
    var r := InsertarOrdenado(e, s);
    assert r[j] in multiset(r);
  }

  lemma {:induction false} InsertarDescendente(e: DanzaTotal, s: seq<DanzaTotal>)
    requires Descendente(s)
    ensures Descendente(InsertarOrdenado(e, s))
    decreases |s|
  {
    if s != [] && s[0].total >= e.total {
      var resto := InsertarOrdenado(e, s[1..]);
      InsertarDescendente(e, s[1..]);
      var r := [s[0]] + resto;
      assert r == InsertarOrdenado(e, s);
      forall j | 0 < j < |r|
        ensures r[0].total >= r[j].total
      {
        assert r[j] == resto[j - 1];
        InsertarMiembros(e, s[1..], j - 1);
        if resto[j - 1] != e {
          var k :| 0 <= k < |s| - 1 && s[1..][k] == resto[j - 1];
          assert s[k + 1] == r[j];
        }
      }
      forall i, j | 0 < i < j < |r|
        ensures r[i].total >= r[j].total
      {
        assert r[i] == resto[i - 1] && r[j] == resto[j - 1];
      }
    }
  }

  lemma {:induction false} InsertarSumaCuentas(e: DanzaTotal, s: seq<DanzaTotal>)
    ensures SumaCuentas(InsertarOrdenado(e, s)) == SumaCuentas(s) + e.count
    decreases |s|
  {
    if s != [] && s[0].total >= e.total {
      InsertarSumaCuentas(e, s[1..]);
      assert InsertarOrdenado(e, s)[1..] == InsertarOrdenado(e, s[1..]);
    }
  }

  lemma {:induction false} InsertarDistintas(e: DanzaTotal, s: seq<DanzaTotal>)
    requires DanzasDistintas(s) && forall i :: 0 <= i < |s| ==> s[i].danza != e.danza
    ensures DanzasDistintas(InsertarOrdenado(e, s))
    decreases |s|
  {
    if s != [] && s[0].total >= e.total {
      var resto := InsertarOrdenado(e, s[1..]);
      InsertarDistintas(e, s[1..]);
      var r := [s[0]] + resto;
      assert r == InsertarOrdenado(e, s);
      forall j | 0 <= j < |resto|
        ensures resto[j].danza != s[0].danza
      {
        InsertarMiembros(e, s[1..], j);
      }
    }
  }

  /** `.sort((a, b) => b.total - a.total)`: a stable sort by total, largest first. */
  function OrdenarPorTotal(s: seq<DanzaTotal>): (r: seq<DanzaTotal>)
    ensures |r| == |s|
    ensures multiset(r) == multiset(s)
    decreases |s|
  {
    if s == [] then []
    else
      assert s == s[..|s| - 1] + [s[|s| - 1]];
      InsertarOrdenado(s[|s| - 1], OrdenarPorTotal(s[..|s| - 1]))
  }

  /** The sorted list is descending. */
  lemma {:induction false} OrdenarDescendente(s: seq<DanzaTotal>)
    ensures Descendente(OrdenarPorTotal(s))
    decreases |s|
  {
    if s != [] {
      var ini := s[..|s| - 1];
      OrdenarDescendente(ini);
      InsertarDescendente(s[|s| - 1], OrdenarPorTotal(ini));
    }
  }

  /** Sorting keeps the sum of the counts. */
  lemma {:induction false} OrdenarSumaCuentas(s: seq<DanzaTotal>)
    ensures SumaCuentas(OrdenarPorTotal(s)) == SumaCuentas(s)
    decreases |s|
  {
    if s != [] {
      var ini := s[..|s| - 1];
      var e := s[|s| - 1];
      var o := OrdenarPorTotal(ini);
      assert OrdenarPorTotal(s) == InsertarOrdenado(e, o);
      OrdenarSumaCuentas(ini);
      InsertarSumaCuentas(e, o);
      SumaCuentasUltimo(s);
    }
  }

  /** Sorting a list of distinct dances keeps them distinct. */
  lemma {:induction false} OrdenarDistintas(s: seq<DanzaTotal>)
    requires DanzasDistintas(s)
    ensures DanzasDistintas(OrdenarPorTotal(s))
    decreases |s|
  {
    if s != [] {
      var ini := s[..|s| - 1];
      var e := s[|s| - 1];
      var o := OrdenarPorTotal(ini);
      OrdenarDistintas(ini);
      forall i | 0 <= i < |o|
        ensures o[i].danza != e.danza
      {
        assert o[i] in multiset(ini);
        var j :| 0 <= j < |ini| && ini[j] == o[i];
        assert s[j] == o[i];
      }
      InsertarDistintas(e, o);
    }
  }

  /** The sum of counts can also be taken from the back. */
  lemma SumaCuentasUltimo(s: seq<DanzaTotal>)
    requires s != []
    ensures SumaCuentas(s) == SumaCuentas(s[..|s| - 1]) + s[|s| - 1].count
  {
    var e := s[|s| - 1];
    assert s == s[..|s| - 1] + [e];
    assert SumaCuentas([e]) == e.count by {
      assert [e][1..] == [];
    }
    SumaCuentasConcat(s[..|s| - 1], [e]);
  }

  lemma {:induction false} SumaCuentasConcat(a: seq<DanzaTotal>, b: seq<DanzaTotal>)
    ensures SumaCuentas(a + b) == SumaCuentas(a) + SumaCuentas(b)
    decreases |a|
  {
    if a == [] {
      assert a + b == b;
    } else {
      assert (a + b)[1..] == a[1..] + b;
      SumaCuentasConcat(a[1..], b);
    }
  }

  lemma {:induction false} SumaCuentasEntradas(claves: seq<string>, r: map<string, Totales>)
    requires forall i :: 0 <= i < |claves| ==> claves[i] in r
    ensures SumaCuentas(Entradas(claves, r)) == Sumar(claves, r, Cantidad)
    decreases |claves|
  {
    if claves != [] {
      var ini := claves[..|claves| - 1];
      var k := claves[|claves| - 1];
      SumaCuentasEntradas(ini, r);
      assert Entradas(claves, r) == Entradas(ini, r) + [DanzaTotal(k, r[k].total, r[k].count)];
      SumaCuentasConcat(Entradas(ini, r), [DanzaTotal(k, r[k].total, r[k].count)]);
    }
  }

  /** The ranking's entries, before and after sorting, from the selected rows. */
  function Ranking(filas: seq<Alquilado>, desde: Option<Instante>, hasta: Option<Instante>): seq<DanzaTotal> {
    var movs := MovimientosDeDanza(Devueltos(filas, desde, hasta));
    ClavesDelResumen(movs);
    OrdenarPorTotal(Entradas(Claves(movs), Resumen(movs)))
  }

  /** fetchDanzasRentables after the query: group by dance with the in-place
      reduce, list the entries, sort them by total. */
  method DanzasRentables(filas: seq<Alquilado>, desde: Option<Instante>, hasta: Option<Instante>)
    returns (ranking: seq<DanzaTotal>)
    ensures ranking == Ranking(filas, desde, hasta)
  {
    var movs := MovimientosDeDanza(Devueltos(filas, desde, hasta));
    var porDanza, orden := Agrupar(movs);
    ClavesDelResumen(movs);
    ranking := OrdenarPorTotal(Entradas(orden, porDanza));
  }

  /** The ranking is sorted by total, largest first, has one entry per
      dance among the selected rows, and its counts add up to the number of
      selected rows. */
  lemma RankingOrdenado(filas: seq<Alquilado>, desde: Option<Instante>, hasta: Option<Instante>)
    ensures var sel := Devueltos(filas, desde, hasta);
      var movs := MovimientosDeDanza(sel);
      var r := Ranking(filas, desde, hasta);
      && Descendente(r)
      && DanzasDistintas(r)
      && |r| == |Claves(movs)|
      && SumaCuentas(r) == |sel|
  {
    var movs := MovimientosDeDanza(Devueltos(filas, desde, hasta));
    var c := Claves(movs);
    var res := Resumen(movs);
    ClavesDelResumen(movs);
    SumaCantidadPorClaves(movs);
    var e := Entradas(c, res);
    SumaCuentasEntradas(c, res);
    assert DanzasDistintas(e);
    OrdenarDescendente(e);
    OrdenarSumaCuentas(e);
    OrdenarDistintas(e);
  }

  /** Each entry carries its dance's revenue and number of rentals among the
      selected rows (rows without a dance counting as `'Desconocida'`). */
  lemma RankingPorDanza(filas: seq<Alquilado>, desde: Option<Instante>, hasta: Option<Instante>)
    ensures var movs := MovimientosDeDanza(Devueltos(filas, desde, hasta));
      var r := Ranking(filas, desde, hasta);
      forall i :: 0 <= i < |r| ==>
        r[i].total == SumaDe(movs, r[i].danza) && r[i].count == Cuenta(movs, r[i].danza) && r[i].count > 0
  {
    var movs := MovimientosDeDanza(Devueltos(filas, desde, hasta));
    var c := Claves(movs);
    var res := Resumen(movs);
    ClavesDelResumen(movs);
    ResumenPorClave(movs);
    var e := Entradas(c, res);
    var r := OrdenarPorTotal(e);
    forall i | 0 <= i < |r|
      ensures r[i].total == SumaDe(movs, r[i].danza) && r[i].count == Cuenta(movs, r[i].danza) && r[i].count > 0
    {
      assert r[i] in multiset(e);
      var j :| 0 <= j < |e| && e[j] == r[i];
    }
  }

  // ---- ID photo path ------------------------------------------------------------

  /** `name.split('.').pop()`: the text after the last '.', or the whole name
      when it has none. */
  function TrasUltimoPunto(s: string): (r: string)
    ensures |r| <= |s| && s[|s| - |r|..] == r
    ensures forall i :: 0 <= i < |r| ==> r[i] != '.'
    ensures |r| < |s| ==> s[|s| - |r| - 1] == '.'
    decreases |s|
  {
    if s == [] then ""
    else if s[|s| - 1] == '.' then ""
    else TrasUltimoPunto(s[..|s| - 1]) + [s[|s| - 1]]
  }

  /** `dni/${clienteId}_${Date.now()}.${extension}`, with the clock reading as a parameter. */
  function RutaFotoDNI(clienteId: string, ahora: nat, nombre: string): string {
    "dni/" + clienteId + "_" + NatATexto(ahora) + "." + TrasUltimoPunto(nombre)
  }

  /** Whatever precedes a last '.', the text after it is what is found again. */
  lemma {:induction false} TrasPuntoFinal(p: string, e: string)
    requires forall i :: 0 <= i < |e| ==> e[i] != '.'
    ensures TrasUltimoPunto(p + "." + e) == e
    decreases |e|
  {
    var s := p + "." + e;
    if e == [] {
      assert s[|s| - 1] == '.';
    } else {
      var ini := e[..|e| - 1];
      assert s[..|s| - 1] == p + "." + ini;
      TrasPuntoFinal(p, ini);
      assert e == ini + [e[|e| - 1]];
    }
  }

  /** The stored path keeps the uploaded file's extension: reading the text
      after its last '.' gives back the name's; a name without '.' is its own
      extension. */
  lemma ExtensionDeLaRuta(clienteId: string, ahora: nat, nombre: string)
    ensures TrasUltimoPunto(RutaFotoDNI(clienteId, ahora, nombre)) == TrasUltimoPunto(nombre)
  {
    var prefijo := "dni/" + clienteId + "_" + NatATexto(ahora);
    assert RutaFotoDNI(clienteId, ahora, nombre) == prefijo + "." + TrasUltimoPunto(nombre);
    TrasPuntoFinal(prefijo, TrasUltimoPunto(nombre));
  }

  /** A name without '.' is its own extension. */
  lemma {:induction false} NombreSinPunto(nombre: string)
    requires forall i :: 0 <= i < |nombre| ==> nombre[i] != '.'
    ensures TrasUltimoPunto(nombre) == nombre
    decreases |nombre|
  {
    if nombre != [] {
      var resto := nombre[..|nombre| - 1];
      assert nombre[|nombre| - 1] != '.';
      NombreSinPunto(resto);
      assert resto + [nombre[|nombre| - 1]] == nombre;
    }
  }
}

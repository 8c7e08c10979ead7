// Civil calendar dates, the "YYYY-MM-DD" text the forms and the Edge
// Function exchange, and the day count that JavaScript Date comparisons and
// setDate arithmetic reduce to once a date has been parsed.

module Fechas {
  import opened Tipos
  import opened Texto

  datatype Fecha = Fecha(anio: nat, mes: nat, dia: nat)

  predicate Bisiesto(y: nat) {
    (y % 4 == 0 && y % 100 != 0) || y % 400 == 0
  }

  function DiasDelMes(y: nat, m: nat): nat
    requires 1 <= m <= 12
  {
    if m == 2 then (if Bisiesto(y) then 29 else 28)
    else if m == 4 || m == 6 || m == 9 || m == 11 then 30
    else 31
  }

  /** A real calendar day: month 1..12 and a day that exists in that month. */
  predicate Valida(f: Fecha) {
    1 <= f.mes <= 12 && 1 <= f.dia <= DiasDelMes(f.anio, f.mes)
  }

  function DiasDelAnio(y: nat): nat {
    if Bisiesto(y) then 366 else 365
  }

  function DiasAntesDelAnio(y: nat): nat {
    if y == 0 then 0 else DiasAntesDelAnio(y - 1) + DiasDelAnio(y - 1)
  }

  function DiasAntesDelMes(y: nat, m: nat): nat
    requires 1 <= m <= 12
  {
    [0, 31, 59, 90, 120, 151, 181, 212, 243, 273, 304, 334][m - 1]
      + (if m > 2 && Bisiesto(y) then 1 else 0)
  }

  /** Days elapsed from 0000-01-01 to f. Two parsed dates compare with `<`
      exactly as their day numbers do. */
  function NumeroDeDia(f: Fecha): nat
    requires Valida(f)
  {
    DiasAntesDelAnio(f.anio) + DiasAntesDelMes(f.anio, f.mes) + f.dia - 1
  }

  /** Calendar order: by year, then month, then day. */
  predicate AntesCivil(a: Fecha, b: Fecha) {
    a.anio < b.anio || (a.anio == b.anio && (a.mes < b.mes || (a.mes == b.mes && a.dia < b.dia)))
  }

  lemma {:induction false} DiasAntesDelAnioCrece(y1: nat, y2: nat)
    requires y1 < y2
    ensures DiasAntesDelAnio(y1) + DiasDelAnio(y1) <= DiasAntesDelAnio(y2)
    decreases y2
  {
    if y1 + 1 < y2 {
      DiasAntesDelAnioCrece(y1, y2 - 1);
    }
  }

  lemma MesDentroDelAnio(y: nat, m: nat)
    requires 1 <= m <= 12
    ensures DiasAntesDelMes(y, m) + DiasDelMes(y, m) <= DiasDelAnio(y)
    ensures m < 12 ==> DiasAntesDelMes(y, m + 1) == DiasAntesDelMes(y, m) + DiasDelMes(y, m)
  {
  }

  lemma MesesCrecen(y: nat, m1: nat, m2: nat)
    requires 1 <= m1 < m2 <= 12
    ensures DiasAntesDelMes(y, m1) + DiasDelMes(y, m1) <= DiasAntesDelMes(y, m2)
  {
  }

  /** The day count is strictly increasing in calendar order. */
  lemma NumeroDeDiaMonotono(a: Fecha, b: Fecha)
    requires Valida(a) && Valida(b) && AntesCivil(a, b)
    ensures NumeroDeDia(a) < NumeroDeDia(b)
  {
    if a.anio < b.anio {
      MesDentroDelAnio(a.anio, a.mes);
      DiasAntesDelAnioCrece(a.anio, b.anio);
    } else if a.mes < b.mes {
      MesesCrecen(a.anio, a.mes, b.mes);
    }
  }

  /** Comparing parsed dates (as `new Date(x) < new Date(y)` does) is
      comparing them in calendar order. */
  lemma OrdenDeDias(a: Fecha, b: Fecha)
    requires Valida(a) && Valida(b)
    ensures NumeroDeDia(a) < NumeroDeDia(b) <==> AntesCivil(a, b)
    ensures NumeroDeDia(a) == NumeroDeDia(b) <==> a == b
  {
    if AntesCivil(a, b) {
      NumeroDeDiaMonotono(a, b);
    } else if AntesCivil(b, a) {
      NumeroDeDiaMonotono(b, a);
    } else {
      assert a == b;
    }
  }

  /** The calendar day after f. */
  function DiaSiguiente(f: Fecha): (g: Fecha)
    requires Valida(f)
    ensures Valida(g) && NumeroDeDia(g) == NumeroDeDia(f) + 1
  {
    MesDentroDelAnio(f.anio, f.mes);
    if f.dia < DiasDelMes(f.anio, f.mes) then Fecha(f.anio, f.mes, f.dia + 1)
    else if f.mes < 12 then Fecha(f.anio, f.mes + 1, 1)
    else Fecha(f.anio + 1, 1, 1)
  }

  /** f moved n calendar days forward (Date.setDate(getDate() + n)). */
  function SumarDias(f: Fecha, n: nat): (g: Fecha)
    requires Valida(f)
    ensures Valida(g) && NumeroDeDia(g) == NumeroDeDia(f) + n
  {
    if n == 0 then f else DiaSiguiente(SumarDias(f, n - 1))
  }

  // ---- "YYYY-MM-DD" ---------------------------------------------------

  /** The ISO date text, as toISOString().split('T')[0] and <input type=date> give it. */
  function EscribirFecha(f: Fecha): string {
    DigitosFijos(f.anio, 4) + "-" + DigitosFijos(f.mes, 2) + "-" + DigitosFijos(f.dia, 2)
  }

  /** Parses "YYYY-MM-DD"; None when the text has another shape or names a
      day the calendar does not have. */
  function LeerFecha(s: string): (r: Option<Fecha>)
    ensures r.Some? ==> Valida(r.value)
  {
    if |s| == 10 && s[4] == '-' && s[7] == '-'
       && TodosDigitos(s[..4]) && TodosDigitos(s[5..7]) && TodosDigitos(s[8..])
    then
      var f := Fecha(LeerNat(s[..4]), LeerNat(s[5..7]), LeerNat(s[8..]));
      if Valida(f) then Some(f) else None
    else None
  }

  /** What the parser accepts is a valid date whose rendering is the text itself. */
  lemma LeerFechaExacta(s: string)
    requires LeerFecha(s).Some?
    ensures var f := LeerFecha(s).value;
      Valida(f) && f.anio < 10000 && EscribirFecha(f) == s
  {
    DigitosFijosDeLeer(s[..4]);
    DigitosFijosDeLeer(s[5..7]);
    DigitosFijosDeLeer(s[8..]);
    assert s == s[..4] + "-" + s[5..7] + "-" + s[8..];
  }

  /** Every valid date of a four-digit year survives rendering and parsing. */
  lemma LeerEscribirFecha(f: Fecha)
    requires Valida(f) && f.anio < 10000
    ensures LeerFecha(EscribirFecha(f)) == Some(f)
  {
    var s := EscribirFecha(f);
    assert s[..4] == DigitosFijos(f.anio, 4);
    assert s[5..7] == DigitosFijos(f.mes, 2);
    assert s[8..] == DigitosFijos(f.dia, 2);
    LeerDigitosFijos(f.anio, 4);
    LeerDigitosFijos(f.mes, 2);
    LeerDigitosFijos(f.dia, 2);
  }
}

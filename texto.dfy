// Character and string helpers shared by the model: decimal digits, the
// JavaScript lower-casing the search boxes use, substring search, and the
// two-decimal rendering of money that Number.prototype.toFixed(2) produces.

module Texto {
  import opened Tipos

  predicate EsDigito(c: char) { '0' <= c <= '9' }

  /** Every character of s is a decimal digit (the regular-expression class \d). */
  predicate TodosDigitos(s: string)
    ensures TodosDigitos(s) <==> forall i :: 0 <= i < |s| ==> EsDigito(s[i])
  {
    |s| == 0 || (EsDigito(s[0]) && TodosDigitos(s[1..]))
  }

  function ValorDigito(c: char): (v: nat)
    requires EsDigito(c)
    ensures v < 10
  {
    (c as int) - ('0' as int)
  }

  function Digito(n: nat): (c: char)
    requires n < 10
    ensures EsDigito(c) && ValorDigito(c) == n
  {
    (('0' as int) + n) as char
  }

  function Pot10(w: nat): (p: nat)
    ensures p >= 1
  {
    if w == 0 then 1 else 10 * Pot10(w - 1)
  }

  /** The value of a string of decimal digits (the empty string reads as 0). */
  function LeerNat(s: string): nat
    requires TodosDigitos(s)
  {
    if |s| == 0 then 0 else 10 * LeerNat(s[..|s| - 1]) + ValorDigito(s[|s| - 1])
  }

  /** Decimal rendering of n without leading zeros, as String(n) gives it. */
  function NatATexto(n: nat): (s: string)
    ensures 1 <= |s| && TodosDigitos(s)
  {
    if n < 10 then [Digito(n)] else NatATexto(n / 10) + [Digito(n % 10)]
  }

  /** The w low-order decimal digits of n, left-padded with zeros. */
  function DigitosFijos(n: nat, w: nat): (s: string)
    ensures |s| == w && TodosDigitos(s)
  {
    if w == 0 then [] else DigitosFijos(n / 10, w - 1) + [Digito(n % 10)]
  }

  lemma {:induction false} LeerNatATexto(n: nat)
    ensures LeerNat(NatATexto(n)) == n
  {
    var s := NatATexto(n);
    if n >= 10 {
      LeerNatATexto(n / 10);
      assert s[..|s| - 1] == NatATexto(n / 10);
    }
  }

  lemma {:induction false} LeerDigitosFijos(n: nat, w: nat)
    requires n < Pot10(w)
    ensures LeerNat(DigitosFijos(n, w)) == n
  {
    if w > 0 {
      var s := DigitosFijos(n, w);
      assert n / 10 < Pot10(w - 1);
      LeerDigitosFijos(n / 10, w - 1);
      assert s[..|s| - 1] == DigitosFijos(n / 10, w - 1);
    }
  }

  /** Reading a digit string and writing it back at the same width gives it back. */
  lemma {:induction false} DigitosFijosDeLeer(s: string)
    requires TodosDigitos(s)
    ensures LeerNat(s) < Pot10(|s|)
    ensures DigitosFijos(LeerNat(s), |s|) == s
  {
    if |s| > 0 {
      var a := s[..|s| - 1];
      var v := ValorDigito(s[|s| - 1]);
      DigitosFijosDeLeer(a);
      var n := LeerNat(s);
      assert n == 10 * LeerNat(a) + v;
      assert n / 10 == LeerNat(a) && n % 10 == v;
      assert Digito(v) == s[|s| - 1];
      assert s == a + [s[|s| - 1]];
    }
  }

  // ---- Lower-casing and substring search ------------------------------

  /** String.prototype.toLowerCase on one character: ASCII A-Z and the
      Latin-1 capitals (except the multiplication sign) move down by 32. */
  function Minuscula(c: char): char {
    if 'A' <= c <= 'Z' || ('À' <= c <= 'Þ' && c != '×')
    then ((c as int) + 32) as char
    else c
  }

  function Minusculas(s: string): (r: string)
    ensures |r| == |s| && forall i :: 0 <= i < |s| ==> r[i] == Minuscula(s[i])
  {
    if s == [] then [] else [Minuscula(s[0])] + Minusculas(s[1..])
  }

  /** Lower-casing twice is lower-casing once, so a search that lower-cases
      its text ignores the case it was typed in. */
  lemma MinusculasIdempotente(s: string)
    ensures Minusculas(Minusculas(s)) == Minusculas(s)
  {
    var m := Minusculas(s);
    assert forall i :: 0 <= i < |s| ==> Minuscula(m[i]) == m[i];
    assert |Minusculas(m)| == |m|;
  }

  /** String.prototype.includes: p occurs in s as a contiguous block. */
  predicate Contiene(s: string, p: string)
    decreases |s|
  {
    (|p| <= |s| && s[..|p|] == p) || (|s| > 0 && Contiene(s[1..], p))
  }

  /** p occurs in s starting at position k. */
  ghost predicate OcurreEn(s: string, p: string, k: nat) {
    k + |p| <= |s| && s[k..k + |p|] == p
  }

  lemma {:induction false} ContieneEn(s: string, p: string, k: nat)
    requires OcurreEn(s, p, k)
    ensures Contiene(s, p)
    decreases k
  {
    if k > 0 {
      assert s[1..][k - 1..k - 1 + |p|] == s[k..k + |p|];
      ContieneEn(s[1..], p, k - 1);
    }
  }

  lemma {:induction false} ContienePosicion(s: string, p: string)
    requires Contiene(s, p)
    ensures exists k :: OcurreEn(s, p, k)
    decreases |s|
  {
    if |p| <= |s| && s[..|p|] == p {
      assert s[0..0 + |p|] == p;
      assert OcurreEn(s, p, 0);
    } else {
      ContienePosicion(s[1..], p);
      var k: nat :| OcurreEn(s[1..], p, k);
      assert s[k + 1..k + 1 + |p|] == s[1..][k..k + |p|];
      assert OcurreEn(s, p, k + 1);
    }
  }

  /** a + p + b contains p. */
  lemma ContieneMedio(a: string, p: string, b: string)
    ensures Contiene(a + p + b, p)
  {
    var s := a + p + b;
    assert s[|a|..|a| + |p|] == p;
    assert OcurreEn(s, p, |a|);
    ContieneEn(s, p, |a|);
  }

  /** Every string contains the empty string, so an empty search matches all. */
  lemma {:induction false} ContieneVacio(s: string)
    ensures Contiene(s, [])
  {
    assert s[..0] == [];
  }

  /** `err.message || 'Error al guardar'`: the message the pages show when a save fails. */
  function MensajeDeError(e: string): (m: string)
    ensures m != ""
    ensures e != "" ==> m == e
  {
    if e == "" then "Error al guardar" else e
  }

  // ---- Money ------------------------------------------------------------

  /** (c / 100).toFixed(2): an optional minus sign, the whole soles without
      leading zeros, a point and exactly two digits of centimos. */
  function FormatoCentimos(c: Centimos): string {
    var a := if c < 0 then -c else c;
    (if c < 0 then "-" else "") + NatATexto(a / 100) + "." + DigitosFijos(a % 100, 2)
  }

  /** Reads "<digits>.<two digits>" back into centimos. */
  function LeerSinSigno(t: string): Option<nat> {
    if |t| >= 4 && t[|t| - 3] == '.' && TodosDigitos(t[..|t| - 3]) && TodosDigitos(t[|t| - 2..])
    then Some(100 * LeerNat(t[..|t| - 3]) + LeerNat(t[|t| - 2..]))
    else None
  }

  /** Reads back a rendering made by FormatoCentimos. */
  function LeerCentimos(s: string): Option<Centimos> {
    if |s| > 0 && s[0] == '-' then
      match LeerSinSigno(s[1..])
      case Some(v) => Some(0 - v as int)
      case None => None
    else
      match LeerSinSigno(s)
      case Some(v) => Some(v)
      case None => None
  }

  /** The rendering ends in a point followed by exactly two digits. */
  lemma DosDecimales(c: Centimos)
    ensures var s := FormatoCentimos(c);
      |s| >= 4 && s[|s| - 3] == '.' && EsDigito(s[|s| - 2]) && EsDigito(s[|s| - 1])
      && '.' !in s[..|s| - 3]
  {
    var a := if c < 0 then -c else c;
    var ent := NatATexto(a / 100);
    var s := FormatoCentimos(c);
    var pre := (if c < 0 then "-" else "") + ent;
    assert s == pre + "." + DigitosFijos(a % 100, 2);
    assert s[..|s| - 3] == pre;
    assert forall i :: 0 <= i < |ent| ==> ent[i] != '.';
  }

  lemma LeerSinSignoPartes(n: nat)
    ensures LeerSinSigno(NatATexto(n / 100) + "." + DigitosFijos(n % 100, 2)) == Some(n)
  {
    var ent := NatATexto(n / 100);
    var dec := DigitosFijos(n % 100, 2);
    var t := ent + "." + dec;
    assert t[..|t| - 3] == ent;
    assert t[|t| - 2..] == dec;
    LeerNatATexto(n / 100);
    LeerDigitosFijos(n % 100, 2);
  }

  /** Rendering then reading gives the amount back, so the text loses nothing. */
  lemma FormatoCentimosIda(c: Centimos)
    ensures LeerCentimos(FormatoCentimos(c)) == Some(c)
  {
    var a := if c < 0 then -c else c;
    var ent := NatATexto(a / 100);
    var t := ent + "." + DigitosFijos(a % 100, 2);
    LeerSinSignoPartes(a);
    assert EsDigito(ent[0]) && t[0] == ent[0];
    if c < 0 {
      var s := "-" + t;
      assert FormatoCentimos(c) == s;
      assert s[1..] == t;
    } else {
      assert FormatoCentimos(c) == "" + t;
      assert "" + t == t;
    }
  }
}

// Array.prototype.filter and Array.prototype.find, as the pages use them.

module Listas {
  import opened Tipos

  /** r is an order-preserving subsequence of s (some elements of s dropped):
      each element of r is matched with its earliest occurrence left in s. */
  predicate Subsecuencia<T(==)>(r: seq<T>, s: seq<T>)
    decreases |s|
  {
    if r == [] then true
    else if s == [] then false
    else if r[0] == s[0] then Subsecuencia(r[1..], s[1..])
    else Subsecuencia(r, s[1..])
  }

  /** Putting an element in front of s keeps every subsequence of s one. */
  lemma {:induction false} SubsecuenciaExtiende<T>(r: seq<T>, x: T, s: seq<T>)
    requires Subsecuencia(r, s)
    ensures Subsecuencia(r, [x] + s)
    decreases |s|, 1
  {
    if r != [] && r[0] == x {
      assert ([x] + s)[1..] == s;
      SubsecuenciaCola(r, s);
    } else if r != [] {
      assert ([x] + s)[1..] == s;
    }
  }

  /** Dropping the first element of a subsequence leaves a subsequence. */
  lemma {:induction false} SubsecuenciaCola<T>(r: seq<T>, s: seq<T>)
    requires r != [] && Subsecuencia(r, s)
    ensures Subsecuencia(r[1..], s)
    decreases |s|, 0
  {
    if r[0] == s[0] {
      SubsecuenciaExtiende(r[1..], s[0], s[1..]);
      assert [s[0]] + s[1..] == s;
    } else {
      SubsecuenciaCola(r, s[1..]);
      SubsecuenciaExtiende(r[1..], s[0], s[1..]);
      assert [s[0]] + s[1..] == s;
    }
  }

  /** s.filter(p): the elements of s that pass p, in their original order. */
  function Filtrar<T(==)>(s: seq<T>, p: T -> bool): (r: seq<T>)
    ensures |r| <= |s|
    ensures forall i :: 0 <= i < |r| ==> p(r[i])
    ensures forall i :: 0 <= i < |r| ==> r[i] in s
    ensures forall i :: 0 <= i < |s| && p(s[i]) ==> s[i] in r
  {
    if s == [] then []
    else if p(s[0]) then [s[0]] + Filtrar(s[1..], p)
    else Filtrar(s[1..], p)
  }

  /** One step of the filter over the suffix of s that starts at k. */
  lemma FiltrarDesde<T>(s: seq<T>, k: nat, p: T -> bool)
    requires k < |s|
    ensures Filtrar(s[k..], p) == (if p(s[k]) then [s[k]] else []) + Filtrar(s[k + 1..], p)
  {
    assert s[k..][1..] == s[k + 1..];
  }

  /** When exactly the first k elements pass, the filter is the prefix of length k. */
  lemma {:induction false} FiltrarPrefijo<T>(s: seq<T>, p: T -> bool, k: nat)
    requires k <= |s|
    requires forall i :: 0 <= i < |s| ==> (p(s[i]) <==> i < k)
    ensures Filtrar(s, p) == s[..k]
  {
    if s != [] {
      if k == 0 {
        FiltrarPrefijo(s[1..], p, 0);
      } else {
        FiltrarPrefijo(s[1..], p, k - 1);
        assert [s[0]] + s[1..][..k - 1] == s[..k];
      }
    }
  }

  /** The filter keeps the elements in their original order. */
  lemma {:induction false} FiltrarEnOrden<T>(s: seq<T>, p: T -> bool)
    ensures Subsecuencia(Filtrar(s, p), s)
  {
    if s != [] {
      FiltrarEnOrden(s[1..], p);
      assert [s[0]] + s[1..] == s;
      if !p(s[0]) {
        SubsecuenciaExtiende(Filtrar(s[1..], p), s[0], s[1..]);
      }
    }
  }

  /** When every element passes, the filter returns its input unchanged. */
  lemma {:induction false} FiltrarTodos<T>(s: seq<T>, p: T -> bool)
    requires forall i :: 0 <= i < |s| ==> p(s[i])
    ensures Filtrar(s, p) == s
  {
    if s != [] {
      FiltrarTodos(s[1..], p);
      assert [s[0]] + s[1..] == s;
    }
  }

  /** Filtering keeps exactly the number of passing elements; so the result
      has the input's length only when every element passes. */
  lemma {:induction false} FiltrarLongitud<T>(s: seq<T>, p: T -> bool)
    ensures |Filtrar(s, p)| == |s| <==> forall i :: 0 <= i < |s| ==> p(s[i])
  {
    if s != [] {
      FiltrarLongitud(s[1..], p);
      if !p(s[0]) {
        assert |Filtrar(s, p)| < |s|;
      } else {
        assert forall i :: 1 <= i < |s| ==> s[i] == s[1..][i - 1];
      }
    }
  }

  /** Filters whose tests agree on every element give the same result. */
  lemma {:induction false} FiltrarIgual<T>(s: seq<T>, p: T -> bool, q: T -> bool)
    requires forall i :: 0 <= i < |s| ==> p(s[i]) == q(s[i])
    ensures Filtrar(s, p) == Filtrar(s, q)
  {
    if s != [] {
      FiltrarIgual(s[1..], p, q);
    }
  }

  /** s.findIndex(p) as an Option: the first position whose element passes p. */
  function BuscarPrimero<T>(s: seq<T>, p: T -> bool): (r: Option<nat>)
    ensures r.Some? ==> r.value < |s| && p(s[r.value]) && forall j :: 0 <= j < r.value ==> !p(s[j])
    ensures r.None? ==> forall j :: 0 <= j < |s| ==> !p(s[j])
  {
    if s == [] then None
    else if p(s[0]) then Some(0)
    else match BuscarPrimero(s[1..], p)
      case None => None
      case Some(i) => Some(i + 1)
  }
}

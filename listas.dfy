/**
 * The array operations the forms use on their lists, written out:
 * `filter` with a predicate, `filter((_, i) => i !== index)` and
 * `slice(0, n)`.
 */
module Listas {

  /** `s.filter(p)`: the elements satisfying `p`, in their order. */
  function Filtrar<T>(s: seq<T>, p: T -> bool): (r: seq<T>)
    ensures |r| <= |s|
    ensures forall k :: 0 <= k < |r| ==> p(r[k])
  {
    if s == [] then []
    else if p(s[0]) then [s[0]] + Filtrar(s[1..], p)
    else Filtrar(s[1..], p)
  }

  /** The filter comes back empty exactly when no element satisfies `p`. */
  lemma {:induction false} FiltrarVacio<T>(s: seq<T>, p: T -> bool)
    ensures Filtrar(s, p) == [] <==> forall k :: 0 <= k < |s| ==> !p(s[k])
  {
    if s != [] {
      FiltrarVacio(s[1..], p);
      assert forall k :: 1 <= k < |s| ==> s[k] == s[1..][k - 1];
    }
  }

  /** The filter keeps everything exactly when every element satisfies `p`. */
  lemma {:induction false} FiltrarTodo<T>(s: seq<T>, p: T -> bool)
    ensures |Filtrar(s, p)| == |s| <==> forall k :: 0 <= k < |s| ==> p(s[k])
  {
    if s != [] {
      FiltrarTodo(s[1..], p);
      assert forall k :: 1 <= k < |s| ==> s[k] == s[1..][k - 1];
    }
  }

  /** Filtering by a test and by its negation splits the list in two. */
  lemma {:induction false} FiltrarParticion<T>(s: seq<T>, p: T -> bool, q: T -> bool)
    requires forall x :: q(x) == !p(x)
    ensures |Filtrar(s, p)| + |Filtrar(s, q)| == |s|
  {
    if s != [] {
      FiltrarParticion(s[1..], p, q);
    }
  }

  /** When one element starts passing the test and no other changes, the
      filter grows by one. */
  lemma {:induction false} FiltrarCambiaUno<T>(s: seq<T>, p: T -> bool, q: T -> bool, k: nat)
    requires k < |s| && !p(s[k]) && q(s[k])
    requires forall j :: 0 <= j < |s| && j != k ==> p(s[j]) == q(s[j])
    ensures |Filtrar(s, q)| == |Filtrar(s, p)| + 1
  {
    if k == 0 {
      FiltrarIgual(s[1..], p, q);
    } else {
      FiltrarCambiaUno(s[1..], p, q, k - 1);
    }
  }

  /** When every element passes, the filter is the list itself. */
  lemma {:induction false} FiltrarTodos<T>(s: seq<T>, p: T -> bool)
    requires forall k :: 0 <= k < |s| ==> p(s[k])
    ensures Filtrar(s, p) == s
  {
    if s != [] {
      assert forall k :: 0 <= k < |s| - 1 ==> s[1..][k] == s[k + 1];
      FiltrarTodos(s[1..], p);
    }
  }

  /** Tests that agree on every element filter alike. */
  lemma {:induction false} FiltrarIgual<T>(s: seq<T>, p: T -> bool, q: T -> bool)
    requires forall j :: 0 <= j < |s| ==> p(s[j]) == q(s[j])
    ensures Filtrar(s, p) == Filtrar(s, q)
  {
    if s != [] {
      FiltrarIgual(s[1..], p, q);
    }
  }

  /** Every element of the filter comes from the list. */
  lemma {:induction false} FiltrarSubconjunto<T>(s: seq<T>, p: T -> bool, x: T)
    requires x in Filtrar(s, p)
    ensures x in s
  {
    if s != [] && x != s[0] {
      if p(s[0]) {
        assert x in Filtrar(s[1..], p);
      }
      FiltrarSubconjunto(s[1..], p, x);
    }
  }

  /** Every element satisfying `p` survives the filter. */
  lemma {:induction false} FiltrarCompleto<T>(s: seq<T>, p: T -> bool, k: nat)
    requires k < |s| && p(s[k])
    ensures s[k] in Filtrar(s, p)
  {
    if k > 0 {
      FiltrarCompleto(s[1..], p, k - 1);
    }
  }

  /** Filtering one more element at the end adds it exactly when it passes:
      the step of a loop that pushes each passing element. */
  lemma {:induction false} FiltrarAgrega<T>(s: seq<T>, x: T, p: T -> bool)
    ensures Filtrar(s + [x], p) == Filtrar(s, p) + (if p(x) then [x] else [])
  {
    if s == [] {
      assert s + [x] == [x];
    } else {
      assert (s + [x])[1..] == s[1..] + [x];
      FiltrarAgrega(s[1..], x, p);
    }
  }

  /** `s.filter((_, j) => j !== i)`: the element at `i` removed; an index out
      of range removes nothing. */
  function QuitarIndice<T>(s: seq<T>, i: int): (r: seq<T>)
    ensures |r| == if 0 <= i < |s| then |s| - 1 else |s|
  {
    if 0 <= i < |s| then seq(|s| - 1, j requires 0 <= j < |s| - 1 => if j < i then s[j] else s[j + 1])
    else s
  }

  /** Removing index `i` keeps the elements before and after it, in order,
      and takes exactly one copy of `s[i]` out of the multiset. */
  lemma QuitarIndiceEfecto<T>(s: seq<T>, i: int)
    requires 0 <= i < |s|
    ensures QuitarIndice(s, i) == s[..i] + s[i + 1..]
    ensures multiset(QuitarIndice(s, i)) + multiset{s[i]} == multiset(s)
  {
    var r := QuitarIndice(s, i);
    assert r == s[..i] + s[i + 1..];
    calc {
      multiset(s);
      { assert s == s[..i] + ([s[i]] + s[i + 1..]); }
      multiset(s[..i]) + multiset([s[i]] + s[i + 1..]);
      multiset(s[..i]) + multiset{s[i]} + multiset(s[i + 1..]);
    }
  }

  /** `s.slice(0, n)`: at most the first `n` elements. */
  function Primeros<T>(s: seq<T>, n: nat): (r: seq<T>)
    ensures |r| <= n && r <= s
    ensures |s| <= n ==> r == s
  {
    if |s| <= n then s else s[..n]
  }

  /** `s.map(f)` / a list comprehension: `f` applied to each element, in order. */
  function Mapear<A, B>(s: seq<A>, f: A -> B): (r: seq<B>)
    ensures |r| == |s|
    ensures forall i :: 0 <= i < |s| ==> r[i] == f(s[i])
  {
    seq(|s|, i requires 0 <= i < |s| => f(s[i]))
  }

  /** Mapping one more element adds its image at the end: the step of a loop
      that pushes `f(x)` for each `x`. */
  lemma MapearAgrega<A, B>(s: seq<A>, x: A, f: A -> B)
    ensures Mapear(s + [x], f) == Mapear(s, f) + [f(x)]
  {
  }

  /** Filtering by `p` and then by `q` keeps what passes both. */
  lemma {:induction false} FiltrarFiltrar<T>(s: seq<T>, p: T -> bool, q: T -> bool, pq: T -> bool)
    requires forall x :: pq(x) == (p(x) && q(x))
    ensures Filtrar(Filtrar(s, p), q) == Filtrar(s, pq)
  {
    if s != [] {
      FiltrarFiltrar(s[1..], p, q, pq);
    }
  }

  /** The rows made from the items a filter keeps: the kept items give
      rows, and every row comes from a kept item. */
  lemma MapearFiltrar<A, B>(s: seq<A>, p: A -> bool, f: A -> B, k: nat)
    requires k < |s|
    ensures p(s[k]) ==> f(s[k]) in Mapear(Filtrar(s, p), f)
    ensures forall y :: y in Mapear(Filtrar(s, p), f) ==>
      exists j :: 0 <= j < |s| && p(s[j]) && y == f(s[j])
    ensures |Mapear(Filtrar(s, p), f)| <= |s|
  {
    var m := Filtrar(s, p);
    if p(s[k]) {
      FiltrarCompleto(s, p, k);
      var i :| 0 <= i < |m| && m[i] == s[k];
      assert Mapear(m, f)[i] == f(s[k]);
    }
    forall y | y in Mapear(m, f)
      ensures exists j :: 0 <= j < |s| && p(s[j]) && y == f(s[j])
    {
      var i :| 0 <= i < |m| && Mapear(m, f)[i] == y;
      assert p(m[i]);
      FiltrarSubconjunto(s, p, m[i]);
      var j :| 0 <= j < |s| && s[j] == m[i];
    }
  }

  /** Regrouping a concatenation, stated once so that long chains of
      appends can be rewritten step by step. */
  lemma Asociativa<T>(a: seq<T>, b: seq<T>, c: seq<T>)
    ensures a + b + c == a + (b + c)
  {
  }

  /** `r` is `s` with some elements left out, the rest in their order. */
  predicate Subsecuencia<T(==)>(r: seq<T>, s: seq<T>)
    decreases |s|
  {
    if r == [] then true
    else if s == [] then false
    else (r[0] == s[0] && Subsecuencia(r[1..], s[1..])) || Subsecuencia(r, s[1..])
  }

  /** A filter keeps its elements in their order. */
  lemma {:induction false} FiltrarSubsecuencia<T>(s: seq<T>, p: T -> bool)
    ensures Subsecuencia(Filtrar(s, p), s)
  {
    if s != [] {
      FiltrarSubsecuencia(s[1..], p);
    }
  }
}

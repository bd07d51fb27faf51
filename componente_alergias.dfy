/**
 * The allergy picker of the clinical-history form: the list of selected
 * allergy categories, each with the subtypes ticked in it and free-text
 * details. Every handler builds a new list from the old one.
 */
module ComponenteAlergias {
  import opened Text

  datatype TipoAlergia = Respiratorias | Digestivas | Dermatologicas | Medicamentosas | Otra

  /** One selected category: the subtypes ticked in it and the details typed for it. */
  datatype Alergia = Alergia(tipo: TipoAlergia, subtipos: seq<string>, detalles: string)

  /** At most one entry per category. */
  predicate TiposUnicos(l: seq<Alergia>) {
    forall i, j :: 0 <= i < j < |l| ==> l[i].tipo != l[j].tipo
  }

  /** No entry without a ticked subtype. */
  predicate SinVacias(l: seq<Alergia>) {
    forall i :: 0 <= i < |l| ==> l[i].subtipos != []
  }

  /** The shape every handler keeps: one entry per category, none of them empty. */
  predicate Valida(l: seq<Alergia>) {
    TiposUnicos(l) && SinVacias(l)
  }

  predicate TieneTipo(l: seq<Alergia>, tipo: TipoAlergia) {
    exists i :: 0 <= i < |l| && l[i].tipo == tipo
  }

  /** `s.filter(x => x !== v)`: every occurrence of `v` removed, the rest in order. */
  function Quitar<T(==,!new)>(s: seq<T>, v: T): (r: seq<T>)
    ensures |r| <= |s|
    ensures forall x :: x in r <==> x in s && x != v
  {
    if s == [] then []
    else if s[0] == v then Quitar(s[1..], v)
    else [s[0]] + Quitar(s[1..], v)
  }

  /** Ticking a subtype: removed when it was ticked, appended otherwise. */
  function Alternar(s: seq<string>, subtipo: string): (r: seq<string>) {
    if subtipo in s then Quitar(s, subtipo) else s + [subtipo]
  }

  /** The ticked state of `subtipo` flips and every other subtype keeps its state. */
  lemma AlternarInvierte(s: seq<string>, subtipo: string, otro: string)
    ensures subtipo in Alternar(s, subtipo) <==> subtipo !in s
    ensures otro != subtipo ==> (otro in Alternar(s, subtipo) <==> otro in s)
  {
  }

  /** Alternating empties the list only when the subtype was its one ticked value. */
  lemma AlternarVacia(s: seq<string>, subtipo: string)
    requires s != []
    ensures Alternar(s, subtipo) == [] <==> forall k :: 0 <= k < |s| ==> s[k] == subtipo
  {
    if Alternar(s, subtipo) == [] {
      forall k | 0 <= k < |s| ensures s[k] == subtipo {
        assert s[k] in s;
      }
    } else if subtipo in s {
      var x := Alternar(s, subtipo)[0];
      assert x in Alternar(s, subtipo);
      var k :| 0 <= k < |s| && s[k] == x;
      assert s[k] != subtipo;
    }
  }

  /** `alergias.map(...)`: the entry of `tipo` gets its subtype alternated. */
  function AlternarEn(l: seq<Alergia>, tipo: TipoAlergia, subtipo: string): (r: seq<Alergia>)
    ensures |r| == |l|
  {
    seq(|l|, i requires 0 <= i < |l| =>
      if l[i].tipo == tipo then l[i].(subtipos := Alternar(l[i].subtipos, subtipo)) else l[i])
  }

  /** `filter(a => a.subtipos.length > 0)`. */
  function QuitarVacias(l: seq<Alergia>): (r: seq<Alergia>)
    ensures |r| <= |l|
  {
    if l == [] then []
    else if l[0].subtipos == [] then QuitarVacias(l[1..])
    else [l[0]] + QuitarVacias(l[1..])
  }

  /** A list without empty entries passes the filter untouched. */
  lemma {:induction false} QuitarVaciasSinVacias(l: seq<Alergia>)
    requires SinVacias(l)
    ensures QuitarVacias(l) == l
  {
    if l != [] {
      QuitarVaciasSinVacias(l[1..]);
    }
  }

  /** Filtering out one empty entry from a list that has no other. */
  lemma {:induction false} QuitarVaciasUna(l: seq<Alergia>, i: nat)
    requires i < |l| && l[i].subtipos == []
    requires forall j :: 0 <= j < |l| && j != i ==> l[j].subtipos != []
    ensures QuitarVacias(l) == l[..i] + l[i + 1..]
  {
    if i == 0 {
      QuitarVaciasSinVacias(l[1..]);
    } else {
      assert l[0].subtipos != [];
      QuitarVaciasUna(l[1..], i - 1);
      assert l[..i] == [l[0]] + l[1..][..i - 1];
      assert l[1..][i..] == l[i + 1..];
    }
  }

  /** Removing one entry keeps the shape. */
  lemma ValidaSinUna(l: seq<Alergia>, i: nat)
    requires Valida(l) && i < |l|
    ensures Valida(l[..i] + l[i + 1..])
  {
    var r := l[..i] + l[i + 1..];
    assert forall j :: 0 <= j < |r| ==> r[j] == if j < i then l[j] else l[j + 1];
  }

  /** Replacing one entry's subtypes by a non-empty list keeps the shape. */
  lemma ValidaCambiaSubtipos(l: seq<Alergia>, i: nat, nuevos: seq<string>)
    requires Valida(l) && i < |l| && nuevos != []
    ensures Valida(l[i := l[i].(subtipos := nuevos)])
  {
  }

  /** Appending a category not yet present keeps the shape. */
  lemma ValidaAgrega(l: seq<Alergia>, a: Alergia)
    requires Valida(l) && !TieneTipo(l, a.tipo) && a.subtipos != []
    ensures Valida(l + [a])
  {
    var r := l + [a];
    assert forall j :: 0 <= j < |l| ==> r[j] == l[j];
  }

  /**
   * `toggleSubtipo(tipo, subtipo)`: when the category is already selected
   * its subtype is ticked or unticked and entries left without subtypes are
   * dropped; otherwise a new entry with just that subtype and no details is
   * appended.
   */
  function ToggleSubtipo(l: seq<Alergia>, tipo: TipoAlergia, subtipo: string): (r: seq<Alergia>) {
    if TieneTipo(l, tipo) then QuitarVacias(AlternarEn(l, tipo, subtipo))
    else l + [Alergia(tipo, [subtipo], "")]
  }

  /** A category that was not selected is appended after the others. */
  lemma ToggleNueva(l: seq<Alergia>, tipo: TipoAlergia, subtipo: string)
    requires !TieneTipo(l, tipo)
    ensures ToggleSubtipo(l, tipo, subtipo) == l + [Alergia(tipo, [subtipo], "")]
  {
  }

  /**
   * In a selected category the subtype's ticked state flips and no other
   * entry changes; the entry disappears exactly when nothing stays ticked.
   */
  lemma ToggleExistente(l: seq<Alergia>, tipo: TipoAlergia, subtipo: string, i: nat)
    requires Valida(l)
    requires i < |l| && l[i].tipo == tipo
    ensures var nuevos := Alternar(l[i].subtipos, subtipo);
      ToggleSubtipo(l, tipo, subtipo) ==
        if nuevos == [] then l[..i] + l[i + 1..]
        else l[i := l[i].(subtipos := nuevos)]
  {
    var m := AlternarEn(l, tipo, subtipo);
    var nuevos := Alternar(l[i].subtipos, subtipo);
    assert m == l[i := l[i].(subtipos := nuevos)] by {
      forall j | 0 <= j < |l| && j != i ensures m[j] == l[j] {
        assert l[j].tipo != tipo;
      }
    }
    if nuevos == [] {
      QuitarVaciasUna(m, i);
      assert m[..i] == l[..i] && m[i + 1..] == l[i + 1..];
    } else {
      QuitarVaciasSinVacias(m);
    }
  }

  /** Toggling keeps one entry per category and none empty. */
  lemma ToggleValida(l: seq<Alergia>, tipo: TipoAlergia, subtipo: string)
    requires Valida(l)
    ensures Valida(ToggleSubtipo(l, tipo, subtipo))
  {
    if TieneTipo(l, tipo) {
      var i :| 0 <= i < |l| && l[i].tipo == tipo;
      ToggleExistente(l, tipo, subtipo, i);
      var nuevos := Alternar(l[i].subtipos, subtipo);
      if nuevos == [] {
        ValidaSinUna(l, i);
      } else {
        ValidaCambiaSubtipos(l, i, nuevos);
      }
    } else {
      ValidaAgrega(l, Alergia(tipo, [subtipo], ""));
    }
  }

  /** `actualizarDetalles(tipo, detalles)`: that category's details replaced. */
  function ActualizarDetalles(l: seq<Alergia>, tipo: TipoAlergia, detalles: string): (r: seq<Alergia>) {
    seq(|l|, i requires 0 <= i < |l| => if l[i].tipo == tipo then l[i].(detalles := detalles) else l[i])
  }

  /** Only the details of the matching entry change: categories, subtypes and order stay. */
  lemma ActualizarDetallesEfecto(l: seq<Alergia>, tipo: TipoAlergia, detalles: string)
    ensures var r := ActualizarDetalles(l, tipo, detalles);
      |r| == |l| &&
      (forall i :: 0 <= i < |l| ==> r[i].tipo == l[i].tipo && r[i].subtipos == l[i].subtipos) &&
      (forall i :: 0 <= i < |l| ==> r[i].detalles == if l[i].tipo == tipo then detalles else l[i].detalles)
    ensures Valida(l) ==> Valida(ActualizarDetalles(l, tipo, detalles))
  {
  }

  /** `eliminarAlergia(tipo)`: `alergias.filter(a => a.tipo !== tipo)`. */
  function EliminarAlergia(l: seq<Alergia>, tipo: TipoAlergia): (r: seq<Alergia>)
    ensures |r| <= |l|
  {
    if l == [] then []
    else if l[0].tipo == tipo then EliminarAlergia(l[1..], tipo)
    else [l[0]] + EliminarAlergia(l[1..], tipo)
  }

  lemma {:induction false} EliminarSinTipo(l: seq<Alergia>, tipo: TipoAlergia)
    requires !TieneTipo(l, tipo)
    ensures EliminarAlergia(l, tipo) == l
  {
    if l != [] {
      assert l[0].tipo != tipo;
      assert !TieneTipo(l[1..], tipo) by {
        assert forall j :: 0 <= j < |l| - 1 ==> l[1..][j] == l[j + 1];
      }
      EliminarSinTipo(l[1..], tipo);
    }
  }

  /**
   * Deleting a selected category removes exactly its entry and keeps the
   * others in order; deleting one that is not selected changes nothing.
   */
  lemma EliminarEfecto(l: seq<Alergia>, tipo: TipoAlergia)
    requires Valida(l)
    ensures !TieneTipo(l, tipo) ==> EliminarAlergia(l, tipo) == l
    ensures forall i :: 0 <= i < |l| && l[i].tipo == tipo ==>
      EliminarAlergia(l, tipo) == l[..i] + l[i + 1..]
  {
    if !TieneTipo(l, tipo) {
      EliminarSinTipo(l, tipo);
    }
    forall i | 0 <= i < |l| && l[i].tipo == tipo
      ensures EliminarAlergia(l, tipo) == l[..i] + l[i + 1..]
    {
      EliminarEn(l, tipo, i);
    }
  }

  lemma {:induction false} EliminarEn(l: seq<Alergia>, tipo: TipoAlergia, i: nat)
    requires TiposUnicos(l)
    requires i < |l| && l[i].tipo == tipo
    ensures EliminarAlergia(l, tipo) == l[..i] + l[i + 1..]
  {
    if i == 0 {
      assert !TieneTipo(l[1..], tipo) by {
        assert forall j :: 0 <= j < |l| - 1 ==> l[1..][j] == l[j + 1];
      }
      EliminarSinTipo(l[1..], tipo);
    } else {
      assert l[0].tipo != tipo;
      EliminarEn(l[1..], tipo, i - 1);
      assert l[1..][..i - 1] == l[1..i];
      assert l[1..][i..] == l[i + 1..];
      assert l[..i] == [l[0]] + l[1..i];
    }
  }

  /** `necesitaDetalles`: some ticked subtype mentions "Otro" or "Especifique"
      (the latter also in any capitalisation the lower-casing folds). */
  predicate NecesitaDetalles(subtipos: seq<string>) {
    exists k :: 0 <= k < |subtipos| && MencionaOtro(subtipos[k])
  }

  predicate MencionaOtro(s: string) {
    Contains(s, "Otro") || Contains(s, "Especifique") || Contains(ToLower(s), "especifique")
  }

  /** Lower-casing keeps an occurrence in place. */
  lemma ContainsToLower(s: string, sub: string)
    requires Contains(s, sub)
    ensures Contains(ToLower(s), ToLower(sub))
  {
    var i :| 0 <= i <= |s| && OccursAt(s, sub, i);
    assert ToLower(s)[i..i + |sub|] == ToLower(sub);
    assert OccursAt(ToLower(s), ToLower(sub), i);
  }

  /** The capitalised "Especifique" test is subsumed by the lower-cased one. */
  lemma MencionaOtroIff(s: string)
    ensures MencionaOtro(s) <==> Contains(s, "Otro") || Contains(ToLower(s), "especifique")
  {
    if Contains(s, "Especifique") {
      ContainsToLower(s, "Especifique");
      assert ToLower("Especifique") == "especifique";
    }
  }

  /** A list needs details as soon as one of its entries does, wherever it stands. */
  lemma NecesitaDetallesConcat(a: seq<string>, b: seq<string>)
    ensures NecesitaDetalles(a + b) <==> NecesitaDetalles(a) || NecesitaDetalles(b)
  {
    if NecesitaDetalles(a + b) {
      var k :| 0 <= k < |a + b| && MencionaOtro((a + b)[k]);
      if k < |a| {
        assert (a + b)[k] == a[k];
      } else {
        assert (a + b)[k] == b[k - |a|];
      }
    }
    if NecesitaDetalles(a) {
      var k :| 0 <= k < |a| && MencionaOtro(a[k]);
      assert (a + b)[k] == a[k];
    }
    if NecesitaDetalles(b) {
      var k :| 0 <= k < |b| && MencionaOtro(b[k]);
      assert (a + b)[|a| + k] == b[k];
    }
  }
}

/**
 * The CIE-11 disease table (ICD-11 codes with their Spanish names) and its
 * two services: lookup by code and search by name. The table is a
 * parameter: its entries in the order `Object.entries` yields them, which
 * for these alphanumeric keys is the order they are written in.
 */
module Cie11Database {
  import opened Wrappers
  import opened Text
  import opened Listas

  /** One key of the table with the disease name stored under it; also the
      shape of a search result. */
  datatype Enfermedad = Enfermedad(codigo: string, nombre: string)

  /** The object's keys are distinct. */
  predicate ClavesUnicas(t: seq<Enfermedad>) {
    forall i, j :: 0 <= i < j < |t| ==> t[i].codigo != t[j].codigo
  }

  /** `CIE11_DATABASE[k]`: the name under key `k`, if any. */
  function Buscar(t: seq<Enfermedad>, k: string): (r: Option<string>)
    ensures r.None? <==> forall i :: 0 <= i < |t| ==> t[i].codigo != k
  {
    if t == [] then None
    else if t[0].codigo == k then Some(t[0].nombre)
    else
      var r := Buscar(t[1..], k);
      assert forall i :: 1 <= i < |t| ==> t[i] == t[1..][i - 1];
      r
  }

  /** With distinct keys, every entry is found under its own key. */
  lemma {:induction false} BuscarEntrada(t: seq<Enfermedad>, i: nat)
    requires ClavesUnicas(t) && i < |t|
    ensures Buscar(t, t[i].codigo) == Some(t[i].nombre)
  {
    if i > 0 {
      assert t[i] == t[1..][i - 1];
      BuscarEntrada(t[1..], i - 1);
    }
  }

  /** The key a typed code is looked up by: upper-cased, then trimmed. */
  function CodigoNormalizado(codigo: string): string {
    JsTrim(ToUpper(codigo))
  }

  /** `buscarEnfermedadPorCodigo`: the stored name, where `|| null` also
      turns an empty stored name into no result. */
  function BuscarEnfermedadPorCodigo(t: seq<Enfermedad>, codigo: string): (r: Option<string>)
    ensures r.Some? ==> r.value != ""
  {
    match Buscar(t, CodigoNormalizado(codigo))
    case None => None
    case Some(n) => if n == "" then None else Some(n)
  }

  /** A key as stored: already upper-case and without surrounding white space. */
  predicate ClaveNormal(k: string) {
    ToUpper(k) == k && JsTrim(k) == k
  }

  /** A code typed in any case finds the disease stored under it, unless its
      stored name is empty; and a code is found exactly when it normalises
      to a key with a non-empty name. */
  lemma BuscarEnfermedadClave(t: seq<Enfermedad>, i: nat, tecleado: string)
    requires ClavesUnicas(t) && i < |t| && ClaveNormal(t[i].codigo)
    requires ToUpper(tecleado) == t[i].codigo
    ensures BuscarEnfermedadPorCodigo(t, tecleado) == if t[i].nombre == "" then None else Some(t[i].nombre)
  {
    BuscarEntrada(t, i);
  }

  /** Lower-casing what was typed changes nothing. */
  lemma BuscarEnfermedadSinMayusculas(t: seq<Enfermedad>, codigo: string)
    ensures BuscarEnfermedadPorCodigo(t, ToLower(codigo)) == BuscarEnfermedadPorCodigo(t, codigo)
  {
    ToUpperToLower(codigo);
  }

  /** A code is found exactly when its normalised form is a key with a
      non-empty name. */
  lemma BuscarEnfermedadIff(t: seq<Enfermedad>, codigo: string)
    requires ClavesUnicas(t)
    ensures BuscarEnfermedadPorCodigo(t, codigo).Some? <==>
      exists i :: 0 <= i < |t| && t[i].codigo == CodigoNormalizado(codigo) && t[i].nombre != ""
  {
    var k := CodigoNormalizado(codigo);
    if BuscarEnfermedadPorCodigo(t, codigo).Some? {
      var i :| 0 <= i < |t| && t[i].codigo == k;
      BuscarEntrada(t, i);
    }
    if exists i :: 0 <= i < |t| && t[i].codigo == k && t[i].nombre != "" {
      var i :| 0 <= i < |t| && t[i].codigo == k && t[i].nombre != "";
      BuscarEntrada(t, i);
    }
  }

  /** The name test of the search: the lower-cased name contains the
      lower-cased query. */
  function CoincideNombre(nombre: string): Enfermedad -> bool {
    (e: Enfermedad) => Contains(ToLower(e.nombre), ToLower(nombre))
  }

  /** `buscarCodigosPorNombre`: every match pushed in table order, with no cut. */
  method BuscarCodigosPorNombre(t: seq<Enfermedad>, nombre: string) returns (r: seq<Enfermedad>)
    ensures r == Filtrar(t, CoincideNombre(nombre))
  {
    var nombreNormalizado := ToLower(nombre);
    r := [];
    for i := 0 to |t|
      invariant r == Filtrar(t[..i], CoincideNombre(nombre))
    {
      FiltrarAgrega(t[..i], t[i], CoincideNombre(nombre));
      assert t[..i + 1] == t[..i] + [t[i]];
      if Contains(ToLower(t[i].nombre), nombreNormalizado) {
        r := r + [t[i]];
      }
    }
    assert t[..|t|] == t;
  }

  /** A disease is in the search result exactly when it is in the table and
      its name contains the query, ignoring case; an empty query lists the
      whole table. */
  lemma BusquedaIff(t: seq<Enfermedad>, nombre: string, e: Enfermedad)
    ensures e in Filtrar(t, CoincideNombre(nombre)) <==> e in t && CoincideNombre(nombre)(e)
    ensures Filtrar(t, CoincideNombre("")) == t
  {
    if e in Filtrar(t, CoincideNombre(nombre)) {
      FiltrarSubconjunto(t, CoincideNombre(nombre), e);
    }
    if e in t && CoincideNombre(nombre)(e) {
      var k :| 0 <= k < |t| && t[k] == e;
      FiltrarCompleto(t, CoincideNombre(nombre), k);
    }
    forall k | 0 <= k < |t| ensures CoincideNombre("")(t[k]) {
      ContainsEmpty(ToLower(t[k].nombre));
    }
    FiltrarTodos(t, CoincideNombre(""));
  }
}

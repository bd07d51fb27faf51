/**
 * The CUPS procedure table (Colombian health-procedure codes) and its three
 * services: lookup by code, search by name and display formatting. The
 * table is a parameter: its entries in the order `Object.entries` yields
 * them, which for six-digit keys is ascending numeric order.
 */
module CupsDatabase {
  import opened Wrappers
  import opened Text
  import opened Listas

  /** `ProcedimientoCUPS`. */
  datatype Procedimiento = Procedimiento(nombre: string, categoria: string)

  /** One key of the table with its procedure; also the shape of a search
      result, which carries the code, the name and the category. */
  datatype Entrada = Entrada(codigo: string, procedimiento: Procedimiento)

  /** The object's keys are distinct. */
  predicate ClavesUnicas(t: seq<Entrada>) {
    forall i, j :: 0 <= i < j < |t| ==> t[i].codigo != t[j].codigo
  }

  /** `CUPS_DATABASE[k]`: the entry under key `k`, if any. */
  function Buscar(t: seq<Entrada>, k: string): (r: Option<Procedimiento>)
    ensures r.None? <==> forall i :: 0 <= i < |t| ==> t[i].codigo != k
  {
    if t == [] then None
    else if t[0].codigo == k then Some(t[0].procedimiento)
    else
      var r := Buscar(t[1..], k);
      assert forall i :: 1 <= i < |t| ==> t[i] == t[1..][i - 1];
      r
  }

  /** With distinct keys, every entry is found under its own key. */
  lemma {:induction false} BuscarEntrada(t: seq<Entrada>, i: nat)
    requires ClavesUnicas(t) && i < |t|
    ensures Buscar(t, t[i].codigo) == Some(t[i].procedimiento)
  {
    if i > 0 {
      assert t[i] == t[1..][i - 1];
      BuscarEntrada(t[1..], i - 1);
    }
  }

  /** What the code services look the code up by: the trimmed text with
      every character that is not a digit removed. */
  function CodigoLimpio(codigo: string): (r: string)
    ensures forall i :: 0 <= i < |r| ==> IsDigit(r[i])
  {
    DigitsOnly(JsTrim(codigo))
  }

  /** Cleaning a cleaned code changes nothing. */
  lemma CodigoLimpioIdempotente(codigo: string)
    ensures CodigoLimpio(CodigoLimpio(codigo)) == CodigoLimpio(codigo)
  {
    var c := CodigoLimpio(codigo);
    if c != [] {
      assert !IsJsSpace(c[0]) && !IsJsSpace(c[|c| - 1]);
      TrimNone(c, IsJsSpace);
    }
  }

  /** `buscarProcedimientoPorCodigo`: a procedure object is always truthy,
      so the result is the table's entry or nothing. */
  function BuscarProcedimientoPorCodigo(t: seq<Entrada>, codigo: string): (r: Option<Procedimiento>) {
    Buscar(t, CodigoLimpio(codigo))
  }

  /** Typing a six-digit key as it is stored finds its procedure. */
  lemma BuscarProcedimientoClave(t: seq<Entrada>, i: nat)
    requires ClavesUnicas(t) && i < |t| && |t[i].codigo| > 0
    requires forall j :: 0 <= j < |t[i].codigo| ==> IsDigit(t[i].codigo[j])
    ensures BuscarProcedimientoPorCodigo(t, t[i].codigo) == Some(t[i].procedimiento)
  {
    var c := t[i].codigo;
    assert !IsJsSpace(c[0]) && !IsJsSpace(c[|c| - 1]);
    TrimNone(c, IsJsSpace);
    BuscarEntrada(t, i);
  }

  /** `formatearCodigoCUPS`: six digits are shown as "DD.DD.DD"; any other
      cleaned code is shown as it is. */
  function FormatearCodigoCUPS(codigo: string): (r: string)
    ensures |CodigoLimpio(codigo)| == 6 ==>
      |r| == 8 && r[2] == '.' && r[5] == '.'
    ensures |CodigoLimpio(codigo)| != 6 ==> r == CodigoLimpio(codigo)
  {
    var c := CodigoLimpio(codigo);
    if |c| == 6 then c[..2] + "." + c[2..4] + "." + c[4..] else c
  }

  /** Cleaning a formatted code gives back the cleaned code: the dots are
      the only thing formatting adds. */
  lemma FormatearLimpio(codigo: string)
    ensures CodigoLimpio(FormatearCodigoCUPS(codigo)) == CodigoLimpio(codigo)
  {
    var c := CodigoLimpio(codigo);
    var r := FormatearCodigoCUPS(codigo);
    if |c| == 6 {
      assert !IsJsSpace(r[0]) && !IsJsSpace(r[|r| - 1]) by {
        assert r[0] == c[0] && r[7] == c[5];
      }
      TrimNone(r, IsJsSpace);
      DigitsOnlyConcat(c[..2] + "." + c[2..4] + ".", c[4..]);
      DigitsOnlyConcat(c[..2] + "." + c[2..4], ".");
      DigitsOnlyConcat(c[..2] + ".", c[2..4]);
      DigitsOnlyConcat(c[..2], ".");
      assert DigitsOnly(".") == "";
      assert c[..2] + c[2..4] + c[4..] == c;
    } else if c != [] {
      TrimNone(c, IsJsSpace);
    }
  }

  /** Formatting twice is formatting once. */
  lemma FormatearIdempotente(codigo: string)
    ensures FormatearCodigoCUPS(FormatearCodigoCUPS(codigo)) == FormatearCodigoCUPS(codigo)
  {
    FormatearLimpio(codigo);
  }

  /** A formatted code finds the same procedure as the code it came from. */
  lemma BuscarFormateado(t: seq<Entrada>, codigo: string)
    ensures BuscarProcedimientoPorCodigo(t, FormatearCodigoCUPS(codigo)) == BuscarProcedimientoPorCodigo(t, codigo)
  {
    FormatearLimpio(codigo);
  }

  /** The name test of the search: the lower-cased name contains the
      lower-cased query. */
  function CoincideNombre(nombre: string): Entrada -> bool {
    (e: Entrada) => Contains(ToLower(e.procedimiento.nombre), ToLower(nombre))
  }

  /** Every matching entry, in table order, before the cut. */
  function Coincidencias(t: seq<Entrada>, nombre: string): (r: seq<Entrada>) {
    Filtrar(t, CoincideNombre(nombre))
  }

  /** An entry is a match exactly when it is in the table and its name
      contains the query, ignoring case. */
  lemma CoincidenciasIff(t: seq<Entrada>, nombre: string, e: Entrada)
    ensures e in Coincidencias(t, nombre) <==> e in t && CoincideNombre(nombre)(e)
  {
    if e in Coincidencias(t, nombre) {
      FiltrarSubconjunto(t, CoincideNombre(nombre), e);
    }
    if e in t && CoincideNombre(nombre)(e) {
      var k :| 0 <= k < |t| && t[k] == e;
      FiltrarCompleto(t, CoincideNombre(nombre), k);
    }
  }

  /** The case the query is typed in does not matter. */
  lemma CoincidenciasSinMayusculas(t: seq<Entrada>, nombre: string)
    ensures Coincidencias(t, ToUpper(nombre)) == Coincidencias(t, nombre)
  {
    ToLowerToUpper(nombre);
    FiltrarIgual(t, CoincideNombre(ToUpper(nombre)), CoincideNombre(nombre));
  }

  /** An empty query matches the whole table. */
  lemma CoincidenciasVacia(t: seq<Entrada>)
    ensures Coincidencias(t, "") == t
  {
    forall k | 0 <= k < |t| ensures CoincideNombre("")(t[k]) {
      ContainsEmpty(ToLower(t[k].procedimiento.nombre));
    }
    FiltrarTodos(t, CoincideNombre(""));
  }

  /** `buscarCodigosPorNombre`: the matches pushed one by one in table order,
      then cut to the first ten. */
  method BuscarCodigosPorNombre(t: seq<Entrada>, nombre: string) returns (r: seq<Entrada>)
    ensures r == Primeros(Coincidencias(t, nombre), 10)
  {
    var nombreLower := ToLower(nombre);
    var resultados: seq<Entrada> := [];
    for i := 0 to |t|
      invariant resultados == Filtrar(t[..i], CoincideNombre(nombre))
    {
      FiltrarAgrega(t[..i], t[i], CoincideNombre(nombre));
      assert t[..i + 1] == t[..i] + [t[i]];
      if Contains(ToLower(t[i].procedimiento.nombre), nombreLower) {
        resultados := resultados + [t[i]];
      }
    }
    assert t[..|t|] == t;
    r := Primeros(resultados, 10);
  }

  /** What the search promises: at most ten results, each a match from the
      table, and every match when there are no more than ten. */
  lemma BusquedaAcotada(t: seq<Entrada>, nombre: string, e: Entrada)
    ensures |Primeros(Coincidencias(t, nombre), 10)| <= 10
    ensures e in Primeros(Coincidencias(t, nombre), 10) ==> e in t && CoincideNombre(nombre)(e)
    ensures |Coincidencias(t, nombre)| <= 10 ==>
      (e in Primeros(Coincidencias(t, nombre), 10) <==> e in t && CoincideNombre(nombre)(e))
  {
    var m := Coincidencias(t, nombre);
    CoincidenciasIff(t, nombre, e);
    if e in Primeros(m, 10) {
      var k :| 0 <= k < |Primeros(m, 10)| && Primeros(m, 10)[k] == e;
      assert m[k] == e;
    }
  }
}

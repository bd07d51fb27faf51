/**
 * Step 5 of the wizard, the complementary tests: the draft test chosen
 * through a CUPS code or a procedure name, its selected files, adding it
 * to the form, and removing a test or one of its attachments.
 */
module PruebasComplementarias {
  import opened Wrappers
  import opened Text
  import opened Listas
  import opened CupsDatabase
  import opened HistoriaClinica

  /** The draft test and its suggestion list. */
  class BorradorPrueba {
    var codigoCUPS: string
    var nombreProcedimiento: string
    var categoriaProcedimiento: string
    var resultado: string
    /** "Código CUPS no encontrado" is shown. */
    var errorCodigoCUPS: bool
    var sugerenciasCUPS: seq<Entrada>
    var mostrarSugerenciasCUPS: bool
    var archivosSeleccionados: seq<Archivo>

    /** The `useState` initial values. */
    constructor ()
      ensures codigoCUPS == "" && nombreProcedimiento == "" && categoriaProcedimiento == "" && resultado == ""
      ensures !errorCodigoCUPS && sugerenciasCUPS == [] && !mostrarSugerenciasCUPS && archivosSeleccionados == []
    {
      codigoCUPS := "";
      nombreProcedimiento := "";
      categoriaProcedimiento := "";
      resultado := "";
      errorCodigoCUPS := false;
      sugerenciasCUPS := [];
      mostrarSugerenciasCUPS := false;
      archivosSeleccionados := [];
    }

    /**
     * `handleCodigoCUPSChange`: only the digits of the trimmed text are
     * kept; from three digits on the code is looked up, a hit filling in
     * the name and category and a miss showing the error and clearing
     * both; with fewer digits both are cleared.
     */
    method CambiarCodigo(t: seq<Entrada>, tecleado: string)
      modifies this
      ensures codigoCUPS == CodigoLimpio(tecleado)
      ensures forall i :: 0 <= i < |codigoCUPS| ==> IsDigit(codigoCUPS[i])
      ensures |codigoCUPS| >= 3 && Buscar(t, codigoCUPS).Some? ==>
        nombreProcedimiento == Buscar(t, codigoCUPS).value.nombre
        && categoriaProcedimiento == Buscar(t, codigoCUPS).value.categoria && !errorCodigoCUPS
      ensures |codigoCUPS| >= 3 && Buscar(t, codigoCUPS).None? ==>
        nombreProcedimiento == "" && categoriaProcedimiento == "" && errorCodigoCUPS
      ensures |codigoCUPS| < 3 ==>
        nombreProcedimiento == "" && categoriaProcedimiento == "" && !errorCodigoCUPS
      ensures resultado == old(resultado) && archivosSeleccionados == old(archivosSeleccionados)
      ensures sugerenciasCUPS == old(sugerenciasCUPS) && mostrarSugerenciasCUPS == old(mostrarSugerenciasCUPS)
    {
      var codigoLimpio := CodigoLimpio(tecleado);
      codigoCUPS := codigoLimpio;
      errorCodigoCUPS := false;
      if |codigoLimpio| >= 3 {
        var procedimiento := BuscarProcedimientoPorCodigo(t, codigoLimpio);
        CodigoLimpioIdempotente(tecleado);
        if procedimiento.Some? {
          nombreProcedimiento := procedimiento.value.nombre;
          categoriaProcedimiento := procedimiento.value.categoria;
          errorCodigoCUPS := false;
        } else {
          errorCodigoCUPS := true;
          nombreProcedimiento := "";
          categoriaProcedimiento := "";
        }
      } else {
        nombreProcedimiento := "";
        categoriaProcedimiento := "";
      }
    }

    /**
     * `handleNombreProcedimientoChange`: the name is kept; a name that is
     * not blank and has at least three characters is searched, and either
     * its matches are offered or, with none, the code and the category are
     * cleared so that a test of the physician's own can be written.
     */
    method CambiarNombre(t: seq<Entrada>, tecleado: string)
      modifies this
      ensures nombreProcedimiento == tecleado && !errorCodigoCUPS
      ensures !IsBlank(tecleado) && |tecleado| >= 3 ==>
        var resultados := Primeros(Coincidencias(t, tecleado), 10);
        (resultados != [] ==>
           sugerenciasCUPS == resultados && mostrarSugerenciasCUPS
           && codigoCUPS == old(codigoCUPS) && categoriaProcedimiento == old(categoriaProcedimiento))
        && (resultados == [] ==>
              sugerenciasCUPS == [] && !mostrarSugerenciasCUPS
              && codigoCUPS == "" && categoriaProcedimiento == "")
      ensures !(!IsBlank(tecleado) && |tecleado| >= 3) ==>
        sugerenciasCUPS == [] && !mostrarSugerenciasCUPS
        && codigoCUPS == old(codigoCUPS) && categoriaProcedimiento == old(categoriaProcedimiento)
      ensures resultado == old(resultado) && archivosSeleccionados == old(archivosSeleccionados)
    {
      nombreProcedimiento := tecleado;
      errorCodigoCUPS := false;
      if !IsBlank(tecleado) && |tecleado| >= 3 {
        var resultados := BuscarCodigosPorNombre(t, tecleado);
        if |resultados| > 0 {
          sugerenciasCUPS := resultados;
          mostrarSugerenciasCUPS := true;
        } else {
          codigoCUPS := "";
          categoriaProcedimiento := "";
          sugerenciasCUPS := [];
          mostrarSugerenciasCUPS := false;
        }
      } else {
        sugerenciasCUPS := [];
        mostrarSugerenciasCUPS := false;
      }
    }

    /** `seleccionarSugerenciaCUPS`: the suggestion's code, name and category
        are taken and the list is closed. */
    method SeleccionarSugerencia(e: Entrada)
      modifies this
      ensures codigoCUPS == e.codigo && nombreProcedimiento == e.procedimiento.nombre
      ensures categoriaProcedimiento == e.procedimiento.categoria
      ensures !mostrarSugerenciasCUPS && sugerenciasCUPS == [] && !errorCodigoCUPS
      ensures resultado == old(resultado) && archivosSeleccionados == old(archivosSeleccionados)
    {
      codigoCUPS := e.codigo;
      nombreProcedimiento := e.procedimiento.nombre;
      categoriaProcedimiento := e.procedimiento.categoria;
      mostrarSugerenciasCUPS := false;
      sugerenciasCUPS := [];
      errorCodigoCUPS := false;
    }

    /** The result box. */
    method CambiarResultado(texto: string)
      modifies this
      ensures resultado == texto
      ensures codigoCUPS == old(codigoCUPS) && nombreProcedimiento == old(nombreProcedimiento)
      ensures categoriaProcedimiento == old(categoriaProcedimiento) && errorCodigoCUPS == old(errorCodigoCUPS)
      ensures sugerenciasCUPS == old(sugerenciasCUPS) && mostrarSugerenciasCUPS == old(mostrarSugerenciasCUPS)
      ensures archivosSeleccionados == old(archivosSeleccionados)
    {
      resultado := texto;
    }

    /** `handleFileChange`: the chosen files go after those already selected. */
    method AgregarArchivos(nuevos: seq<Archivo>)
      modifies this
      ensures archivosSeleccionados == old(archivosSeleccionados) + nuevos
      ensures codigoCUPS == old(codigoCUPS) && nombreProcedimiento == old(nombreProcedimiento)
      ensures categoriaProcedimiento == old(categoriaProcedimiento) && resultado == old(resultado)
      ensures errorCodigoCUPS == old(errorCodigoCUPS)
      ensures sugerenciasCUPS == old(sugerenciasCUPS) && mostrarSugerenciasCUPS == old(mostrarSugerenciasCUPS)
    {
      archivosSeleccionados := archivosSeleccionados + nuevos;
    }

    /** `eliminarArchivoSeleccionado(index)`. */
    method EliminarArchivoSeleccionado(i: int)
      modifies this
      ensures archivosSeleccionados == QuitarIndice(old(archivosSeleccionados), i)
      ensures codigoCUPS == old(codigoCUPS) && nombreProcedimiento == old(nombreProcedimiento)
      ensures categoriaProcedimiento == old(categoriaProcedimiento) && resultado == old(resultado)
      ensures errorCodigoCUPS == old(errorCodigoCUPS)
      ensures sugerenciasCUPS == old(sugerenciasCUPS) && mostrarSugerenciasCUPS == old(mostrarSugerenciasCUPS)
    {
      archivosSeleccionados := QuitarIndice(archivosSeleccionados, i);
    }

    /** The resets after a test is added. */
    method Vaciar()
      modifies this
      ensures codigoCUPS == "" && nombreProcedimiento == "" && categoriaProcedimiento == "" && resultado == ""
      ensures !errorCodigoCUPS && sugerenciasCUPS == [] && !mostrarSugerenciasCUPS && archivosSeleccionados == []
    {
      codigoCUPS := "";
      nombreProcedimiento := "";
      categoriaProcedimiento := "";
      resultado := "";
      errorCodigoCUPS := false;
      sugerenciasCUPS := [];
      mostrarSugerenciasCUPS := false;
      archivosSeleccionados := [];
    }
  }

  /** The category stored when the draft has none. */
  const SinCategoria: string := "Sin categoría"

  /** The test `handleAgregarPrueba` builds: the category or "Sin categoría",
      the trimmed name, and the draft's code, result and files. */
  function NuevaPrueba(codigo: string, nombre: string, categoria: string, resultado: string, archivos: seq<Archivo>): (p: Prueba)
    requires !IsBlank(nombre)
    ensures categoria != "" ==> p.categoria == categoria
    ensures categoria == "" ==> p.categoria == SinCategoria
    ensures p.nombrePrueba != "" && !IsJsSpace(p.nombrePrueba[0]) && !IsJsSpace(p.nombrePrueba[|p.nombrePrueba| - 1])
    ensures exists i, j :: 0 <= i <= j <= |nombre| && p.nombrePrueba == nombre[i..j]
              && (forall k :: 0 <= k < i ==> IsJsSpace(nombre[k])) && (forall k :: j <= k < |nombre| ==> IsJsSpace(nombre[k]))
    ensures p.codigoCUPS == codigo && p.resultado == resultado && p.archivosAdjuntos == archivos
  {
    TrimCorte(nombre, IsJsSpace);
    TrimEmptyIff(nombre, IsJsSpace);
    Prueba(if categoria == "" then SinCategoria else categoria, JsTrim(nombre), codigo, resultado, archivos)
  }

  /** `handleAgregarPrueba`: refused (with an alert) when the name is blank;
      otherwise the test is appended to the form and the draft emptied. */
  method AgregarPrueba(b: BorradorPrueba, form: Formulario) returns (agregada: bool)
    modifies b, form
    ensures agregada <==> !IsBlank(old(b.nombreProcedimiento))
    ensures !agregada ==> form.datos == old(form.datos) && unchanged(b)
    ensures agregada ==>
      form.datos == old(form.datos).(ayudasDiagnosticas := old(form.datos.ayudasDiagnosticas)
        + [NuevaPrueba(old(b.codigoCUPS), old(b.nombreProcedimiento), old(b.categoriaProcedimiento),
                       old(b.resultado), old(b.archivosSeleccionados))])
      && b.codigoCUPS == "" && b.nombreProcedimiento == "" && b.categoriaProcedimiento == ""
      && b.resultado == "" && b.archivosSeleccionados == []
      && !b.errorCodigoCUPS && b.sugerenciasCUPS == [] && !b.mostrarSugerenciasCUPS
    ensures form.pasoActual == old(form.pasoActual)
  {
    if IsBlank(b.nombreProcedimiento) {
      return false;
    }
    var nueva := NuevaPrueba(b.codigoCUPS, b.nombreProcedimiento, b.categoriaProcedimiento, b.resultado, b.archivosSeleccionados);
    form.UpdateFormData(Vacio.(ayudasDiagnosticas := Some(form.datos.ayudasDiagnosticas + [nueva])));
    b.Vaciar();
    agregada := true;
  }

  /** `handleEliminarPrueba(index)`. */
  function EliminarPrueba(d: FormData, i: int): (p: Parche) {
    Vacio.(ayudasDiagnosticas := Some(QuitarIndice(d.ayudasDiagnosticas, i)))
  }

  /** Removing test `i` keeps the others in order and loses only that one. */
  lemma EliminarPruebaEfecto(d: FormData, i: int)
    ensures var d2 := Aplicar(d, EliminarPrueba(d, i));
      d2 == d.(ayudasDiagnosticas := d2.ayudasDiagnosticas)
      && (0 <= i < |d.ayudasDiagnosticas| ==>
            d2.ayudasDiagnosticas == d.ayudasDiagnosticas[..i] + d.ayudasDiagnosticas[i + 1..]
            && multiset(d2.ayudasDiagnosticas) + multiset{d.ayudasDiagnosticas[i]} == multiset(d.ayudasDiagnosticas))
      && (!(0 <= i < |d.ayudasDiagnosticas|) ==> d2 == d)
  {
    if 0 <= i < |d.ayudasDiagnosticas| {
      QuitarIndiceEfecto(d.ayudasDiagnosticas, i);
    }
  }

  /** `handleEliminarArchivoPrueba(i, j)`: attachment `j` of test `i` removed. */
  function EliminarArchivoPrueba(d: FormData, i: int, j: int): (p: Parche) {
    var pruebas := d.ayudasDiagnosticas;
    Vacio.(ayudasDiagnosticas := Some(seq(|pruebas|, k requires 0 <= k < |pruebas| =>
      if k == i then pruebas[k].(archivosAdjuntos := QuitarIndice(pruebas[k].archivosAdjuntos, j))
      else pruebas[k])))
  }

  /** Only test `i` changes, and only its attachments: it loses exactly
      attachment `j`, the rest in order. */
  lemma EliminarArchivoPruebaEfecto(d: FormData, i: int, j: int)
    ensures var d2 := Aplicar(d, EliminarArchivoPrueba(d, i, j));
      d2 == d.(ayudasDiagnosticas := d2.ayudasDiagnosticas)
      && |d2.ayudasDiagnosticas| == |d.ayudasDiagnosticas|
      && (forall k :: 0 <= k < |d.ayudasDiagnosticas| && k != i ==> d2.ayudasDiagnosticas[k] == d.ayudasDiagnosticas[k])
      && (0 <= i < |d.ayudasDiagnosticas| ==>
            var antes := d.ayudasDiagnosticas[i];
            d2.ayudasDiagnosticas[i] == antes.(archivosAdjuntos := QuitarIndice(antes.archivosAdjuntos, j))
            && (0 <= j < |antes.archivosAdjuntos| ==>
                  d2.ayudasDiagnosticas[i].archivosAdjuntos
                    == antes.archivosAdjuntos[..j] + antes.archivosAdjuntos[j + 1..]))
  {
    if 0 <= i < |d.ayudasDiagnosticas| && 0 <= j < |d.ayudasDiagnosticas[i].archivosAdjuntos| {
      QuitarIndiceEfecto(d.ayudasDiagnosticas[i].archivosAdjuntos, j);
    }
  }

  /** Selecting files and removing the last one gives back the earlier selection. */
  lemma AgregarQuitarArchivo(s: seq<Archivo>, a: Archivo)
    ensures QuitarIndice(s + [a], |s|) == s
  {
    QuitarIndiceEfecto(s + [a], |s|);
    assert (s + [a])[..|s|] == s;
  }
}

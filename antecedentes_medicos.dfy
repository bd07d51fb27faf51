/**
 * Step 2 of the wizard, the medical history: the personal and family
 * history entries chosen through CIE-11 codes, the yes/no questions on
 * injuries, surgery, allergies and medication, and what answering them
 * does to the form. Each of the two history sections keeps its own draft
 * entry and suggestion lists.
 */
module AntecedentesMedicos {
  import opened Wrappers
  import opened Text
  import opened Listas
  import opened Cie11Database
  import opened HistoriaClinica

  /** Why adding an entry was refused (the three `alert` texts). */
  datatype Aviso = FaltaCodigo | FaltaNombre | FaltaFamiliar

  /** The draft entry of one section and its suggestion lists. The relative
      is only used by the family section. */
  class Borrador {
    var codigo: string
    var nombre: string
    var familiar: string
    var observacion: string
    /** "Código CIE-11 no encontrado" is shown. */
    var errorCodigo: bool
    var sugerencias: seq<Enfermedad>
    var mostrarSugerencias: bool
    var sugerenciasCodigo: seq<Enfermedad>
    var mostrarSugerenciasCodigo: bool

    /** The `useState` initial values: everything empty and hidden. */
    constructor ()
      ensures codigo == "" && nombre == "" && familiar == "" && observacion == ""
      ensures !errorCodigo && sugerencias == [] && !mostrarSugerencias
      ensures sugerenciasCodigo == [] && !mostrarSugerenciasCodigo
    {
      codigo := "";
      nombre := "";
      familiar := "";
      observacion := "";
      errorCodigo := false;
      sugerencias := [];
      mostrarSugerencias := false;
      sugerenciasCodigo := [];
      mostrarSugerenciasCodigo := false;
    }

    /**
     * `handleCodigoPersonalChange` / `handleCodigoFamiliarChange`: the code
     * is kept upper-cased; a non-blank code that names a disease fills in
     * its name; one that does not clears the name and offers the partial
     * matches `parcial` gives for it, or shows the not-found error when
     * there are none; a blank code clears the name and the code suggestions.
     */
    method CambiarCodigo(t: seq<Enfermedad>, tecleado: string, parcial: string -> seq<Enfermedad>)
      modifies this
      ensures codigo == ToUpper(tecleado)
      ensures IsBlank(codigo) ==>
        nombre == "" && !errorCodigo && sugerenciasCodigo == [] && !mostrarSugerenciasCodigo
      ensures !IsBlank(codigo) && BuscarEnfermedadPorCodigo(t, codigo).Some? ==>
        nombre == BuscarEnfermedadPorCodigo(t, codigo).value
        && !errorCodigo && sugerenciasCodigo == [] && !mostrarSugerenciasCodigo
      ensures !IsBlank(codigo) && BuscarEnfermedadPorCodigo(t, codigo).None? ==>
        nombre == "" && sugerenciasCodigo == parcial(codigo)
        && (mostrarSugerenciasCodigo <==> parcial(codigo) != [])
        && (errorCodigo <==> parcial(codigo) == [])
      ensures familiar == old(familiar) && observacion == old(observacion)
      ensures sugerencias == old(sugerencias) && mostrarSugerencias == old(mostrarSugerencias)
    {
      var codigoUpper := ToUpper(tecleado);
      codigo := codigoUpper;
      errorCodigo := false;
      if !IsBlank(codigoUpper) {
        var enfermedad := BuscarEnfermedadPorCodigo(t, codigoUpper);
        if enfermedad.Some? {
          nombre := enfermedad.value;
          errorCodigo := false;
          sugerenciasCodigo := [];
          mostrarSugerenciasCodigo := false;
        } else {
          var resultados := parcial(codigoUpper);
          if |resultados| > 0 {
            sugerenciasCodigo := resultados;
            mostrarSugerenciasCodigo := true;
            errorCodigo := false;
          } else {
            errorCodigo := true;
            sugerenciasCodigo := [];
            mostrarSugerenciasCodigo := false;
          }
          nombre := "";
        }
      } else {
        nombre := "";
        sugerenciasCodigo := [];
        mostrarSugerenciasCodigo := false;
      }
    }

    /**
     * `handleNombrePersonalChange` / `handleNombreFamiliarChange`: the name
     * is kept; a name that is not blank and has at least three characters
     * is searched, and either its matches are offered or, with none, the
     * code is cleared; a shorter or blank name hides the suggestions.
     */
    method CambiarNombre(t: seq<Enfermedad>, tecleado: string)
      modifies this
      ensures nombre == tecleado && !errorCodigo
      ensures !IsBlank(tecleado) && |tecleado| >= 3 ==>
        var resultados := Filtrar(t, CoincideNombre(tecleado));
        (resultados != [] ==> sugerencias == resultados && mostrarSugerencias && codigo == old(codigo))
        && (resultados == [] ==> sugerencias == [] && !mostrarSugerencias && codigo == "")
      ensures !(!IsBlank(tecleado) && |tecleado| >= 3) ==>
        sugerencias == [] && !mostrarSugerencias && codigo == old(codigo)
      ensures familiar == old(familiar) && observacion == old(observacion)
      ensures sugerenciasCodigo == old(sugerenciasCodigo) && mostrarSugerenciasCodigo == old(mostrarSugerenciasCodigo)
    {
      nombre := tecleado;
      errorCodigo := false;
      if !IsBlank(tecleado) && |tecleado| >= 3 {
        var resultados := BuscarCodigosPorNombre(t, tecleado);
        if |resultados| > 0 {
          sugerencias := resultados;
          mostrarSugerencias := true;
        } else {
          codigo := "";
          sugerencias := [];
          mostrarSugerencias := false;
        }
      } else {
        sugerencias := [];
        mostrarSugerencias := false;
      }
    }

    /** The observations box. */
    method CambiarObservacion(texto: string)
      modifies this
      ensures observacion == texto
      ensures codigo == old(codigo) && nombre == old(nombre) && familiar == old(familiar)
      ensures errorCodigo == old(errorCodigo)
      ensures sugerencias == old(sugerencias) && mostrarSugerencias == old(mostrarSugerencias)
      ensures sugerenciasCodigo == old(sugerenciasCodigo) && mostrarSugerenciasCodigo == old(mostrarSugerenciasCodigo)
    {
      observacion := texto;
    }

    /** The relative selector of the family section. */
    method ElegirFamiliar(f: string)
      modifies this
      ensures familiar == f
      ensures codigo == old(codigo) && nombre == old(nombre) && observacion == old(observacion)
      ensures errorCodigo == old(errorCodigo)
      ensures sugerencias == old(sugerencias) && mostrarSugerencias == old(mostrarSugerencias)
      ensures sugerenciasCodigo == old(sugerenciasCodigo) && mostrarSugerenciasCodigo == old(mostrarSugerenciasCodigo)
    {
      familiar := f;
    }

    /** The resets after an entry is added: the draft emptied and every
        suggestion hidden. */
    method Vaciar()
      modifies this
      ensures codigo == "" && nombre == "" && observacion == "" && familiar == old(familiar)
      ensures !errorCodigo && sugerencias == [] && !mostrarSugerencias
      ensures sugerenciasCodigo == [] && !mostrarSugerenciasCodigo
    {
      codigo := "";
      nombre := "";
      observacion := "";
      errorCodigo := false;
      sugerencias := [];
      mostrarSugerencias := false;
      sugerenciasCodigo := [];
      mostrarSugerenciasCodigo := false;
    }
  }

  /** The entry the personal section adds: the code is the upper-cased
      typed code with its outer white space cut off, and the name and
      observation are the draft's. */
  function NuevoPersonal(codigo: string, nombre: string, observacion: string): (a: AntecedentePersonal)
    requires !IsBlank(codigo)
    ensures a.codigoCIE11 != "" && ToUpper(a.codigoCIE11) == a.codigoCIE11
    ensures !IsJsSpace(a.codigoCIE11[0]) && !IsJsSpace(a.codigoCIE11[|a.codigoCIE11| - 1])
    ensures var u := ToUpper(codigo);
      exists i, j :: 0 <= i <= j <= |u| && a.codigoCIE11 == u[i..j]
        && (forall k :: 0 <= k < i ==> IsJsSpace(u[k])) && (forall k :: j <= k < |u| ==> IsJsSpace(u[k]))
    ensures a.nombreEnfermedad == nombre && a.observaciones == observacion
  {
    CodigoGuardado(codigo);
    TrimCorte(ToUpper(codigo), IsJsSpace);
    AntecedentePersonal(JsTrim(ToUpper(codigo)), nombre, observacion)
  }

  /** The entry the family section adds: the code as for a personal entry,
      and the name, relative and observation are the draft's. */
  function NuevoFamiliar(codigo: string, nombre: string, familiar: string, observacion: string): (a: AntecedenteFamiliar)
    requires !IsBlank(codigo)
    ensures a.codigoCIE11 == NuevoPersonal(codigo, nombre, observacion).codigoCIE11
    ensures a.nombreEnfermedad == nombre && a.familiar == familiar && a.observaciones == observacion
  {
    AntecedenteFamiliar(NuevoPersonal(codigo, nombre, observacion).codigoCIE11, nombre, familiar, observacion)
  }

  /** A stored code is upper-case, and it is not empty when the typed code
      was not blank. */
  lemma CodigoGuardado(codigo: string)
    requires !IsBlank(codigo)
    ensures JsTrim(ToUpper(codigo)) != ""
    ensures ToUpper(JsTrim(ToUpper(codigo))) == JsTrim(ToUpper(codigo))
  {
    var u := ToUpper(codigo);
    BlankIffAllSpace(codigo);
    var i :| 0 <= i < |codigo| && !IsJsSpace(codigo[i]);
    assert !IsJsSpace(u[i]);
    TrimKeeps(u, IsJsSpace, i);
    var r := JsTrim(u);
    forall j | 0 <= j < |r| ensures UpperChar(r[j]) == r[j] {
      assert r[j] in r;
      TrimSubset(u, IsJsSpace, r[j]);
    }
  }

  /** `handleAgregarPersonal`: refused without a code or without a name;
      otherwise the entry is appended to the personal history and the draft
      emptied. */
  method AgregarPersonal(b: Borrador, form: Formulario) returns (aviso: Option<Aviso>)
    modifies b, form
    ensures aviso == (if IsBlank(old(b.codigo)) then Some(FaltaCodigo)
                      else if IsBlank(old(b.nombre)) then Some(FaltaNombre)
                      else None)
    ensures aviso.Some? ==> form.datos == old(form.datos) && unchanged(b)
    ensures aviso.None? ==>
      form.datos == old(form.datos).(antecedentesPersonales := old(form.datos.antecedentesPersonales)
        + [NuevoPersonal(old(b.codigo), old(b.nombre), old(b.observacion))])
      && b.codigo == "" && b.nombre == "" && b.observacion == "" && b.familiar == old(b.familiar)
      && !b.errorCodigo && b.sugerencias == [] && !b.mostrarSugerencias
      && b.sugerenciasCodigo == [] && !b.mostrarSugerenciasCodigo
    ensures form.pasoActual == old(form.pasoActual)
  {
    if IsBlank(b.codigo) {
      return Some(FaltaCodigo);
    }
    if IsBlank(b.nombre) {
      return Some(FaltaNombre);
    }
    var nuevo := NuevoPersonal(b.codigo, b.nombre, b.observacion);
    form.UpdateFormData(Vacio.(antecedentesPersonales := Some(form.datos.antecedentesPersonales + [nuevo])));
    b.Vaciar();
    aviso := None;
  }

  /** `handleAgregarFamiliar`: also refused without a relative; the relative
      is cleared with the rest of the draft. */
  method AgregarFamiliar(b: Borrador, form: Formulario) returns (aviso: Option<Aviso>)
    modifies b, form
    ensures aviso == (if IsBlank(old(b.codigo)) then Some(FaltaCodigo)
                      else if IsBlank(old(b.nombre)) then Some(FaltaNombre)
                      else if old(b.familiar) == "" then Some(FaltaFamiliar)
                      else None)
    ensures aviso.Some? ==> form.datos == old(form.datos) && unchanged(b)
    ensures aviso.None? ==>
      form.datos == old(form.datos).(antecedentesFamiliares := old(form.datos.antecedentesFamiliares)
        + [NuevoFamiliar(old(b.codigo), old(b.nombre), old(b.familiar), old(b.observacion))])
      && b.codigo == "" && b.nombre == "" && b.familiar == "" && b.observacion == ""
      && !b.errorCodigo && b.sugerencias == [] && !b.mostrarSugerencias
      && b.sugerenciasCodigo == [] && !b.mostrarSugerenciasCodigo
    ensures form.pasoActual == old(form.pasoActual)
  {
    if IsBlank(b.codigo) {
      return Some(FaltaCodigo);
    }
    if IsBlank(b.nombre) {
      return Some(FaltaNombre);
    }
    if b.familiar == "" {
      return Some(FaltaFamiliar);
    }
    var nuevo := NuevoFamiliar(b.codigo, b.nombre, b.familiar, b.observacion);
    form.UpdateFormData(Vacio.(antecedentesFamiliares := Some(form.datos.antecedentesFamiliares + [nuevo])));
    b.Vaciar();
    b.ElegirFamiliar("");
    aviso := None;
  }

  /** `handleEliminarPersonal(index)`. */
  function EliminarPersonal(d: FormData, i: int): (p: Parche) {
    Vacio.(antecedentesPersonales := Some(QuitarIndice(d.antecedentesPersonales, i)))
  }

  /** `handleEliminarFamiliar(index)`. */
  function EliminarFamiliar(d: FormData, i: int): (p: Parche) {
    Vacio.(antecedentesFamiliares := Some(QuitarIndice(d.antecedentesFamiliares, i)))
  }

  /** Removing the entry just added gives back the history as it was, and
      nothing else in the form changes. */
  lemma EliminarUltimoPersonal(d: FormData, a: AntecedentePersonal)
    ensures var d2 := d.(antecedentesPersonales := d.antecedentesPersonales + [a]);
      Aplicar(d2, EliminarPersonal(d2, |d.antecedentesPersonales|)) == d
  {
    var s := d.antecedentesPersonales;
    QuitarIndiceEfecto(s + [a], |s|);
    assert (s + [a])[..|s|] == s;
  }

  /** The same for the family history. */
  lemma EliminarUltimoFamiliar(d: FormData, a: AntecedenteFamiliar)
    ensures var d2 := d.(antecedentesFamiliares := d.antecedentesFamiliares + [a]);
      Aplicar(d2, EliminarFamiliar(d2, |d.antecedentesFamiliares|)) == d
  {
    var s := d.antecedentesFamiliares;
    QuitarIndiceEfecto(s + [a], |s|);
    assert (s + [a])[..|s|] == s;
  }

  /** Removing entry `i` keeps every other entry in order and loses only
      that one; an index out of range changes nothing. */
  lemma EliminarPersonalEfecto(d: FormData, i: int)
    ensures var d2 := Aplicar(d, EliminarPersonal(d, i));
      d2 == d.(antecedentesPersonales := d2.antecedentesPersonales)
      && (0 <= i < |d.antecedentesPersonales| ==>
            d2.antecedentesPersonales == d.antecedentesPersonales[..i] + d.antecedentesPersonales[i + 1..]
            && multiset(d2.antecedentesPersonales) + multiset{d.antecedentesPersonales[i]}
               == multiset(d.antecedentesPersonales))
      && (!(0 <= i < |d.antecedentesPersonales|) ==> d2 == d)
  {
    if 0 <= i < |d.antecedentesPersonales| {
      QuitarIndiceEfecto(d.antecedentesPersonales, i);
    }
  }

  // ---------------------------------------------------------------- yes/no questions

  /** The injuries question: "No" also clears the description and the date. */
  function RespuestaLesiones(si: bool): (p: Parche) {
    if si then Vacio.(lesionesDeportivas := Some(true))
    else Vacio.(lesionesDeportivas := Some(false), descripcionLesiones := Some(""), fechaUltimaLesion := Some(""))
  }

  /** The surgery question: "No" also clears the detail. */
  function RespuestaCirugias(si: bool): (p: Parche) {
    if si then Vacio.(cirugiasPrevias := Some(true))
    else Vacio.(cirugiasPrevias := Some(false), detalleCirugias := Some(""))
  }

  /** The allergies question: "No" also empties the allergy list. */
  function RespuestaAlergias(si: bool): (p: Parche) {
    if si then Vacio.(tieneAlergias := Some(true))
    else Vacio.(tieneAlergias := Some(false), alergias := Some([]))
  }

  /** The medication question: "No" also clears the medication. */
  function RespuestaMedicacion(si: bool): (p: Parche) {
    if si then Vacio.(tomaMedicacion := Some(true))
    else Vacio.(tomaMedicacion := Some(false), medicacionActual := Some(""))
  }

  /** What each answer leaves in the form: "Yes" sets only the flag, "No"
      sets it and empties the detail that goes with it. */
  lemma RespuestasEfecto(d: FormData)
    ensures Aplicar(d, RespuestaLesiones(true)) == d.(lesionesDeportivas := true)
    ensures Aplicar(d, RespuestaLesiones(false)) ==
      d.(lesionesDeportivas := false, descripcionLesiones := "", fechaUltimaLesion := "")
    ensures Aplicar(d, RespuestaCirugias(true)) == d.(cirugiasPrevias := true)
    ensures Aplicar(d, RespuestaCirugias(false)) == d.(cirugiasPrevias := false, detalleCirugias := "")
    ensures Aplicar(d, RespuestaAlergias(true)) == d.(tieneAlergias := true)
    ensures Aplicar(d, RespuestaAlergias(false)) == d.(tieneAlergias := false, alergias := [])
    ensures Aplicar(d, RespuestaMedicacion(true)) == d.(tomaMedicacion := true)
    ensures Aplicar(d, RespuestaMedicacion(false)) == d.(tomaMedicacion := false, medicacionActual := "")
  {
  }

  /** Answering "No" never makes step 2 fail: it only drops a requirement. */
  lemma RespuestaNoConservaPaso2(d: FormData)
    requires Paso2(d)
    ensures Paso2(Aplicar(d, RespuestaLesiones(false)))
    ensures Paso2(Aplicar(d, RespuestaCirugias(false)))
    ensures Paso2(Aplicar(d, RespuestaAlergias(false)))
    ensures Paso2(Aplicar(d, RespuestaMedicacion(false)))
  {
    RespuestasEfecto(d);
  }

  /** Answering "Yes" with nothing filled in below blocks step 2 until the
      detail is given. */
  lemma RespuestaSiBloqueaPaso2(d: FormData)
    ensures IsBlank(d.descripcionLesiones) ==> !Paso2(Aplicar(d, RespuestaLesiones(true)))
    ensures IsBlank(d.detalleCirugias) ==> !Paso2(Aplicar(d, RespuestaCirugias(true)))
    ensures d.alergias == [] ==> !Paso2(Aplicar(d, RespuestaAlergias(true)))
    ensures IsBlank(d.medicacionActual) ==> !Paso2(Aplicar(d, RespuestaMedicacion(true)))
  {
    RespuestasEfecto(d);
  }

  /** Adding a history entry meets step 2's first requirement. */
  lemma AgregarCumpleHistoria(d: FormData, a: AntecedentePersonal, f: AntecedenteFamiliar)
    ensures |Aplicar(d, Vacio.(antecedentesPersonales := Some(d.antecedentesPersonales + [a]))).antecedentesPersonales| > 0
    ensures |Aplicar(d, Vacio.(antecedentesFamiliares := Some(d.antecedentesFamiliares + [f]))).antecedentesFamiliares| > 0
  {
  }
}

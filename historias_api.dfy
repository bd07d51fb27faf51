/**
 * `POST /historias/completa` of the clinical-history router: the request
 * body, the row each item of it becomes, and the store the rows are
 * inserted into, all inside one transaction. Dates arrive already parsed;
 * they are carried as the text `str(date)` gives, so a present date is
 * always truthy. A list that is absent and an empty list write the same
 * (nothing), so both are an empty sequence here.
 */
module HistoriasApi {
  import opened Wrappers
  import opened Text
  import opened Numeros
  import opened Listas
  import Uuid

  /** Python truthiness of an optional text: present and not empty. */
  predicate Truthy(o: Option<string>) {
    o.Some? && o.value != ""
  }

  /** `o or d`. */
  function Or(o: Option<string>, d: string): string {
    if Truthy(o) then o.value else d
  }

  /** `s if s else None`. */
  function NoneIfEmpty(s: string): Option<string> {
    if s == "" then None else Some(s)
  }

  /** `validar_uuid`: the parsed id, or None for the 404 "ID no valido". */
  function ValidarUuid(valor: string): (r: Option<string>)
    ensures r.Some? <==> Uuid.Parse(valor).Some?
    ensures r.Some? ==> Uuid.IsCanonical(r.value)
  {
    Uuid.Parse(valor)
  }

  /** An id as the API itself prints it is accepted and names the same record. */
  lemma ValidarUuidCanonico(id: string)
    requires Uuid.IsCanonical(id)
    ensures ValidarUuid(id) == Some(id)
    ensures ValidarUuid("{" + id + "}") == Some(id)
  {
    Uuid.CanonicalRoundTrip(id);
    Uuid.BracedRoundTrip(id);
  }

  // ---------------------------------------------------------------------
  // The request body
  // ---------------------------------------------------------------------

  datatype PersonalData = PersonalData(codigoCie11: Option<string>, nombreEnfermedad: string, observaciones: Option<string>)
  datatype FamiliarData = FamiliarData(tipoFamiliar: Option<string>, codigoCie11: Option<string>, nombreEnfermedad: string)
  datatype LesionData = LesionData(tipoLesion: Option<string>, fechaLesion: Option<string>, tratamiento: Option<string>, observaciones: Option<string>)
  datatype CirugiaData = CirugiaData(tipoCirugia: string, fechaCirugia: Option<string>, observaciones: Option<string>)
  datatype AlergiaData = AlergiaData(tipoAlergia: string, descripcion: Option<string>, reaccion: Option<string>)
  datatype MedicacionData = MedicacionData(nombreMedicamento: Option<string>, dosis: Option<string>, frecuencia: Option<string>,
                                           duracion: Option<string>, indicacion: Option<string>)
  datatype VacunaData = VacunaData(nombreVacuna: string, fechaAdministracion: Option<string>, proximaDosis: Option<string>)
  datatype RevisionData = RevisionData(sistema: Option<string>, hallazgos: Option<string>, observaciones: Option<string>)
  datatype SignosData = SignosData(presionArterial: Option<string>, frecuenciaCardiaca: Option<int>, frecuenciaRespiratoria: Option<int>,
                                   temperatura: Option<real>, peso: Option<real>, altura: Option<real>, imc: Option<real>,
                                   saturacionOxigeno: Option<int>)
  datatype PruebaData = PruebaData(tipoPrueba: Option<string>, resultado: Option<string>, fechaPrueba: Option<string>,
                                   interpretacion: Option<string>, observaciones: Option<string>)
  datatype DiagnosticoData = DiagnosticoData(codigoCie11: Option<string>, nombreDiagnostico: Option<string>,
                                             tipoDiagnostico: Option<string>, observaciones: Option<string>)
  datatype PlanData = PlanData(recomendaciones: Option<string>, medicamentosPrescritos: Option<string>, procedimientos: Option<string>,
                               rehabilitacion: Option<string>, fechaSeguimiento: Option<string>, observaciones: Option<string>)
  datatype RemisionData = RemisionData(especialidad: Option<string>, motivo: string, prioridad: string, fechaRemision: Option<string>)

  /** The values the schemas fill in for a field the body leaves out. */
  const TipoDiagnosticoPorDefecto: Option<string> := Some("principal")

  /** `HistoriaClinicaCompletaRequest`; the motive and the physical
      examination are carried as the list of their field values. */
  datatype Solicitud = Solicitud(
    deportistaId: string, fechaApertura: string, estadoId: string,
    personales: seq<PersonalData>, familiares: seq<FamiliarData>, lesiones: seq<LesionData>,
    cirugias: seq<CirugiaData>, alergias: seq<AlergiaData>, medicaciones: seq<MedicacionData>,
    vacunas: seq<VacunaData>, revision: seq<RevisionData>, signos: Option<SignosData>,
    pruebas: seq<PruebaData>, diagnosticos: seq<DiagnosticoData>, plan: Option<PlanData>,
    remisiones: seq<RemisionData>,
    motivoConsulta: Option<seq<Option<string>>>, exploracionFisica: Option<seq<Option<string>>>)

  // ---------------------------------------------------------------------
  // The rows written, as the `...Create` schemas carry them
  // ---------------------------------------------------------------------

  /** The clinical-history record itself. */
  datatype Registro = Registro(deportistaId: string, fechaApertura: string, estadoId: string)

  datatype Fila =
    | Personal(historia: string, codigoCie11: Option<string>, nombreEnfermedad: string, observaciones: Option<string>)
    | Familiar(historia: string, tipoFamiliar: Option<string>, codigoCie11: Option<string>, nombreEnfermedad: string,
               observaciones: Option<string>)
    | Lesion(historia: string, descripcion: string, fechaUltimaLesion: Option<string>, observaciones: Option<string>)
    | Cirugia(historia: string, tipoCirugia: string, fechaCirugia: Option<string>, observaciones: Option<string>)
    | Alergia(historia: string, tipoAlergia: string, observaciones: Option<string>)
    | Medicacion(historia: string, nombreMedicacion: string, dosis: Option<string>, frecuencia: Option<string>,
                 observaciones: Option<string>)
    | Vacuna(historia: string, nombreVacuna: string, fechaAdministracion: Option<string>, observaciones: Option<string>)
    | Revision(historia: string, sistemaNombre: string, estado: string, observaciones: Option<string>, tipoRevision: string)
    | Signos(historia: string, estaturaCm: Option<real>, pesoKg: Option<real>, frecuenciaCardiaca: Option<int>,
             presion: Presion, frecuenciaRespiratoria: Option<int>, temperatura: Option<real>,
             saturacionOxigeno: Option<real>, imc: Option<real>)
    | Prueba(historia: string, categoria: string, nombrePrueba: string, codigoCups: Option<string>, resultado: Option<string>)
    | Diagnostico(historia: string, codigoCie11: Option<string>, nombreEnfermedad: string, observaciones: Option<string>,
                  analisisObjetivo: Option<string>, impresionDiagnostica: Option<string>)
    | Plan(historia: string, indicacionesMedicas: Option<string>, recomendacionesEntrenamiento: Option<string>,
           planSeguimiento: Option<string>)
    | Remision(historia: string, especialista: string, motivo: string, prioridad: string, fechaRemision: Option<string>)
    | MotivoConsulta(historia: string, campos: seq<Option<string>>)
    | ExploracionFisica(historia: string, campos: seq<Option<string>>)

  /** The systolic and diastolic values stored from the "S/D" text. */
  datatype Presion = Presion(sistolica: Option<int>, diastolica: Option<int>)

  // ---------------------------------------------------------------------
  // How each item becomes a row
  // ---------------------------------------------------------------------

  /** A lesion's description: its type (or ""), then " - Tratamiento: T"
      when a treatment is given. */
  function DescripcionLesion(item: LesionData): (r: string)
    ensures Or(item.tipoLesion, "") <= r
    ensures r == Or(item.tipoLesion, "") <==> !Truthy(item.tratamiento)
    ensures Truthy(item.tratamiento) ==>
      |r| >= |item.tratamiento.value| && r[|r| - |item.tratamiento.value|..] == item.tratamiento.value
  {
    var descripcion := Or(item.tipoLesion, "");
    if Truthy(item.tratamiento) then descripcion + " - Tratamiento: " + item.tratamiento.value
    else descripcion
  }

  /** An allergy's observation: the description, then " - Reaccion: R";
      nothing when both are missing. */
  function ObservacionAlergia(item: AlergiaData): (r: Option<string>)
    ensures r.None? <==> !Truthy(item.descripcion) && !Truthy(item.reaccion)
    ensures r.Some? ==> Or(item.descripcion, "") <= r.value
    ensures Truthy(item.reaccion) ==>
      r.Some? && |r.value| >= |item.reaccion.value| && r.value[|r.value| - |item.reaccion.value|..] == item.reaccion.value
  {
    var observaciones := Or(item.descripcion, "");
    var observaciones' := if Truthy(item.reaccion) then observaciones + " - Reaccion: " + item.reaccion.value else observaciones;
    NoneIfEmpty(observaciones')
  }

  /** A reaction given without a description leaves the separator at the
      head of the observation. */
  lemma AlergiaSoloReaccion(item: AlergiaData)
    requires !Truthy(item.descripcion) && Truthy(item.reaccion)
    ensures ObservacionAlergia(item).Some?
    ensures ObservacionAlergia(item).value[..13] == " - Reaccion: "
  {
    assert ObservacionAlergia(item).value == " - Reaccion: " + item.reaccion.value;
  }

  /** A medication's observation: "Duracion: D", then " - Indicacion: I";
      nothing when both are missing. */
  function ObservacionMedicacion(item: MedicacionData): (r: Option<string>)
    ensures r.None? <==> !Truthy(item.duracion) && !Truthy(item.indicacion)
    ensures Truthy(item.duracion) ==> r.Some? && "Duracion: " + item.duracion.value <= r.value
    ensures Truthy(item.indicacion) ==>
      r.Some? && |r.value| >= |item.indicacion.value| && r.value[|r.value| - |item.indicacion.value|..] == item.indicacion.value
  {
    var observaciones := if Truthy(item.duracion) then "Duracion: " + item.duracion.value else "";
    var observaciones' := if Truthy(item.indicacion) then observaciones + " - Indicacion: " + item.indicacion.value else observaciones;
    NoneIfEmpty(observaciones')
  }

  /** A vaccine's observation: "Proxima dosis: d" when a next dose is dated. */
  function ObservacionVacuna(item: VacunaData): (r: Option<string>)
    ensures r.Some? <==> item.proximaDosis.Some?
  {
    if item.proximaDosis.Some? then Some("Proxima dosis: " + item.proximaDosis.value) else None
  }

  /** The blood pressure: read only when the text splits on "/" into exactly
      two pieces; `int` of the first piece failing leaves both values empty,
      `int` of the second failing keeps the systolic value already read. */
  function LeerPresion(pa: Option<string>): (r: Presion)
    ensures r.diastolica.Some? ==> r.sistolica.Some?
    ensures r.sistolica.Some? ==> Truthy(pa) && |Split(pa.value, '/')| == 2
  {
    if !Truthy(pa) then Presion(None, None)
    else
      var partes := Split(pa.value, '/');
      if |partes| != 2 then Presion(None, None)
      else
        match ParsePyInt(partes[0])
        case None => Presion(None, None)
        case Some(s) => Presion(Some(s), ParsePyInt(partes[1]))
  }

  /** A reading "a/b" with no other '/' is read piece by piece. */
  lemma LeerPresionDosPartes(a: string, b: string)
    requires '/' !in a && '/' !in b
    ensures LeerPresion(Some(a + "/" + b)) ==
      if ParsePyInt(a).None? then Presion(None, None) else Presion(ParsePyInt(a), ParsePyInt(b))
  {
    SplitTras(a, b, '/');
    assert a + "/" + b == a + ['/'] + b;
  }

  /** A third piece discards the whole reading. */
  lemma LeerPresionTresPartes(a: string, b: string, c: string)
    requires '/' !in a && '/' !in b
    ensures LeerPresion(Some(a + "/" + b + "/" + c)) == Presion(None, None)
  {
    var t := b + ['/'] + c;
    var s := a + "/" + b + "/" + c;
    assert s == a + ['/'] + t;
    SplitTras(a, t, '/');
    SplitTras(b, c, '/');
    assert |Split(s, '/')| >= 3;
    assert s[|a|] == '/';
  }

  lemma IntToStringSinBarra(n: int)
    ensures '/' !in IntToString(n)
  {
    var d := NatToString(if n < 0 then -n else n);
    assert forall i :: 0 <= i < |d| ==> IsDigit(d[i]);
  }

  /** "S/D" written as two integers stores both. */
  lemma LeerPresionEnteros(s: int, d: int)
    ensures LeerPresion(Some(IntToString(s) + "/" + IntToString(d))) == Presion(Some(s), Some(d))
  {
    IntToStringSinBarra(s);
    IntToStringSinBarra(d);
    LeerPresionDosPartes(IntToString(s), IntToString(d));
    IntToStringRoundTrip(s);
    IntToStringRoundTrip(d);
  }

  /** The partial failure: an integer before the '/' and a word after it
      store the systolic value with no diastolic one. */
  lemma LeerPresionParcial(s: int, b: string, i: nat)
    requires '/' !in b && i < |b| && 'a' <= b[i] <= 'z'
    ensures LeerPresion(Some(IntToString(s) + "/" + b)) == Presion(Some(s), None)
  {
    IntToStringSinBarra(s);
    LeerPresionDosPartes(IntToString(s), b);
    IntToStringRoundTrip(s);
    ParsePyIntRejectsLetters(b, i);
  }

  /** `float(x) if x else None` for the saturation: 0 is falsy and is lost. */
  function Saturacion(sat: Option<int>): (r: Option<real>)
    ensures r.Some? <==> sat.Some? && sat.value != 0
    ensures r.Some? ==> r.value == sat.value as real
  {
    if sat.Some? && sat.value != 0 then Some(sat.value as real) else None
  }

  /** A test's result: the result text, then " - Interpretacion: I", then
      " - O" for its observations; nothing when all three are missing. */
  function ResultadoPrueba(item: PruebaData): (r: Option<string>)
    ensures r.None? <==> !Truthy(item.resultado) && !Truthy(item.interpretacion) && !Truthy(item.observaciones)
    ensures r.Some? ==> Or(item.resultado, "") <= r.value
  {
    var resultado := Or(item.resultado, "");
    var resultado' := if Truthy(item.interpretacion) then resultado + " - Interpretacion: " + item.interpretacion.value else resultado;
    var resultado'' := if Truthy(item.observaciones) then resultado' + " - " + item.observaciones.value else resultado';
    NoneIfEmpty(resultado'')
  }

  /** A diagnosis' observation: "[tipo] obs", stripped; nothing when that
      leaves nothing, which a diagnosis with a type never does. */
  function ObservacionDiagnostico(item: DiagnosticoData): (r: Option<string>)
    ensures r.None? <==> !Truthy(item.tipoDiagnostico) && PyStrip(Or(item.observaciones, "")) == ""
    ensures Truthy(item.tipoDiagnostico) ==> r.Some? && r.value != "" && r.value[0] == '['
    ensures r.Some? ==> PyStrip(r.value) == r.value && r.value != ""
  {
    var observaciones := Or(item.observaciones, "");
    var observaciones' := if Truthy(item.tipoDiagnostico) then "[" + item.tipoDiagnostico.value + "] " + observaciones else observaciones;
    var limpio := PyStrip(observaciones');
    TrimIdempotent(observaciones', IsPySpace);
    assert Truthy(item.tipoDiagnostico) ==> limpio != "" && limpio[0] == '[' by {
      if Truthy(item.tipoDiagnostico) {
        TrimKeepsFirst(observaciones', IsPySpace);
      }
    }
    NoneIfEmpty(limpio)
  }

  /** A diagnosis sent without a type gets "principal" and so always keeps
      an observation, "[principal]" at its head. */
  lemma DiagnosticoPorDefecto(codigo: Option<string>, nombre: Option<string>, observaciones: Option<string>)
    ensures ObservacionDiagnostico(DiagnosticoData(codigo, nombre, TipoDiagnosticoPorDefecto, observaciones)).Some?
  {
  }

  /** The plan's medical indications: the recommendations, then
      "\nMedicamentos: M", "\nProcedimientos: P", "\nObservaciones: O" for
      each part given, stripped; nothing when that leaves nothing. */
  function IndicacionesPlan(plan: PlanData): (r: Option<string>)
    ensures r.None? <==>
      PyStrip(Or(plan.recomendaciones, "")) == "" && !Truthy(plan.medicamentosPrescritos) &&
      !Truthy(plan.procedimientos) && !Truthy(plan.observaciones)
    ensures r.Some? ==> PyStrip(r.value) == r.value && r.value != ""
  {
    var indicaciones := Or(plan.recomendaciones, "");
    var i1 := if Truthy(plan.medicamentosPrescritos) then indicaciones + "\nMedicamentos: " + plan.medicamentosPrescritos.value else indicaciones;
    var i2 := if Truthy(plan.procedimientos) then i1 + "\nProcedimientos: " + plan.procedimientos.value else i1;
    var i3 := if Truthy(plan.observaciones) then i2 + "\nObservaciones: " + plan.observaciones.value else i2;
    var limpio := PyStrip(i3);
    IndicacionesNoVacias(indicaciones, i1, i2, i3, plan);
    TrimIdempotent(i3, IsPySpace);
    NoneIfEmpty(limpio)
  }

  /** Each part added to the indications holds a letter, so it survives the strip. */
  lemma IndicacionesNoVacias(indicaciones: string, i1: string, i2: string, i3: string, plan: PlanData)
    requires i1 == if Truthy(plan.medicamentosPrescritos) then indicaciones + "\nMedicamentos: " + plan.medicamentosPrescritos.value else indicaciones
    requires i2 == if Truthy(plan.procedimientos) then i1 + "\nProcedimientos: " + plan.procedimientos.value else i1
    requires i3 == if Truthy(plan.observaciones) then i2 + "\nObservaciones: " + plan.observaciones.value else i2
    ensures PyStrip(i3) == "" <==>
      PyStrip(indicaciones) == "" && !Truthy(plan.medicamentosPrescritos) &&
      !Truthy(plan.procedimientos) && !Truthy(plan.observaciones)
  {
    assert indicaciones <= i1 <= i2 <= i3;
    if Truthy(plan.observaciones) {
      assert i3[|i2| + 1] == 'O';
      TrimNonEmpty(i3, IsPySpace, |i2| + 1);
    } else if Truthy(plan.procedimientos) {
      assert i3[|i1| + 1] == 'P';
      TrimNonEmpty(i3, IsPySpace, |i1| + 1);
    } else if Truthy(plan.medicamentosPrescritos) {
      assert i3[|indicaciones| + 1] == 'M';
      TrimNonEmpty(i3, IsPySpace, |indicaciones| + 1);
    }
  }

  /** The follow-up plan: "Fecha seguimiento: f" when a date is given. */
  function PlanSeguimiento(plan: PlanData): (r: Option<string>)
    ensures r.Some? <==> plan.fechaSeguimiento.Some?
  {
    if plan.fechaSeguimiento.Some? then Some("Fecha seguimiento: " + plan.fechaSeguimiento.value) else None
  }

  function FilaPersonal(hid: string): PersonalData -> Fila {
    (p: PersonalData) => Personal(hid, p.codigoCie11, p.nombreEnfermedad, p.observaciones)
  }

  /** A family antecedent never carries observations. */
  function FilaFamiliar(hid: string): FamiliarData -> Fila {
    (f: FamiliarData) => Familiar(hid, f.tipoFamiliar, f.codigoCie11, f.nombreEnfermedad, None)
  }

  function FilaLesion(hid: string): LesionData -> Fila {
    (l: LesionData) => Lesion(hid, DescripcionLesion(l), l.fechaLesion, l.observaciones)
  }

  function FilaCirugia(hid: string): CirugiaData -> Fila {
    (c: CirugiaData) => Cirugia(hid, c.tipoCirugia, c.fechaCirugia, c.observaciones)
  }

  function FilaAlergia(hid: string): AlergiaData -> Fila {
    (a: AlergiaData) => Alergia(hid, a.tipoAlergia, ObservacionAlergia(a))
  }

  function FilaMedicacion(hid: string): MedicacionData -> Fila {
    (m: MedicacionData) => Medicacion(hid, Or(m.nombreMedicamento, ""), m.dosis, m.frecuencia, ObservacionMedicacion(m))
  }

  function FilaVacuna(hid: string): VacunaData -> Fila {
    (v: VacunaData) => Vacuna(hid, v.nombreVacuna, v.fechaAdministracion, ObservacionVacuna(v))
  }

  /** A reviewed system: its name (or ""), its findings as the state, or
      "normal" when there are none. */
  function FilaRevision(hid: string): RevisionData -> Fila {
    (r: RevisionData) => Revision(hid, Or(r.sistema, ""), Or(r.hallazgos, "normal"), r.observaciones, "revision")
  }

  function FilaSignos(hid: string, s: SignosData): Fila {
    Signos(hid, s.altura, s.peso, s.frecuenciaCardiaca, LeerPresion(s.presionArterial), s.frecuenciaRespiratoria,
           s.temperatura, Saturacion(s.saturacionOxigeno), s.imc)
  }

  /** A test: its type as both category and name ("General" and "Prueba"
      when missing), with no CUPS code. */
  function FilaPrueba(hid: string): PruebaData -> Fila {
    (p: PruebaData) => Prueba(hid, Or(p.tipoPrueba, "General"), Or(p.tipoPrueba, "Prueba"), None, ResultadoPrueba(p))
  }

  function FilaDiagnostico(hid: string): DiagnosticoData -> Fila {
    (d: DiagnosticoData) => Diagnostico(hid, d.codigoCie11, Or(d.nombreDiagnostico, ""), ObservacionDiagnostico(d), None, None)
  }

  /** The plan: the composed indications, the rehabilitation as training
      recommendations, and the follow-up. */
  function FilaPlan(hid: string, p: PlanData): Fila {
    Plan(hid, IndicacionesPlan(p), p.rehabilitacion, PlanSeguimiento(p))
  }

  function FilaRemision(hid: string): RemisionData -> Fila {
    (r: RemisionData) => Remision(hid, Or(r.especialidad, ""), r.motivo, r.prioridad, r.fechaRemision)
  }

  /** Every row whose failure aborts the request, in the order the sections
      are written; each belongs to the new record. */
  function FilasObligatorias(hid: string, s: Solicitud): (r: seq<Fila>)
    ensures forall k :: 0 <= k < |r| ==> r[k].historia == hid
  {
    Mapear(s.personales, FilaPersonal(hid)) + Mapear(s.familiares, FilaFamiliar(hid)) +
    Mapear(s.lesiones, FilaLesion(hid)) + Mapear(s.cirugias, FilaCirugia(hid)) +
    Mapear(s.alergias, FilaAlergia(hid)) + Mapear(s.medicaciones, FilaMedicacion(hid)) +
    Mapear(s.vacunas, FilaVacuna(hid)) + Mapear(s.revision, FilaRevision(hid)) +
    (if s.signos.Some? then [FilaSignos(hid, s.signos.value)] else []) +
    Mapear(s.pruebas, FilaPrueba(hid)) + Mapear(s.diagnosticos, FilaDiagnostico(hid)) +
    (if s.plan.Some? then [FilaPlan(hid, s.plan.value)] else []) +
    Mapear(s.remisiones, FilaRemision(hid))
  }

  /** One row per item of every list, one for the vital signs and one for
      the plan when they are sent. */
  lemma CuentaFilas(hid: string, s: Solicitud)
    ensures |FilasObligatorias(hid, s)| ==
      |s.personales| + |s.familiares| + |s.lesiones| + |s.cirugias| + |s.alergias| + |s.medicaciones| +
      |s.vacunas| + |s.revision| + (if s.signos.Some? then 1 else 0) + |s.pruebas| + |s.diagnosticos| +
      (if s.plan.Some? then 1 else 0) + |s.remisiones|
  {
  }

  /** The motive and the examination, each written only when sent and when
      writing it does not fail: a failure there is logged and skipped. */
  function FilasOpcionales(hid: string, s: Solicitud, rechaza: Fila -> bool): seq<Fila> {
    (if s.motivoConsulta.Some? && !rechaza(MotivoConsulta(hid, s.motivoConsulta.value))
     then [MotivoConsulta(hid, s.motivoConsulta.value)] else []) +
    (if s.exploracionFisica.Some? && !rechaza(ExploracionFisica(hid, s.exploracionFisica.value))
     then [ExploracionFisica(hid, s.exploracionFisica.value)] else [])
  }

  /** No row of `fs` is refused. */
  predicate Aceptadas(fs: seq<Fila>, rechaza: Fila -> bool) {
    forall k :: 0 <= k < |fs| ==> !rechaza(fs[k])
  }

  /** The answer: 201 with the new id, or 400 after a rollback. */
  datatype Respuesta = Creada(historiaId: string) | ErrorAlCrear

  /**
   * The database session: clinical-history records by id, and every other
   * row in insertion order. `rechaza` says which rows the schema or the
   * database refuses (the exception a helper of `crud.antecedentes` raises).
   */
  class BaseDeDatos {
    var historias: map<string, Registro>
    var filas: seq<Fila>

    constructor()
      ensures historias == map[] && filas == []
    {
      historias := map[];
      filas := [];
    }

    /** Inserts the rows one by one, stopping at the first one refused. */
    method InsertarTodas(nuevas: seq<Fila>, rechaza: Fila -> bool) returns (ok: bool)
      modifies this
      ensures historias == old(historias)
      ensures ok <==> Aceptadas(nuevas, rechaza)
      ensures ok ==> filas == old(filas) + nuevas
    {
      var i := 0;
      while i < |nuevas|
        invariant 0 <= i <= |nuevas|
        invariant historias == old(historias)
        invariant filas == old(filas) + nuevas[..i]
        invariant Aceptadas(nuevas[..i], rechaza)
      {
        if rechaza(nuevas[i]) {
          return false;
        }
        filas := filas + [nuevas[i]];
        i := i + 1;
        assert nuevas[..i] == nuevas[..i - 1] + [nuevas[i - 1]];
      }
      assert nuevas[..i] == nuevas;
      ok := true;
    }

    /**
     * `crear_historia_clinica_completa`: the record under the id the flush
     * assigns, then every section; a refused row rolls everything back and
     * answers 400, while the motive and the examination are best effort.
     */
    method CrearHistoriaClinicaCompleta(s: Solicitud, hid: string, rechaza: Fila -> bool) returns (r: Respuesta)
      requires hid !in historias
      modifies this
      ensures r.Creada? <==> Aceptadas(FilasObligatorias(hid, s), rechaza)
      ensures r.Creada? ==>
        r.historiaId == hid &&
        historias == old(historias)[hid := Registro(s.deportistaId, s.fechaApertura, s.estadoId)] &&
        filas == old(filas) + FilasObligatorias(hid, s) + FilasOpcionales(hid, s, rechaza)
      ensures r.ErrorAlCrear? ==> historias == old(historias) && filas == old(filas)
    {
      var historiasAntes, filasAntes := historias, filas;
      historias := historias[hid := Registro(s.deportistaId, s.fechaApertura, s.estadoId)];
      var ok := InsertarTodas(FilasObligatorias(hid, s), rechaza);
      if !ok {
        historias, filas := historiasAntes, filasAntes;
        return ErrorAlCrear;
      }
      if s.motivoConsulta.Some? {
        var f := MotivoConsulta(hid, s.motivoConsulta.value);
        if !rechaza(f) {
          filas := filas + [f];
        }
      }
      if s.exploracionFisica.Some? {
        var f := ExploracionFisica(hid, s.exploracionFisica.value);
        if !rechaza(f) {
          filas := filas + [f];
        }
      }
      r := Creada(hid);
    }
  }

  /** Whether the motive is written never decides the answer. */
  lemma MotivoNoDecide(hid: string, s: Solicitud, m: seq<Option<string>>, rechaza: Fila -> bool)
    ensures Aceptadas(FilasObligatorias(hid, s.(motivoConsulta := Some(m))), rechaza) ==
            Aceptadas(FilasObligatorias(hid, s.(motivoConsulta := None)), rechaza)
  {
  }
}

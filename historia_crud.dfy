/**
 * `crear_historia_completa` and `eliminar_historia` of the clinical-history
 * data layer: the seven-step form's payload written to the normalised
 * tables, with a JSON copy and the day's appointment marked as done, inside
 * one transaction; and the removal of a record with its JSON copies.
 *
 * The session is a class holding the catalogues it reads, the rows of every
 * table in insertion order, and the appointments; "today" is a parameter.
 */
module HistoriaCrud {
  import opened Wrappers
  import opened Text
  import opened Numeros
  import opened Listas
  import Uuid
  import opened Fechas

  /** A lesion or referral date: the text parsed as an ISO date, or today
      when there is none or it does not parse. */
  function FechaO(texto: Option<string>, hoy: Fecha): Fecha {
    if texto.Some? && texto.value != "" then LeerFechaIso(texto.value).GetOr(hoy) else hoy
  }

  /** A valid date written in ISO form is kept; any other text gives today. */
  lemma FechaOEfecto(f: Fecha, texto: string, hoy: Fecha)
    requires FechaValida(f)
    ensures FechaO(Some(FechaIso(f)), hoy) == f
    ensures LeerFechaIso(texto).None? ==> FechaO(Some(texto), hoy) == hoy
    ensures FechaO(None, hoy) == hoy
  {
    FechaIsoRoundTrip(f);
  }

  // ---------------------------------------------------------------------
  // The payload: `HistoriaClinicaCompleteCreate`
  // ---------------------------------------------------------------------

  predicate Truthy(o: Option<string>) {
    o.Some? && o.value != ""
  }

  /** `o or d`. */
  function Or(o: Option<string>, d: string): string {
    if Truthy(o) then o.value else d
  }

  datatype AntecedenteMedicoCreate = AntecedenteMedicoCreate(codigoCIE11: string, nombreEnfermedad: string, observaciones: Option<string>)
  datatype AntecedenteFamiliarCreate = AntecedenteFamiliarCreate(codigoCIE11: string, nombreEnfermedad: string, familiar: string,
                                                                 observaciones: Option<string>)
  datatype SistemaRevisionBase = SistemaRevisionBase(estado: Option<string>, observaciones: Option<string>)
  datatype RevisionSistemasCreate = RevisionSistemasCreate(
    cardiovascular: SistemaRevisionBase, respiratorio: SistemaRevisionBase, digestivo: SistemaRevisionBase,
    neurologico: SistemaRevisionBase, musculoesqueletico: SistemaRevisionBase, genitourinario: SistemaRevisionBase,
    endocrino: SistemaRevisionBase, pielFaneras: SistemaRevisionBase)
  datatype AyudaDiagnosticaCreate = AyudaDiagnosticaCreate(categoria: string, nombrePrueba: string, codigoCUPS: string, resultado: Option<string>)
  datatype DiagnosticoClinicoCreate = DiagnosticoClinicoCreate(codigo: string, nombre: string, observaciones: Option<string>)
  datatype RemisionEspecialistaCreate = RemisionEspecialistaCreate(especialista: string, motivo: string, prioridad: string, fechaRemision: string)

  /** The fields of the payload this layer reads; the physical-examination
      systems travel only inside the JSON copy and are not listed. */
  datatype HistoriaClinicaCompleteCreate = HistoriaClinicaCompleteCreate(
    deportistaId: string, tipoCita: string, motivoConsulta: string, enfermedadActual: string,
    antecedentesPersonales: seq<AntecedenteMedicoCreate>, antecedentesFamiliares: seq<AntecedenteFamiliarCreate>,
    lesionesDeportivas: bool, descripcionLesiones: Option<string>, fechaUltimaLesion: Option<string>,
    cirugiasPrevias: bool, detalleCirugias: Option<string>,
    tieneAlergias: bool, alergias: Option<string>,
    tomaMedicacion: bool, medicacionActual: Option<string>,
    vacunas: seq<string>,
    revisionSistemas: RevisionSistemasCreate,
    estatura: Option<string>, peso: Option<string>, frecuenciaCardiaca: Option<string>, presionArterial: Option<string>,
    frecuenciaRespiratoria: Option<string>, temperatura: Option<string>, saturacionOxigeno: Option<string>,
    ayudasDiagnosticas: seq<AyudaDiagnosticaCreate>,
    analisisObjetivoDiagnostico: Option<string>, impresionDiagnostica: Option<string>,
    diagnosticos: seq<DiagnosticoClinicoCreate>,
    indicacionesMedicas: Option<string>, recomendacionesEntrenamiento: Option<string>, planSeguimiento: Option<string>,
    remisionesEspecialistas: seq<RemisionEspecialistaCreate>)

  // ---------------------------------------------------------------------
  // The rows: one constructor per table
  // ---------------------------------------------------------------------

  datatype Fila =
    | HistoriaClinica(id: string, deportistaId: string, fechaApertura: Fecha, estadoId: string)
    | AntecedentesPersonales(historia: string, codigoCie11: string, nombreEnfermedad: string, observaciones: Option<string>)
    | AntecedentesFamiliares(historia: string, tipoFamiliar: string, codigoCie11: string, nombreEnfermedad: string)
    | LesionesDeportivas(historia: string, tipoLesion: string, fechaLesion: Fecha, tratamiento: string, observaciones: Option<string>)
    | CirugiasPrevias(historia: string, tipoCirugia: string, fechaCirugia: Fecha, observaciones: Option<string>)
    | Alergias(historia: string, tipoAlergia: string, descripcion: string, reaccion: string)
    | Medicaciones(historia: string, nombreMedicamento: string, dosis: string, frecuencia: string, duracion: string, indicacion: string)
    | VacunasAdministradas(historia: string, nombreVacuna: string, fechaAdministracion: Fecha, observaciones: Option<string>)
    | RevisionSistemas(historia: string, sistemaNombre: string, estado: string, observaciones: Option<string>)
    | SignosVitales(historia: string, sistolica: int, diastolica: int, frecuenciaCardiaca: int, frecuenciaRespiratoria: int,
                    temperatura: real, peso: real, estatura: real, imc: real, saturacionOxigeno: real)
    | PruebasComplementarias(historia: string, categoria: string, nombrePrueba: string, codigoCups: string, resultado: string)
    | Diagnosticos(historia: string, codigoCie11: string, nombreEnfermedad: string, observaciones: Option<string>)
    | PlanTratamiento(historia: string, indicacionesMedicas: string, recomendacionesEntrenamiento: string, planSeguimiento: string)
    | RemisionesEspecialistas(historia: string, especialista: string, motivo: string, prioridad: string, fechaRemision: Fecha)
    | HistoriaClinicaJSON(historia: string, deportistaId: string, datosCompletos: HistoriaClinicaCompleteCreate)

  datatype Cita = Cita(deportistaId: string, fecha: Fecha, estadoCitaId: string)

  /** Why a creation raises ValueError (after a rollback). */
  datatype ErrorCreacion = SinCatalogoEstado | SinEstadoAbierta | SignoNoNumerico

  /** What a creation leaves: the rows it adds, or the error. */
  datatype Efecto = Escribe(nuevas: seq<Fila>) | Falla(error: ErrorCreacion)

  // ---------------------------------------------------------------------
  // How the payload becomes rows
  // ---------------------------------------------------------------------

  function FilaPersonal(hid: string): AntecedenteMedicoCreate -> Fila {
    (a: AntecedenteMedicoCreate) => AntecedentesPersonales(hid, a.codigoCIE11, a.nombreEnfermedad, a.observaciones)
  }

  function FilaFamiliar(hid: string): AntecedenteFamiliarCreate -> Fila {
    (a: AntecedenteFamiliarCreate) => AntecedentesFamiliares(hid, a.familiar, a.codigoCIE11, a.nombreEnfermedad)
  }

  /** The lesion row: only when lesions are flagged and described. */
  function FilasLesion(hid: string, d: HistoriaClinicaCompleteCreate, hoy: Fecha): seq<Fila> {
    if d.lesionesDeportivas && Truthy(d.descripcionLesiones)
    then [LesionesDeportivas(hid, d.descripcionLesiones.value, FechaO(d.fechaUltimaLesion, hoy), "", Some(""))]
    else []
  }

  /** The surgery, allergy and medication rows: each only when both its flag
      and its text are set. */
  function FilasCirugia(hid: string, d: HistoriaClinicaCompleteCreate, hoy: Fecha): seq<Fila> {
    if d.cirugiasPrevias && Truthy(d.detalleCirugias) then [CirugiasPrevias(hid, d.detalleCirugias.value, hoy, Some(""))] else []
  }

  function FilasAlergia(hid: string, d: HistoriaClinicaCompleteCreate): seq<Fila> {
    if d.tieneAlergias && Truthy(d.alergias) then [Alergias(hid, "General", d.alergias.value, "")] else []
  }

  function FilasMedicacion(hid: string, d: HistoriaClinicaCompleteCreate): seq<Fila> {
    if d.tomaMedicacion && Truthy(d.medicacionActual) then [Medicaciones(hid, d.medicacionActual.value, "", "", "", "")] else []
  }

  function FilaVacuna(hid: string, hoy: Fecha): string -> Fila {
    (v: string) => VacunasAdministradas(hid, v, hoy, Some(""))
  }

  /** The eight reviewed systems in the order they are written, the skin
      under the name "piel y faneras". */
  function Sistemas(r: RevisionSistemasCreate): seq<(string, SistemaRevisionBase)> {
    [("cardiovascular", r.cardiovascular), ("respiratorio", r.respiratorio), ("digestivo", r.digestivo),
     ("neurologico", r.neurologico), ("musculoesqueletico", r.musculoesqueletico),
     ("genitourinario", r.genitourinario), ("endocrino", r.endocrino), ("piel y faneras", r.pielFaneras)]
  }

  /** A system is written when its state or its observations are filled in. */
  function Revisado(): ((string, SistemaRevisionBase)) -> bool {
    (p: (string, SistemaRevisionBase)) => Truthy(p.1.estado) || Truthy(p.1.observaciones)
  }

  function FilaRevision(hid: string): ((string, SistemaRevisionBase)) -> Fila {
    (p: (string, SistemaRevisionBase)) => RevisionSistemas(hid, p.0, Or(p.1.estado, ""), Some(Or(p.1.observaciones, "")))
  }

  function FilasRevision(hid: string, r: RevisionSistemasCreate): seq<Fila> {
    Mapear(Filtrar(Sistemas(r), Revisado()), FilaRevision(hid))
  }

  /** A filled-in system gets its row, every row comes from a filled-in
      system, and there are at most eight. */
  lemma RevisionIff(hid: string, r: RevisionSistemasCreate, k: nat)
    requires k < 8
    ensures Revisado()(Sistemas(r)[k]) ==> FilaRevision(hid)(Sistemas(r)[k]) in FilasRevision(hid, r)
    ensures forall fila :: fila in FilasRevision(hid, r) ==>
      exists j :: 0 <= j < 8 && Revisado()(Sistemas(r)[j]) && fila == FilaRevision(hid)(Sistemas(r)[j])
    ensures |FilasRevision(hid, r)| <= 8
  {
    MapearFiltrar(Sistemas(r), Revisado(), FilaRevision(hid), k);
  }

  /** No system filled in writes no row; all of them filled in writes the
      eight, in order. */
  lemma RevisionExtremos(hid: string, r: RevisionSistemasCreate)
    ensures (forall k :: 0 <= k < 8 ==> !Revisado()(Sistemas(r)[k])) ==> FilasRevision(hid, r) == []
    ensures (forall k :: 0 <= k < 8 ==> Revisado()(Sistemas(r)[k])) ==>
      FilasRevision(hid, r) == Mapear(Sistemas(r), FilaRevision(hid))
  {
    FiltrarVacio(Sistemas(r), Revisado());
    if forall k :: 0 <= k < 8 ==> Revisado()(Sistemas(r)[k]) {
      FiltrarTodos(Sistemas(r), Revisado());
    }
  }

  /** Blood pressure: 120/80 unless a text is sent; the first piece of its
      split on "/" replaces the systolic value, then the second piece, if
      there is one, the diastolic value; an `int` that fails keeps whatever
      was already assigned. */
  function Presion(pa: Option<string>): (r: (int, int)) {
    if !Truthy(pa) then (120, 80)
    else
      var partes := Split(pa.value, '/');
      match ParsePyInt(partes[0])
      case None => (120, 80)
      case Some(s) =>
        if |partes| > 1 then (match ParsePyInt(partes[1]) case None => (s, 80) case Some(dia) => (s, dia))
        else (s, 80)
  }

  lemma IntToStringSinBarra(n: int)
    ensures '/' !in IntToString(n)
  {
    var d := NatToString(if n < 0 then -n else n);
    assert forall i :: 0 <= i < |d| ==> IsDigit(d[i]);
  }

  /** "S/D" stores both numbers. */
  lemma PresionCompleta(s: int, dia: int)
    ensures Presion(Some(IntToString(s) + "/" + IntToString(dia))) == (s, dia)
  {
    var ts, td := IntToString(s), IntToString(dia);
    IntToStringSinBarra(s);
    IntToStringSinBarra(dia);
    IntToStringRoundTrip(s);
    IntToStringRoundTrip(dia);
    assert ts + "/" + td == ts + ['/'] + td;
    SplitTras(ts, td, '/');
    SplitJoin([td], '/');
  }

  /** The first two pieces of "a/b/…" are `a` and `b`. */
  lemma SplitDosPrimeras(a: string, b: string, resto: string)
    requires '/' !in a && '/' !in b
    ensures |Split(a + "/" + b + "/" + resto, '/')| > 1
    ensures Split(a + "/" + b + "/" + resto, '/')[0] == a && Split(a + "/" + b + "/" + resto, '/')[1] == b
  {
    var cola := b + ['/'] + resto;
    assert a + "/" + b + "/" + resto == a + ['/'] + cola;
    SplitTras(b, resto, '/');
    SplitTras(a, cola, '/');
  }

  /** The pieces of "a/b" are `a` and `b`. */
  lemma SplitDos(a: string, b: string)
    requires '/' !in a && '/' !in b
    ensures Split(a + "/" + b, '/') == [a, b]
  {
    assert a + "/" + b == a + ['/'] + b;
    SplitTras(a, b, '/');
    SplitJoin([b], '/');
  }

  /** Whatever follows a second "/" is ignored. */
  lemma PresionTresPartes(a: string, b: string, resto: string)
    requires '/' !in a && '/' !in b
    ensures Presion(Some(a + "/" + b + "/" + resto)) == Presion(Some(a + "/" + b))
  {
    SplitDosPrimeras(a, b, resto);
    SplitDos(a, b);
  }

  /** Without a text both defaults are stored; "S" alone, or "S/" followed
      by a word, keeps the default diastolic 80. */
  lemma PresionSinDiastolica(s: int, w: string, i: nat)
    requires i < |w| && 'a' <= w[i] <= 'z'
    ensures Presion(None) == (120, 80)
    ensures Presion(Some(IntToString(s))) == (s, 80)
    ensures '/' !in w ==> Presion(Some(IntToString(s) + "/" + w)) == (s, 80)
  {
    var ts := IntToString(s);
    IntToStringSinBarra(s);
    IntToStringRoundTrip(s);
    SplitJoin([ts], '/');
    if '/' !in w {
      ParsePyIntRejectsLetters(w, i);
      assert ts + "/" + w == ts + ['/'] + w;
      SplitTras(ts, w, '/');
      SplitJoin([w], '/');
    }
  }

  /** A word where the systolic value goes keeps both defaults, whatever
      follows. */
  lemma PresionSistolicaInvalida(w: string, i: nat, resto: string)
    requires '/' !in w && i < |w| && 'a' <= w[i] <= 'z'
    ensures Presion(Some(w + "/" + resto)) == (120, 80)
  {
    ParsePyIntRejectsLetters(w, i);
    assert w + "/" + resto == w + ['/'] + resto;
    SplitTras(w, resto, '/');
  }

  /** `int(x) if x else d`: None where `int` raises. */
  function LeerEntero(x: Option<string>, d: int): Option<int> {
    if Truthy(x) then ParsePyInt(x.value) else Some(d)
  }

  /** `float(x) if x else d`: None where `float` raises. */
  function LeerReal(x: Option<string>, d: real): Option<real> {
    if Truthy(x) then ParsePyFloat(x.value) else Some(d)
  }

  /** The vital-signs row with its defaults (heart rate 70, respiratory rate
      16, temperature 36.5, weight and height 0, BMI 0, saturation 98); None
      where a value sent does not read as a number. */
  function FilaSignos(hid: string, d: HistoriaClinicaCompleteCreate): (r: Option<Fila>)
    ensures r.Some? <==>
      LeerEntero(d.frecuenciaCardiaca, 70).Some? && LeerEntero(d.frecuenciaRespiratoria, 16).Some? &&
      LeerReal(d.temperatura, 36.5).Some? && LeerReal(d.peso, 0.0).Some? &&
      LeerReal(d.estatura, 0.0).Some? && LeerReal(d.saturacionOxigeno, 98.0).Some?
  {
    var pa := Presion(d.presionArterial);
    var fc := LeerEntero(d.frecuenciaCardiaca, 70);
    var fr := LeerEntero(d.frecuenciaRespiratoria, 16);
    var t := LeerReal(d.temperatura, 36.5);
    var p := LeerReal(d.peso, 0.0);
    var e := LeerReal(d.estatura, 0.0);
    var sat := LeerReal(d.saturacionOxigeno, 98.0);
    if fc.Some? && fr.Some? && t.Some? && p.Some? && e.Some? && sat.Some?
    then Some(SignosVitales(hid, pa.0, pa.1, fc.value, fr.value, t.value, p.value, e.value, 0.0, sat.value))
    else None
  }

  /** With no vital sign sent, every default is stored. */
  lemma SignosPorDefecto(hid: string, d: HistoriaClinicaCompleteCreate)
    requires d.presionArterial.None? && d.frecuenciaCardiaca.None? && d.frecuenciaRespiratoria.None?
    requires d.temperatura.None? && d.peso.None? && d.estatura.None? && d.saturacionOxigeno.None?
    ensures FilaSignos(hid, d) == Some(SignosVitales(hid, 120, 80, 70, 16, 36.5, 0.0, 0.0, 0.0, 98.0))
  {
  }

  function FilaPrueba(hid: string): AyudaDiagnosticaCreate -> Fila {
    (p: AyudaDiagnosticaCreate) => PruebasComplementarias(hid, p.categoria, p.nombrePrueba, p.codigoCUPS, Or(p.resultado, ""))
  }

  function FilaDiagnostico(hid: string): DiagnosticoClinicoCreate -> Fila {
    (g: DiagnosticoClinicoCreate) => Diagnosticos(hid, g.codigo, g.nombre, Some(Or(g.observaciones, "")))
  }

  /** The plan row, always written, empty texts in place of missing ones. */
  function FilaPlan(hid: string, d: HistoriaClinicaCompleteCreate): Fila {
    PlanTratamiento(hid, Or(d.indicacionesMedicas, ""), Or(d.recomendacionesEntrenamiento, ""), Or(d.planSeguimiento, ""))
  }

  /** A referral: priority "Normal" when left empty, today when its date
      does not parse. */
  function FilaRemision(hid: string, hoy: Fecha): RemisionEspecialistaCreate -> Fila {
    (r: RemisionEspecialistaCreate) =>
      RemisionesEspecialistas(hid, r.especialista, r.motivo, if r.prioridad != "" then r.prioridad else "Normal",
                              FechaO(Some(r.fechaRemision), hoy))
  }

  /** A referral keeps the priority and the valid date it was sent with;
      an empty priority becomes "Normal" and an unreadable date today. */
  lemma RemisionEfecto(hid: string, hoy: Fecha, r: RemisionEspecialistaCreate, f: Fecha)
    requires FechaValida(f)
    ensures FilaRemision(hid, hoy)(r).prioridad == (if r.prioridad == "" then "Normal" else r.prioridad)
    ensures r.fechaRemision == FechaIso(f) ==> FilaRemision(hid, hoy)(r).fechaRemision == f
    ensures LeerFechaIso(r.fechaRemision).None? ==> FilaRemision(hid, hoy)(r).fechaRemision == hoy
  {
    FechaOEfecto(f, r.fechaRemision, hoy);
  }

  /** The rows that depend on a flag and its text. */
  function FilasCondicionales(hid: string, d: HistoriaClinicaCompleteCreate, hoy: Fecha): seq<Fila> {
    FilasLesion(hid, d, hoy) + FilasCirugia(hid, d, hoy) + FilasAlergia(hid, d) + FilasMedicacion(hid, d)
  }

  /** The rows written before the vital signs. */
  function FilasAntecedentes(hid: string, d: HistoriaClinicaCompleteCreate, hoy: Fecha): seq<Fila> {
    Mapear(d.antecedentesPersonales, FilaPersonal(hid)) + Mapear(d.antecedentesFamiliares, FilaFamiliar(hid)) +
    FilasCondicionales(hid, d, hoy) + Mapear(d.vacunas, FilaVacuna(hid, hoy)) + FilasRevision(hid, d.revisionSistemas)
  }

  /** The rows written after the vital signs, the JSON copy last. */
  function FilasFinales(hid: string, d: HistoriaClinicaCompleteCreate, hoy: Fecha): seq<Fila> {
    Mapear(d.ayudasDiagnosticas, FilaPrueba(hid)) + Mapear(d.diagnosticos, FilaDiagnostico(hid)) +
    [FilaPlan(hid, d)] + Mapear(d.remisionesEspecialistas, FilaRemision(hid, hoy)) +
    [HistoriaClinicaJSON(hid, d.deportistaId, d)]
  }

  /** The whole effect of a creation on the tables. */
  function Creacion(catalogos: map<string, map<string, string>>, d: HistoriaClinicaCompleteCreate, hoy: Fecha, hid: string): Efecto {
    if "estado_historia" !in catalogos then Falla(SinCatalogoEstado)
    else if "Abierta" !in catalogos["estado_historia"] then Falla(SinEstadoAbierta)
    else match FilaSignos(hid, d)
      case None => Falla(SignoNoNumerico)
      case Some(sv) =>
        Escribe([HistoriaClinica(hid, d.deportistaId, hoy, catalogos["estado_historia"]["Abierta"])] +
                FilasAntecedentes(hid, d, hoy) + [sv] + FilasFinales(hid, d, hoy))
  }

  /** A creation fails exactly when the "Abierta" state is missing from the
      catalogues or a vital sign sent is not a number; otherwise the record
      opens today in that state, and the JSON copy is its last row. */
  lemma CreacionEfecto(catalogos: map<string, map<string, string>>, d: HistoriaClinicaCompleteCreate, hoy: Fecha, hid: string)
    ensures Creacion(catalogos, d, hoy, hid).Falla? <==>
      "estado_historia" !in catalogos || "Abierta" !in catalogos["estado_historia"] || FilaSignos(hid, d).None?
    ensures Creacion(catalogos, d, hoy, hid).Escribe? ==>
      var n := Creacion(catalogos, d, hoy, hid).nuevas;
      |n| >= 4 &&
      n[0] == HistoriaClinica(hid, d.deportistaId, hoy, catalogos["estado_historia"]["Abierta"]) &&
      n[|n| - 1] == HistoriaClinicaJSON(hid, d.deportistaId, d)
  {
  }

  /** A heart rate that is not an integer aborts the whole creation. */
  lemma FrecuenciaNoEntera(catalogos: map<string, map<string, string>>, d: HistoriaClinicaCompleteCreate, hoy: Fecha, hid: string, i: nat)
    requires d.frecuenciaCardiaca.Some? && i < |d.frecuenciaCardiaca.value| && 'a' <= d.frecuenciaCardiaca.value[i] <= 'z'
    ensures Creacion(catalogos, d, hoy, hid).Falla?
  {
    ParsePyIntRejectsLetters(d.frecuenciaCardiaca.value, i);
  }

  /** The lesion row exists exactly when lesions are flagged and described,
      and the surgery, allergy and medication rows likewise. */
  lemma CondicionalesIff(hid: string, d: HistoriaClinicaCompleteCreate, hoy: Fecha)
    ensures |FilasLesion(hid, d, hoy)| == if d.lesionesDeportivas && Truthy(d.descripcionLesiones) then 1 else 0
    ensures |FilasCirugia(hid, d, hoy)| == if d.cirugiasPrevias && Truthy(d.detalleCirugias) then 1 else 0
    ensures |FilasAlergia(hid, d)| == if d.tieneAlergias && Truthy(d.alergias) then 1 else 0
    ensures |FilasMedicacion(hid, d)| == if d.tomaMedicacion && Truthy(d.medicacionActual) then 1 else 0
  {
  }

  // ---------------------------------------------------------------------
  // The appointment of the day
  // ---------------------------------------------------------------------

  /** `.first()` of the athlete's appointments dated today. */
  function PrimeraCitaDeHoy(citas: seq<Cita>, deportista: string, hoy: Fecha): (r: Option<nat>)
    ensures r.Some? ==> r.value < |citas| && citas[r.value].deportistaId == deportista && citas[r.value].fecha == hoy
    ensures r.Some? ==> forall j :: 0 <= j < r.value ==> !(citas[j].deportistaId == deportista && citas[j].fecha == hoy)
    ensures r.None? ==> forall j :: 0 <= j < |citas| ==> !(citas[j].deportistaId == deportista && citas[j].fecha == hoy)
  {
    if citas == [] then None
    else if citas[0].deportistaId == deportista && citas[0].fecha == hoy then Some(0)
    else
      match PrimeraCitaDeHoy(citas[1..], deportista, hoy)
      case None => None
      case Some(i) => Some(i + 1)
  }

  /** The day's first appointment of the athlete moves to the "Realizada"
      state of "estados_cita"; without that catalogue, that item or that
      appointment nothing changes. */
  function MarcarCitaRealizada(citas: seq<Cita>, catalogos: map<string, map<string, string>>, deportista: string, hoy: Fecha): (r: seq<Cita>)
    ensures |r| == |citas|
    ensures forall j :: 0 <= j < |citas| && r[j] != citas[j] ==>
      PrimeraCitaDeHoy(citas, deportista, hoy) == Some(j) &&
      "estados_cita" in catalogos && "Realizada" in catalogos["estados_cita"] &&
      r[j] == citas[j].(estadoCitaId := catalogos["estados_cita"]["Realizada"])
  {
    if "estados_cita" in catalogos && "Realizada" in catalogos["estados_cita"] then
      match PrimeraCitaDeHoy(citas, deportista, hoy)
      case None => citas
      case Some(i) => citas[i := citas[i].(estadoCitaId := catalogos["estados_cita"]["Realizada"])]
    else citas
  }

  /** When the catalogue and the appointment exist, that appointment is the
      one marked done. */
  lemma CitaRealizada(citas: seq<Cita>, catalogos: map<string, map<string, string>>, deportista: string, hoy: Fecha, j: nat)
    requires j < |citas| && citas[j].deportistaId == deportista && citas[j].fecha == hoy
    requires "estados_cita" in catalogos && "Realizada" in catalogos["estados_cita"]
    ensures PrimeraCitaDeHoy(citas, deportista, hoy).Some? && PrimeraCitaDeHoy(citas, deportista, hoy).value <= j
    ensures MarcarCitaRealizada(citas, catalogos, deportista, hoy)[PrimeraCitaDeHoy(citas, deportista, hoy).value].estadoCitaId
            == catalogos["estados_cita"]["Realizada"]
  {
  }

  // ---------------------------------------------------------------------
  // Deletion
  // ---------------------------------------------------------------------

  /** The id a deletion looks for: the parsed UUID, or the text as it is. */
  function Clave(historiaId: string): string {
    match Uuid.Parse(historiaId)
    case Some(u) => u
    case None => historiaId
  }

  predicate TieneHistoria(fs: seq<Fila>, id: string) {
    exists k :: 0 <= k < |fs| && fs[k].HistoriaClinica? && fs[k].id == id
  }

  function NoEsRespaldo(id: string): Fila -> bool {
    (f: Fila) => !(f.HistoriaClinicaJSON? && f.historia == id)
  }

  function NoEsRegistro(id: string): Fila -> bool {
    (f: Fila) => !(f.HistoriaClinica? && f.id == id)
  }

  /** The rows a deletion keeps: all but the record and its JSON copies. */
  function SeConserva(id: string): Fila -> bool {
    (f: Fila) => !(f.HistoriaClinicaJSON? && f.historia == id) && !(f.HistoriaClinica? && f.id == id)
  }

  /** After a deletion neither the record nor a JSON copy of it is left, and
      every other row is. */
  lemma EliminarEfecto(fs: seq<Fila>, id: string, f: Fila)
    ensures !TieneHistoria(Filtrar(fs, SeConserva(id)), id)
    ensures forall k :: 0 <= k < |Filtrar(fs, SeConserva(id))| ==> NoEsRespaldo(id)(Filtrar(fs, SeConserva(id))[k])
    ensures f in Filtrar(fs, SeConserva(id)) <==> f in fs && SeConserva(id)(f)
  {
    var r := Filtrar(fs, SeConserva(id));
    forall k | 0 <= k < |r|
      ensures !(r[k].HistoriaClinica? && r[k].id == id)
    {
      assert SeConserva(id)(r[k]);
    }
    if f in r {
      FiltrarSubconjunto(fs, SeConserva(id), f);
    }
    if f in fs && SeConserva(id)(f) {
      var k :| 0 <= k < |fs| && fs[k] == f;
      FiltrarCompleto(fs, SeConserva(id), k);
    }
  }

  /** An id written in any form `UUID` accepts finds the record stored
      under its canonical form. */
  lemma ClaveCanonica(id: string)
    requires Uuid.IsCanonical(id)
    ensures Clave(id) == id
    ensures Clave("{" + id + "}") == id
  {
    Uuid.CanonicalRoundTrip(id);
    Uuid.BracedRoundTrip(id);
  }

  // ---------------------------------------------------------------------
  // The session
  // ---------------------------------------------------------------------

  /**
   * The vital-signs step: blood pressure read into two variables that start
   * at 120 and 80, then each numeric field converted or defaulted; None
   * where a conversion raises.
   */
  method LeerSignosVitales(hid: string, d: HistoriaClinicaCompleteCreate) returns (sv: Option<Fila>)
    ensures sv == FilaSignos(hid, d)
  {
    var sistolica, diastolica := 120, 80;
    if Truthy(d.presionArterial) {
      var partes := Split(d.presionArterial.value, '/');
      var s := ParsePyInt(partes[0]);
      if s.Some? {
        sistolica := s.value;
        diastolica := 80;
        if |partes| > 1 {
          var dia := ParsePyInt(partes[1]);
          if dia.Some? {
            diastolica := dia.value;
          }
        }
      }
    }
    var fc := LeerEntero(d.frecuenciaCardiaca, 70);
    var fr := LeerEntero(d.frecuenciaRespiratoria, 16);
    var t := LeerReal(d.temperatura, 36.5);
    var p := LeerReal(d.peso, 0.0);
    var e := LeerReal(d.estatura, 0.0);
    var sat := LeerReal(d.saturacionOxigeno, 98.0);
    if fc.None? || fr.None? || t.None? || p.None? || e.None? || sat.None? {
      return None;
    }
    sv := Some(SignosVitales(hid, sistolica, diastolica, fc.value, fr.value, t.value, p.value, e.value, 0.0, sat.value));
  }

  class Sesion {
    /** Catalogue name to its items, item name to item id. */
    var catalogos: map<string, map<string, string>>
    var filas: seq<Fila>
    var citas: seq<Cita>

    constructor(catalogos0: map<string, map<string, string>>, citas0: seq<Cita>)
      ensures catalogos == catalogos0 && filas == [] && citas == citas0
    {
      catalogos, filas, citas := catalogos0, [], citas0;
    }

    /** `db.add` of one row per item, in order. */
    method AgregarCada<T>(items: seq<T>, fila: T -> Fila)
      modifies this
      ensures filas == old(filas) + Mapear(items, fila)
      ensures catalogos == old(catalogos) && citas == old(citas)
    {
      for i := 0 to |items|
        invariant filas == old(filas) + Mapear(items[..i], fila)
        invariant catalogos == old(catalogos) && citas == old(citas)
      {
        MapearAgrega(items[..i], items[i], fila);
        assert items[..i + 1] == items[..i] + [items[i]];
        filas := filas + [fila(items[i])];
      }
      assert items[..|items|] == items;
    }

    /** The eight systems of the review, written one by one. */
    method AgregarRevision(hid: string, revision: RevisionSistemasCreate)
      modifies this
      ensures filas == old(filas) + FilasRevision(hid, revision)
      ensures catalogos == old(catalogos) && citas == old(citas)
    {
      AgregarSistemas(hid, Sistemas(revision));
    }

    /** The loop over the listed systems, adding a row for each one filled in. */
    method AgregarSistemas(hid: string, sistemas: seq<(string, SistemaRevisionBase)>)
      modifies this
      ensures filas == old(filas) + Mapear(Filtrar(sistemas, Revisado()), FilaRevision(hid))
      ensures catalogos == old(catalogos) && citas == old(citas)
    {
      for i := 0 to |sistemas|
        invariant filas == old(filas) + Mapear(Filtrar(sistemas[..i], Revisado()), FilaRevision(hid))
        invariant catalogos == old(catalogos) && citas == old(citas)
      {
        FiltrarAgrega(sistemas[..i], sistemas[i], Revisado());
        MapearAgrega(Filtrar(sistemas[..i], Revisado()), sistemas[i], FilaRevision(hid));
        assert sistemas[..i + 1] == sistemas[..i] + [sistemas[i]];
        var revisionSistema := sistemas[i].1;
        if Truthy(revisionSistema.estado) || Truthy(revisionSistema.observaciones) {
          filas := filas + [RevisionSistemas(hid, sistemas[i].0, Or(revisionSistema.estado, ""), Some(Or(revisionSistema.observaciones, "")))];
        }
      }
      assert sistemas[..|sistemas|] == sistemas;
    }

    /** The lesion, surgery, allergy and medication rows. */
    method AgregarCondicionales(hid: string, d: HistoriaClinicaCompleteCreate, hoy: Fecha)
      modifies this
      ensures filas == old(filas) + FilasCondicionales(hid, d, hoy)
      ensures catalogos == old(catalogos) && citas == old(citas)
    {
      ghost var f0 := filas;
      if d.lesionesDeportivas && Truthy(d.descripcionLesiones) {
        var fechaLesion := hoy;
        if Truthy(d.fechaUltimaLesion) {
          var leida := LeerFechaIso(d.fechaUltimaLesion.value);
          fechaLesion := if leida.Some? then leida.value else hoy;
        }
        filas := filas + [LesionesDeportivas(hid, d.descripcionLesiones.value, fechaLesion, "", Some(""))];
      }
      ghost var lesion := FilasLesion(hid, d, hoy);
      assert filas == f0 + lesion;
      if d.cirugiasPrevias && Truthy(d.detalleCirugias) {
        filas := filas + [CirugiasPrevias(hid, d.detalleCirugias.value, hoy, Some(""))];
      }
      ghost var cirugia := FilasCirugia(hid, d, hoy);
      assert filas == f0 + lesion + cirugia;
      Asociativa(f0, lesion, cirugia);
      if d.tieneAlergias && Truthy(d.alergias) {
        filas := filas + [Alergias(hid, "General", d.alergias.value, "")];
      }
      ghost var alergia := FilasAlergia(hid, d);
      assert filas == f0 + (lesion + cirugia) + alergia;
      Asociativa(f0, lesion + cirugia, alergia);
      if d.tomaMedicacion && Truthy(d.medicacionActual) {
        filas := filas + [Medicaciones(hid, d.medicacionActual.value, "", "", "", "")];
      }
      ghost var medicacion := FilasMedicacion(hid, d);
      assert filas == f0 + (lesion + cirugia + alergia) + medicacion;
      Asociativa(f0, lesion + cirugia + alergia, medicacion);
    }

    /** Everything from the personal history to the review of systems. */
    method AgregarAntecedentes(hid: string, d: HistoriaClinicaCompleteCreate, hoy: Fecha)
      modifies this
      ensures filas == old(filas) + FilasAntecedentes(hid, d, hoy)
      ensures catalogos == old(catalogos) && citas == old(citas)
    {
      ghost var f0 := filas;
      ghost var personales := Mapear(d.antecedentesPersonales, FilaPersonal(hid));
      ghost var familiares := Mapear(d.antecedentesFamiliares, FilaFamiliar(hid));
      ghost var condicionales := FilasCondicionales(hid, d, hoy);
      ghost var vacunas := Mapear(d.vacunas, FilaVacuna(hid, hoy));
      AgregarCada(d.antecedentesPersonales, FilaPersonal(hid));
      AgregarCada(d.antecedentesFamiliares, FilaFamiliar(hid));
      Asociativa(f0, personales, familiares);
      AgregarCondicionales(hid, d, hoy);
      Asociativa(f0, personales + familiares, condicionales);
      AgregarCada(d.vacunas, FilaVacuna(hid, hoy));
      Asociativa(f0, personales + familiares + condicionales, vacunas);
      AgregarRevision(hid, d.revisionSistemas);
      Asociativa(f0, personales + familiares + condicionales + vacunas, FilasRevision(hid, d.revisionSistemas));
    }

    /** Everything after the vital signs, the JSON copy last. */
    method AgregarFinales(hid: string, d: HistoriaClinicaCompleteCreate, hoy: Fecha)
      modifies this
      ensures filas == old(filas) + FilasFinales(hid, d, hoy)
      ensures catalogos == old(catalogos) && citas == old(citas)
    {
      AgregarCada(d.ayudasDiagnosticas, FilaPrueba(hid));
      AgregarCada(d.diagnosticos, FilaDiagnostico(hid));
      filas := filas + [PlanTratamiento(hid, Or(d.indicacionesMedicas, ""), Or(d.recomendacionesEntrenamiento, ""), Or(d.planSeguimiento, ""))];
      AgregarCada(d.remisionesEspecialistas, FilaRemision(hid, hoy));
      filas := filas + [HistoriaClinicaJSON(hid, d.deportistaId, d)];
    }

    /**
     * `crear_historia_completa`: the record under id `hid` in the "Abierta"
     * state, every section in order, the JSON copy, the appointment, and a
     * commit; any ValueError rolls all of it back.
     */
    method CrearHistoriaCompleta(d: HistoriaClinicaCompleteCreate, hoy: Fecha, hid: string) returns (r: Efecto)
      modifies this
      ensures r == Creacion(old(catalogos), d, hoy, hid)
      ensures catalogos == old(catalogos)
      ensures r.Escribe? ==>
        filas == old(filas) + r.nuevas && citas == MarcarCitaRealizada(old(citas), catalogos, d.deportistaId, hoy)
      ensures r.Falla? ==> filas == old(filas) && citas == old(citas)
    {
      var filasAntes := filas;
      if "estado_historia" !in catalogos {
        return Falla(SinCatalogoEstado);
      }
      var estados := catalogos["estado_historia"];
      if "Abierta" !in estados {
        return Falla(SinEstadoAbierta);
      }
      var historia := HistoriaClinica(hid, d.deportistaId, hoy, estados["Abierta"]);
      ghost var antecedentes := FilasAntecedentes(hid, d, hoy);
      ghost var finales := FilasFinales(hid, d, hoy);
      filas := filas + [historia];
      AgregarAntecedentes(hid, d, hoy);
      Asociativa(filasAntes, [historia], antecedentes);
      var sv := LeerSignosVitales(hid, d);
      if sv.None? {
        filas := filasAntes;
        return Falla(SignoNoNumerico);
      }
      filas := filas + [sv.value];
      Asociativa(filasAntes, [historia] + antecedentes, [sv.value]);
      AgregarFinales(hid, d, hoy);
      Asociativa(filasAntes, [historia] + antecedentes + [sv.value], finales);
      citas := MarcarCitaRealizada(citas, catalogos, d.deportistaId, hoy);
      ghost var nuevas := [historia] + antecedentes + [sv.value] + finales;
      assert filas[|filasAntes|..] == nuevas;
      r := Escribe(filas[|filasAntes|..]);
    }

    /**
     * `eliminar_historia`: False when no record has the id; otherwise its
     * JSON copies are deleted, then the record, and True is returned.
     */
    method EliminarHistoria(historiaId: string) returns (eliminada: bool)
      modifies this
      ensures catalogos == old(catalogos) && citas == old(citas)
      ensures eliminada <==> TieneHistoria(old(filas), Clave(historiaId))
      ensures !eliminada ==> filas == old(filas)
      ensures eliminada ==> filas == Filtrar(old(filas), SeConserva(Clave(historiaId)))
    {
      var id := Clave(historiaId);
      if !TieneHistoria(filas, id) {
        return false;
      }
      FiltrarFiltrar(filas, NoEsRespaldo(id), NoEsRegistro(id), SeConserva(id));
      filas := Filtrar(filas, NoEsRespaldo(id));
      filas := Filtrar(filas, NoEsRegistro(id));
      eliminada := true;
    }
  }

  /** Deleting twice: the second call finds nothing and changes nothing. */
  lemma EliminarDosVeces(fs: seq<Fila>, historiaId: string)
    ensures !TieneHistoria(Filtrar(fs, SeConserva(Clave(historiaId))), Clave(historiaId))
  {
    EliminarEfecto(fs, Clave(historiaId), HistoriaClinica(Clave(historiaId), "", Fecha(1, 1, 1), ""));
  }
}

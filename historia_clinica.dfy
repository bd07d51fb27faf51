/**
 * The clinical-history wizard: the form data shared by its seven steps,
 * the shallow merge every step uses to update it, the per-step validators
 * and the step counter that only moves past a step whose data validates.
 */
module HistoriaClinica {
  import opened Wrappers
  import opened Text
  import opened Numeros
  import opened Listas
  import opened ComponenteAlergias

  /** Number of wizard steps. */
  const TotalPasos: int := 7

  /** `"normal" | "anormal" | ""`: the empty string is a system not yet evaluated. */
  datatype Estado = Normal | Anormal | SinEvaluar

  datatype EvalSistema = EvalSistema(estado: Estado, observaciones: string)

  /** The eight body systems reviewed in step 3 and examined in step 4. */
  datatype Sistema =
    Cardiovascular | Respiratorio | Digestivo | Neurologico |
    Musculoesqueletico | Genitourinario | Endocrino | PielFaneras

  /** The systems in the order the form lists them. */
  const Sistemas: seq<Sistema> :=
    [Cardiovascular, Respiratorio, Digestivo, Neurologico,
     Musculoesqueletico, Genitourinario, Endocrino, PielFaneras]

  /** The list names every system once. */
  lemma SistemasCompletos()
    ensures |Sistemas| == 8
    ensures forall s: Sistema :: s in Sistemas
    ensures forall i, j :: 0 <= i < j < |Sistemas| ==> Sistemas[i] != Sistemas[j]
  {
    forall s: Sistema ensures s in Sistemas {
      assert Sistemas[Indice(s)] == s;
    }
  }

  /** Where a system stands in the list. */
  function Indice(s: Sistema): (k: nat)
    ensures k < |Sistemas| && Sistemas[k] == s
  {
    match s
    case Cardiovascular => 0
    case Respiratorio => 1
    case Digestivo => 2
    case Neurologico => 3
    case Musculoesqueletico => 4
    case Genitourinario => 5
    case Endocrino => 6
    case PielFaneras => 7
  }

  /** One evaluation per system: the `revisionSistemas` and `exploracionSistemas` objects. */
  datatype Sistemas8 = Sistemas8(
    cardiovascular: EvalSistema,
    respiratorio: EvalSistema,
    digestivo: EvalSistema,
    neurologico: EvalSistema,
    musculoesqueletico: EvalSistema,
    genitourinario: EvalSistema,
    endocrino: EvalSistema,
    pielFaneras: EvalSistema)
  {
    /** `obj[sistema]`. */
    function Get(s: Sistema): EvalSistema {
      match s
      case Cardiovascular => cardiovascular
      case Respiratorio => respiratorio
      case Digestivo => digestivo
      case Neurologico => neurologico
      case Musculoesqueletico => musculoesqueletico
      case Genitourinario => genitourinario
      case Endocrino => endocrino
      case PielFaneras => pielFaneras
    }

    /** `{ ...obj, [sistema]: e }`: that system replaced, every other one kept. */
    function Set(s: Sistema, e: EvalSistema): (r: Sistemas8)
      ensures r.Get(s) == e
      ensures forall t :: t != s ==> r.Get(t) == Get(t)
    {
      match s
      case Cardiovascular => this.(cardiovascular := e)
      case Respiratorio => this.(respiratorio := e)
      case Digestivo => this.(digestivo := e)
      case Neurologico => this.(neurologico := e)
      case Musculoesqueletico => this.(musculoesqueletico := e)
      case Genitourinario => this.(genitourinario := e)
      case Endocrino => this.(endocrino := e)
      case PielFaneras => this.(pielFaneras := e)
    }
  }

  /** Two evaluation objects agreeing on every system are the same object. */
  lemma Sistemas8Ext(a: Sistemas8, b: Sistemas8)
    requires forall s: Sistema :: a.Get(s) == b.Get(s)
    ensures a == b
  {
    assert a.Get(Cardiovascular) == b.Get(Cardiovascular);
    assert a.Get(Respiratorio) == b.Get(Respiratorio);
    assert a.Get(Digestivo) == b.Get(Digestivo);
    assert a.Get(Neurologico) == b.Get(Neurologico);
    assert a.Get(Musculoesqueletico) == b.Get(Musculoesqueletico);
    assert a.Get(Genitourinario) == b.Get(Genitourinario);
    assert a.Get(Endocrino) == b.Get(Endocrino);
    assert a.Get(PielFaneras) == b.Get(PielFaneras);
  }

  const EvalNormal: EvalSistema := EvalSistema(Normal, "")

  /** Every system marked normal, without observations. */
  const TodosNormales: Sistemas8 :=
    Sistemas8(EvalNormal, EvalNormal, EvalNormal, EvalNormal,
              EvalNormal, EvalNormal, EvalNormal, EvalNormal)

  datatype AntecedentePersonal = AntecedentePersonal(codigoCIE11: string, nombreEnfermedad: string, observaciones: string)

  datatype AntecedenteFamiliar = AntecedenteFamiliar(codigoCIE11: string, nombreEnfermedad: string, familiar: string, observaciones: string)

  /** A selected `File`: only its identity matters to the form. */
  datatype Archivo = Archivo(nombre: string, tamano: nat)

  datatype Prueba = Prueba(categoria: string, nombrePrueba: string, codigoCUPS: string, resultado: string, archivosAdjuntos: seq<Archivo>)

  datatype Diagnostico = Diagnostico(codigo: string, nombre: string, observaciones: string)

  datatype Prioridad = PrioridadNormal | PrioridadUrgente

  datatype Remision = Remision(especialista: string, motivo: string, prioridad: Prioridad, fechaRemision: string)

  /** `HistoriaClinicaData`: everything the seven steps collect. */
  datatype FormData = FormData(
    tipoCita: string,
    motivoConsulta: string,
    enfermedadActual: string,
    antecedentesPersonales: seq<AntecedentePersonal>,
    antecedentesFamiliares: seq<AntecedenteFamiliar>,
    lesionesDeportivas: bool,
    descripcionLesiones: string,
    fechaUltimaLesion: string,
    cirugiasPrevias: bool,
    detalleCirugias: string,
    tieneAlergias: bool,
    alergias: seq<Alergia>,
    tomaMedicacion: bool,
    medicacionActual: string,
    vacunas: seq<string>,
    revisionSistemas: Sistemas8,
    estatura: string,
    peso: string,
    frecuenciaCardiaca: string,
    presionArterial: string,
    frecuenciaRespiratoria: string,
    temperatura: string,
    saturacionOxigeno: string,
    exploracionSistemas: Sistemas8,
    ayudasDiagnosticas: seq<Prueba>,
    analisisObjetivoDiagnostico: string,
    impresionDiagnostica: string,
    diagnosticos: seq<Diagnostico>,
    indicacionesMedicas: string,
    recomendacionesEntrenamiento: string,
    planSeguimiento: string,
    remisionesEspecialistas: seq<Remision>)

  /** `Partial<HistoriaClinicaData>`: a value for some of the fields. */
  datatype Parche = Parche(
    tipoCita: Option<string>,
    motivoConsulta: Option<string>,
    enfermedadActual: Option<string>,
    antecedentesPersonales: Option<seq<AntecedentePersonal>>,
    antecedentesFamiliares: Option<seq<AntecedenteFamiliar>>,
    lesionesDeportivas: Option<bool>,
    descripcionLesiones: Option<string>,
    fechaUltimaLesion: Option<string>,
    cirugiasPrevias: Option<bool>,
    detalleCirugias: Option<string>,
    tieneAlergias: Option<bool>,
    alergias: Option<seq<Alergia>>,
    tomaMedicacion: Option<bool>,
    medicacionActual: Option<string>,
    vacunas: Option<seq<string>>,
    revisionSistemas: Option<Sistemas8>,
    estatura: Option<string>,
    peso: Option<string>,
    frecuenciaCardiaca: Option<string>,
    presionArterial: Option<string>,
    frecuenciaRespiratoria: Option<string>,
    temperatura: Option<string>,
    saturacionOxigeno: Option<string>,
    exploracionSistemas: Option<Sistemas8>,
    ayudasDiagnosticas: Option<seq<Prueba>>,
    analisisObjetivoDiagnostico: Option<string>,
    impresionDiagnostica: Option<string>,
    diagnosticos: Option<seq<Diagnostico>>,
    indicacionesMedicas: Option<string>,
    recomendacionesEntrenamiento: Option<string>,
    planSeguimiento: Option<string>,
    remisionesEspecialistas: Option<seq<Remision>>)

  /** The patch that sets nothing. */
  const Vacio: Parche := Parche(None, None, None, None, None, None, None, None, None, None, None, None, None, None, None, None, None, None, None, None, None, None, None, None, None, None, None, None, None, None, None, None)

  /** `{ ...prev, ...patch }`: the fields the patch sets, the rest from before. */
  function Aplicar(d: FormData, p: Parche): (r: FormData) {
    FormData(
      p.tipoCita.GetOr(d.tipoCita),
      p.motivoConsulta.GetOr(d.motivoConsulta),
      p.enfermedadActual.GetOr(d.enfermedadActual),
      p.antecedentesPersonales.GetOr(d.antecedentesPersonales),
      p.antecedentesFamiliares.GetOr(d.antecedentesFamiliares),
      p.lesionesDeportivas.GetOr(d.lesionesDeportivas),
      p.descripcionLesiones.GetOr(d.descripcionLesiones),
      p.fechaUltimaLesion.GetOr(d.fechaUltimaLesion),
      p.cirugiasPrevias.GetOr(d.cirugiasPrevias),
      p.detalleCirugias.GetOr(d.detalleCirugias),
      p.tieneAlergias.GetOr(d.tieneAlergias),
      p.alergias.GetOr(d.alergias),
      p.tomaMedicacion.GetOr(d.tomaMedicacion),
      p.medicacionActual.GetOr(d.medicacionActual),
      p.vacunas.GetOr(d.vacunas),
      p.revisionSistemas.GetOr(d.revisionSistemas),
      p.estatura.GetOr(d.estatura),
      p.peso.GetOr(d.peso),
      p.frecuenciaCardiaca.GetOr(d.frecuenciaCardiaca),
      p.presionArterial.GetOr(d.presionArterial),
      p.frecuenciaRespiratoria.GetOr(d.frecuenciaRespiratoria),
      p.temperatura.GetOr(d.temperatura),
      p.saturacionOxigeno.GetOr(d.saturacionOxigeno),
      p.exploracionSistemas.GetOr(d.exploracionSistemas),
      p.ayudasDiagnosticas.GetOr(d.ayudasDiagnosticas),
      p.analisisObjetivoDiagnostico.GetOr(d.analisisObjetivoDiagnostico),
      p.impresionDiagnostica.GetOr(d.impresionDiagnostica),
      p.diagnosticos.GetOr(d.diagnosticos),
      p.indicacionesMedicas.GetOr(d.indicacionesMedicas),
      p.recomendacionesEntrenamiento.GetOr(d.recomendacionesEntrenamiento),
      p.planSeguimiento.GetOr(d.planSeguimiento),
      p.remisionesEspecialistas.GetOr(d.remisionesEspecialistas))
  }

  /** One field of two spreads in a row: the later value wins. */
  function Mas<T>(a: Option<T>, b: Option<T>): (r: Option<T>) {
    if b.Some? then b else a
  }

  lemma MasGetOr<T>(a: Option<T>, b: Option<T>, v: T)
    ensures Mas(a, b).GetOr(v) == b.GetOr(a.GetOr(v))
  {
  }

  /** Spreading `p` then `q`: `q`'s fields win. */
  function Componer(p: Parche, q: Parche): (r: Parche) {
    Parche(
      Mas(p.tipoCita, q.tipoCita),
      Mas(p.motivoConsulta, q.motivoConsulta),
      Mas(p.enfermedadActual, q.enfermedadActual),
      Mas(p.antecedentesPersonales, q.antecedentesPersonales),
      Mas(p.antecedentesFamiliares, q.antecedentesFamiliares),
      Mas(p.lesionesDeportivas, q.lesionesDeportivas),
      Mas(p.descripcionLesiones, q.descripcionLesiones),
      Mas(p.fechaUltimaLesion, q.fechaUltimaLesion),
      Mas(p.cirugiasPrevias, q.cirugiasPrevias),
      Mas(p.detalleCirugias, q.detalleCirugias),
      Mas(p.tieneAlergias, q.tieneAlergias),
      Mas(p.alergias, q.alergias),
      Mas(p.tomaMedicacion, q.tomaMedicacion),
      Mas(p.medicacionActual, q.medicacionActual),
      Mas(p.vacunas, q.vacunas),
      Mas(p.revisionSistemas, q.revisionSistemas),
      Mas(p.estatura, q.estatura),
      Mas(p.peso, q.peso),
      Mas(p.frecuenciaCardiaca, q.frecuenciaCardiaca),
      Mas(p.presionArterial, q.presionArterial),
      Mas(p.frecuenciaRespiratoria, q.frecuenciaRespiratoria),
      Mas(p.temperatura, q.temperatura),
      Mas(p.saturacionOxigeno, q.saturacionOxigeno),
      Mas(p.exploracionSistemas, q.exploracionSistemas),
      Mas(p.ayudasDiagnosticas, q.ayudasDiagnosticas),
      Mas(p.analisisObjetivoDiagnostico, q.analisisObjetivoDiagnostico),
      Mas(p.impresionDiagnostica, q.impresionDiagnostica),
      Mas(p.diagnosticos, q.diagnosticos),
      Mas(p.indicacionesMedicas, q.indicacionesMedicas),
      Mas(p.recomendacionesEntrenamiento, q.recomendacionesEntrenamiento),
      Mas(p.planSeguimiento, q.planSeguimiento),
      Mas(p.remisionesEspecialistas, q.remisionesEspecialistas))
  }

  /** `getInitialFormData()`: empty texts and lists, every flag off, every
      system marked normal, and default vital signs. */
  function Inicial(): (d: FormData)
  {
    FormData("", "", "", [], [], false, "", "", false, "", false, [], false, "", [],
             TodosNormales, "", "", "70", "120/80", "16", "36.5", "98", TodosNormales,
             [], "", "", [], "", "", "", [])
  }

  /** The initial data: all sixteen systems normal, the default vital signs,
      no antecedent, allergy or diagnosis. */
  lemma InicialValores()
    ensures forall s: Sistema :: Inicial().revisionSistemas.Get(s) == EvalSistema(Normal, "")
    ensures forall s: Sistema :: Inicial().exploracionSistemas.Get(s) == EvalSistema(Normal, "")
    ensures Inicial().frecuenciaCardiaca == "70" && Inicial().presionArterial == "120/80"
    ensures Inicial().frecuenciaRespiratoria == "16" && Inicial().temperatura == "36.5"
    ensures Inicial().saturacionOxigeno == "98"
    ensures Inicial().estatura == "" && Inicial().peso == ""
    ensures !Inicial().lesionesDeportivas && !Inicial().cirugiasPrevias
    ensures !Inicial().tieneAlergias && !Inicial().tomaMedicacion
    ensures Inicial().alergias == [] && Inicial().diagnosticos == []
    ensures Inicial().antecedentesPersonales == [] && Inicial().antecedentesFamiliares == []
  {
  }

  /** An empty patch changes nothing. */
  lemma AplicarVacio(d: FormData)
    ensures Aplicar(d, Vacio) == d
  {
  }

  /** Applying the same patch twice is applying it once. */
  lemma AplicarIdempotente(d: FormData, p: Parche)
    ensures Aplicar(Aplicar(d, p), p) == Aplicar(d, p)
  {
  }

  /** Two merges in a row are one merge with the later patch winning on
      the fields both set. */
  lemma AplicarCompone(d: FormData, p: Parche, q: Parche)
    ensures Aplicar(Aplicar(d, p), q) == Aplicar(d, Componer(p, q))
  {
    MasGetOr(p.tipoCita, q.tipoCita, d.tipoCita);
    MasGetOr(p.motivoConsulta, q.motivoConsulta, d.motivoConsulta);
    MasGetOr(p.enfermedadActual, q.enfermedadActual, d.enfermedadActual);
    MasGetOr(p.antecedentesPersonales, q.antecedentesPersonales, d.antecedentesPersonales);
    MasGetOr(p.antecedentesFamiliares, q.antecedentesFamiliares, d.antecedentesFamiliares);
    MasGetOr(p.lesionesDeportivas, q.lesionesDeportivas, d.lesionesDeportivas);
    MasGetOr(p.descripcionLesiones, q.descripcionLesiones, d.descripcionLesiones);
    MasGetOr(p.fechaUltimaLesion, q.fechaUltimaLesion, d.fechaUltimaLesion);
    MasGetOr(p.cirugiasPrevias, q.cirugiasPrevias, d.cirugiasPrevias);
    MasGetOr(p.detalleCirugias, q.detalleCirugias, d.detalleCirugias);
    MasGetOr(p.tieneAlergias, q.tieneAlergias, d.tieneAlergias);
    MasGetOr(p.alergias, q.alergias, d.alergias);
    MasGetOr(p.tomaMedicacion, q.tomaMedicacion, d.tomaMedicacion);
    MasGetOr(p.medicacionActual, q.medicacionActual, d.medicacionActual);
    MasGetOr(p.vacunas, q.vacunas, d.vacunas);
    MasGetOr(p.revisionSistemas, q.revisionSistemas, d.revisionSistemas);
    MasGetOr(p.estatura, q.estatura, d.estatura);
    MasGetOr(p.peso, q.peso, d.peso);
    MasGetOr(p.frecuenciaCardiaca, q.frecuenciaCardiaca, d.frecuenciaCardiaca);
    MasGetOr(p.presionArterial, q.presionArterial, d.presionArterial);
    MasGetOr(p.frecuenciaRespiratoria, q.frecuenciaRespiratoria, d.frecuenciaRespiratoria);
    MasGetOr(p.temperatura, q.temperatura, d.temperatura);
    MasGetOr(p.saturacionOxigeno, q.saturacionOxigeno, d.saturacionOxigeno);
    MasGetOr(p.exploracionSistemas, q.exploracionSistemas, d.exploracionSistemas);
    MasGetOr(p.ayudasDiagnosticas, q.ayudasDiagnosticas, d.ayudasDiagnosticas);
    MasGetOr(p.analisisObjetivoDiagnostico, q.analisisObjetivoDiagnostico, d.analisisObjetivoDiagnostico);
    MasGetOr(p.impresionDiagnostica, q.impresionDiagnostica, d.impresionDiagnostica);
    MasGetOr(p.diagnosticos, q.diagnosticos, d.diagnosticos);
    MasGetOr(p.indicacionesMedicas, q.indicacionesMedicas, d.indicacionesMedicas);
    MasGetOr(p.recomendacionesEntrenamiento, q.recomendacionesEntrenamiento, d.recomendacionesEntrenamiento);
    MasGetOr(p.planSeguimiento, q.planSeguimiento, d.planSeguimiento);
    MasGetOr(p.remisionesEspecialistas, q.remisionesEspecialistas, d.remisionesEspecialistas);
  }

  /** A patch that sets only the review of systems changes only that field. */
  lemma AplicarSoloRevision(d: FormData, r: Sistemas8)
    ensures Aplicar(d, Vacio.(revisionSistemas := Some(r))) == d.(revisionSistemas := r)
  {
  }

  /** A patch that sets only the physical examination changes only that field. */
  lemma AplicarSoloExploracion(d: FormData, r: Sistemas8)
    ensures Aplicar(d, Vacio.(exploracionSistemas := Some(r))) == d.(exploracionSistemas := r)
  {
  }

  // ---------------------------------------------------------------- validators

  /** Step 1 (evaluation): reason for consultation and current illness given. */
  predicate Paso1(d: FormData) {
    !IsBlank(d.motivoConsulta) && !IsBlank(d.enfermedadActual)
  }

  /** The filter test: the allergy's subtypes ask for details and its
      details are blank. */
  predicate Incompleta(a: Alergia) {
    NecesitaDetalles(a.subtipos) && IsBlank(a.detalles)
  }

  /** The allergies still lacking the details their subtypes ask for, in order. */
  function AlergiasIncompletas(al: seq<Alergia>): (l: seq<Alergia>)
    ensures |l| <= |al|
  {
    Filtrar(al, Incompleta)
  }

  /** Step 2 (medical history). */
  predicate Paso2(d: FormData) {
    (|d.antecedentesPersonales| > 0 || |d.antecedentesFamiliares| > 0)
    && (d.tomaMedicacion ==> !IsBlank(d.medicacionActual))
    && (d.tieneAlergias ==> |d.alergias| > 0)
    && |AlergiasIncompletas(d.alergias)| == 0
    && (d.lesionesDeportivas ==> !IsBlank(d.descripcionLesiones))
    && (d.cirugiasPrevias ==> !IsBlank(d.detalleCirugias))
  }

  /** The systems not yet evaluated, in list order. */
  function NoEvaluados(r: Sistemas8): (l: seq<Sistema>)
    ensures l == [] <==> forall k :: 0 <= k < |Sistemas| ==> r.Get(Sistemas[k]).estado != SinEvaluar
  {
    FiltrarVacio(Sistemas, SinEvaluarEn(r));
    Filtrar(Sistemas, SinEvaluarEn(r))
  }

  /** The filter test `!obj[s].estado`. */
  function SinEvaluarEn(r: Sistemas8): Sistema -> bool {
    s => r.Get(s).estado == SinEvaluar
  }

  /** The systems marked abnormal whose observations are blank. */
  function AnormalesSinObs(r: Sistemas8): (l: seq<Sistema>)
    ensures l == [] <==> forall k :: 0 <= k < |Sistemas| ==>
      !(r.Get(Sistemas[k]).estado == Anormal && IsBlank(r.Get(Sistemas[k]).observaciones))
  {
    var p := s => r.Get(s).estado == Anormal && IsBlank(r.Get(s).observaciones);
    FiltrarVacio(Sistemas, p);
    Filtrar(Sistemas, p)
  }

  /** The evaluated systems whose observations are blank, whatever their state. */
  function EvaluadosSinObs(r: Sistemas8): (l: seq<Sistema>)
    ensures l == [] <==> forall k :: 0 <= k < |Sistemas| ==>
      !(r.Get(Sistemas[k]).estado != SinEvaluar && IsBlank(r.Get(Sistemas[k]).observaciones))
  {
    var p := s => r.Get(s).estado != SinEvaluar && IsBlank(r.Get(s).observaciones);
    FiltrarVacio(Sistemas, p);
    Filtrar(Sistemas, p)
  }

  /** Step 3 (review of systems): the two filters come back empty. */
  predicate Paso3(d: FormData) {
    |NoEvaluados(d.revisionSistemas)| == 0 && |AnormalesSinObs(d.revisionSistemas)| == 0
  }

  /** A required number: not blank, and `parseFloat` reads a value above zero. */
  predicate PositivoValido(s: string) {
    !IsBlank(s) && ParseJsFloat(s).Some? && ParseJsFloat(s).value > 0.0
  }

  /** Step 4 (physical examination). */
  predicate Paso4(d: FormData) {
    PositivoValido(d.estatura) && PositivoValido(d.peso) && !IsBlank(d.presionArterial)
    && PositivoValido(d.frecuenciaCardiaca) && PositivoValido(d.frecuenciaRespiratoria)
    && PositivoValido(d.temperatura)
    && |NoEvaluados(d.exploracionSistemas)| == 0
    && |EvaluadosSinObs(d.exploracionSistemas)| == 0
  }

  /** Step 6 (diagnosis). */
  predicate Paso6(d: FormData) {
    !IsBlank(d.analisisObjetivoDiagnostico) && !IsBlank(d.impresionDiagnostica)
    && |d.diagnosticos| > 0
  }

  /** Step 7 (treatment plan). */
  predicate Paso7(d: FormData) {
    !IsBlank(d.indicacionesMedicas) && !IsBlank(d.planSeguimiento)
  }

  /** `validateStep(step)`: step 5 and any step outside 1..7 always pass. */
  predicate ValidarPaso(paso: int, d: FormData) {
    match paso
    case 1 => Paso1(d)
    case 2 => Paso2(d)
    case 3 => Paso3(d)
    case 4 => Paso4(d)
    case 6 => Paso6(d)
    case 7 => Paso7(d)
    case _ => true
  }

  /** Step 3 in terms of each system: every one evaluated, and every
      abnormal one with observations. */
  lemma Paso3Iff(d: FormData)
    ensures Paso3(d) <==> forall s: Sistema ::
      d.revisionSistemas.Get(s).estado != SinEvaluar &&
      (d.revisionSistemas.Get(s).estado == Anormal ==> !IsBlank(d.revisionSistemas.Get(s).observaciones))
  {
    var r := d.revisionSistemas;
    if Paso3(d) {
      forall s: Sistema ensures r.Get(s).estado != SinEvaluar &&
        (r.Get(s).estado == Anormal ==> !IsBlank(r.Get(s).observaciones))
      {
        var k := Indice(s);
      }
    }
  }

  /** The systems of step 4 in terms of each system: every one evaluated
      and every one with observations, normal ones included. */
  lemma Paso4SistemasIff(r: Sistemas8)
    ensures (|NoEvaluados(r)| == 0 && |EvaluadosSinObs(r)| == 0) <==>
      forall s: Sistema :: r.Get(s).estado != SinEvaluar && !IsBlank(r.Get(s).observaciones)
  {
    if |NoEvaluados(r)| == 0 && |EvaluadosSinObs(r)| == 0 {
      forall s: Sistema ensures r.Get(s).estado != SinEvaluar && !IsBlank(r.Get(s).observaciones) {
        var k := Indice(s);
      }
    }
  }

  /** Step 2's allergy filter comes back empty exactly when every allergy
      with a subtype mentioning "Otro" or "Especifique" has details; it is
      non-empty exactly when some such allergy has none. */
  lemma {:induction false} AlergiasCompletasIff(al: seq<Alergia>)
    ensures |AlergiasIncompletas(al)| == 0 <==>
      forall k :: 0 <= k < |al| && NecesitaDetalles(al[k].subtipos) ==> !IsBlank(al[k].detalles)
    ensures |AlergiasIncompletas(al)| > 0 <==>
      exists k, j :: 0 <= k < |al| && 0 <= j < |al[k].subtipos| &&
        MencionaOtro(al[k].subtipos[j]) && IsBlank(al[k].detalles)
  {
    FiltrarVacio(al, Incompleta);
  }

  /** With every system normal, nothing is left unevaluated and no abnormal
      system lacks observations. */
  lemma TodosNormalesSinFaltas()
    ensures NoEvaluados(TodosNormales) == [] && AnormalesSinObs(TodosNormales) == []
  {
    forall k | 0 <= k < |Sistemas| ensures TodosNormales.Get(Sistemas[k]) == EvalNormal {
    }
  }

  /** The initial data passes step 3 as it stands: every system starts normal. */
  lemma InicialPasaPaso3()
    ensures Paso3(Inicial())
  {
    TodosNormalesSinFaltas();
    assert Inicial().revisionSistemas == TodosNormales;
  }

  /** The initial data fails step 1 and step 4: nothing typed, no height. */
  lemma InicialNoPasa()
    ensures !ValidarPaso(1, Inicial()) && !ValidarPaso(4, Inicial())
  {
  }

  /** A system of the examination without observations blocks step 4,
      even one marked normal. */
  lemma ExploracionSinObs(d: FormData, s: Sistema)
    requires IsBlank(d.exploracionSistemas.Get(s).observaciones)
    ensures !Paso4(d)
  {
    Paso4SistemasIff(d.exploracionSistemas);
  }

  // ---------------------------------------------------------------- the wizard

  /** `handleNext`: one step forward, only when the current step validates
      and it is not the last one. */
  function Siguiente(paso: int, d: FormData): (r: int) {
    if ValidarPaso(paso, d) && paso < TotalPasos then paso + 1 else paso
  }

  /** `handlePrevious`: one step back, never below the first. */
  function Anterior(paso: int): (r: int) {
    if paso > 1 then paso - 1 else paso
  }

  /** The counter stays in 1..7 and moves by at most one; forward exactly
      when the step validates and is not the last. */
  lemma PasosAcotados(paso: int, d: FormData)
    requires 1 <= paso <= TotalPasos
    ensures 1 <= Siguiente(paso, d) <= TotalPasos && 1 <= Anterior(paso) <= TotalPasos
    ensures Siguiente(paso, d) == paso + 1 <==> ValidarPaso(paso, d) && paso < TotalPasos
    ensures Siguiente(paso, d) != paso + 1 ==> Siguiente(paso, d) == paso
    ensures Anterior(paso) == paso - 1 <==> paso > 1
  {
  }

  /** A run of the wizard: forward, back, or a patch from the current step. */
  datatype Evento = Next | Previous | Update(p: Parche)

  /** The state after a run of events. */
  function Ejecutar(paso: int, d: FormData, ev: seq<Evento>): (r: (int, FormData))
    decreases |ev|
  {
    if ev == [] then (paso, d)
    else
      match ev[0]
      case Next => Ejecutar(Siguiente(paso, d), d, ev[1..])
      case Previous => Ejecutar(Anterior(paso), d, ev[1..])
      case Update(p) => Ejecutar(paso, Aplicar(d, p), ev[1..])
  }

  /** No run takes the counter out of 1..7, and reaching a later step means
      passing through every step before it. */
  lemma {:induction false} EjecutarAcotado(paso: int, d: FormData, ev: seq<Evento>)
    requires 1 <= paso <= TotalPasos
    ensures 1 <= Ejecutar(paso, d, ev).0 <= TotalPasos
    ensures Ejecutar(paso, d, ev).0 <= paso + |ev|
    decreases |ev|
  {
    if ev != [] {
      match ev[0]
      case Next => EjecutarAcotado(Siguiente(paso, d), d, ev[1..]);
      case Previous => EjecutarAcotado(Anterior(paso), d, ev[1..]);
      case Update(p) => EjecutarAcotado(paso, Aplicar(d, p), ev[1..]);
    }
  }

  /** From step 1, reaching step 7 takes at least six moves forward. */
  lemma AlcanzarUltimo(d: FormData, ev: seq<Evento>)
    requires Ejecutar(1, d, ev).0 == TotalPasos
    ensures |ev| >= TotalPasos - 1
  {
    EjecutarAcotado(1, d, ev);
  }

  /** The wizard's state: the current step and the data typed so far. */
  class Formulario {
    var pasoActual: int
    var datos: FormData

    predicate Valid()
      reads this
    {
      1 <= pasoActual <= TotalPasos
    }

    /** `useState(1)` and `getInitialFormData()` (restoring a saved draft
        from the browser's storage is not modelled). */
    constructor ()
      ensures Valid() && pasoActual == 1 && datos == Inicial()
    {
      pasoActual := 1;
      datos := Inicial();
    }

    /** `updateFormData(patch)`: `{ ...prev, ...patch }`. */
    method UpdateFormData(p: Parche)
      modifies this
      ensures datos == Aplicar(old(datos), p)
      ensures pasoActual == old(pasoActual)
    {
      datos := Aplicar(datos, p);
    }

    /** `handleNext`. */
    method HandleNext()
      requires Valid()
      modifies this
      ensures Valid()
      ensures pasoActual == Siguiente(old(pasoActual), datos)
      ensures datos == old(datos)
    {
      if !ValidarPaso(pasoActual, datos) {
        return;
      }
      if pasoActual < TotalPasos {
        pasoActual := pasoActual + 1;
      }
    }

    /** `handlePrevious`. */
    method HandlePrevious()
      requires Valid()
      modifies this
      ensures Valid()
      ensures pasoActual == Anterior(old(pasoActual))
      ensures datos == old(datos)
    {
      if pasoActual > 1 {
        pasoActual := pasoActual - 1;
      }
    }
  }
}

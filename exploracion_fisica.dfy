/**
 * Step 4 of the wizard, the physical examination: the alerts shown under
 * each vital sign, the body-mass index and its category, the per-system
 * normal/abnormal radios, and the observation templates a physician can
 * add, apply and delete. Readings are exact reals; the alert texts are
 * named by the finding they report.
 */
module ExploracionFisica {
  import opened Wrappers
  import opened Text
  import opened Numeros
  import opened Listas
  import opened HistoriaClinica

  /** `AlertLevel`. */
  datatype Nivel = Normal | Warning | Danger | Critical

  /** The finding each alert message reports. */
  datatype Hallazgo =
    | Bradicardia | TaquicardiaSevera | Taquicardia | FrecuenciaCardiacaNormal
    | CrisisHipertension | HipertensionNivel2 | HipertensionNivel1 | PresionElevada
    | Hipotension | PresionNormal
    | TaquipneaSevera | Taquipnea | Bradipnea | FrecuenciaRespiratoriaNormal
    | FiebreAlta | Fiebre | Febricula | Hipotermia | TemperaturaNormal
    | SaturacionCritica | SaturacionBaja | SaturacionLevementeBaja | SaturacionNormal

  /** `AlertInfo`. */
  datatype Alerta = Alerta(nivel: Nivel, mensaje: Hallazgo)

  /** `parseFloat(s)` unless it is NaN or `s` is empty: the value an alert is computed from. */
  function Lectura(s: string): (r: Option<real>) {
    if ParseJsFloat(s).None? || s == "" then None else ParseJsFloat(s)
  }

  /** An alert is shown exactly when the text reads as a number. */
  lemma LecturaIff(s: string)
    ensures Lectura(s) == ParseJsFloat(s)
  {
    if s == "" {
      ParseJsFloatNaN(s);
    }
  }

  // ---------------------------------------------------------------- heart rate

  function ClasificarFC(v: real): (a: Alerta) {
    if v < 40.0 then Alerta(Warning, Bradicardia)
    else if v > 120.0 then Alerta(Critical, TaquicardiaSevera)
    else if v > 100.0 then Alerta(Danger, Taquicardia)
    else Alerta(Nivel.Normal, FrecuenciaCardiacaNormal)
  }

  /** `evaluarFC`. */
  function EvaluarFC(fc: string): (r: Option<Alerta>) {
    match Lectura(fc)
    case None => None
    case Some(v) => Some(ClasificarFC(v))
  }

  /** The heart-rate bands: below 40, 40 to 100, above 100 up to 120, above 120. */
  lemma ClasificarFCBandas(v: real)
    ensures ClasificarFC(v).nivel == Warning <==> v < 40.0
    ensures ClasificarFC(v).nivel == Nivel.Normal <==> 40.0 <= v <= 100.0
    ensures ClasificarFC(v).nivel == Danger <==> 100.0 < v <= 120.0
    ensures ClasificarFC(v).nivel == Critical <==> v > 120.0
  {
  }

  // ---------------------------------------------------------- blood pressure

  /**
   * The blood-pressure chain as the component writes it: crisis above
   * 180/120, then stage 2 from 140/90, stage 1 for a systolic from 130 to
   * 139 or a diastolic above 80 up to 89, elevated for a systolic from 120
   * to 129 with a diastolic up to 80, low below 80/60, and normal for
   * whatever is left, including the readings that fall between those
   * closed integer ranges.
   */
  function ClasificarTAEscrita(sis: real, dia: real): (a: Alerta) {
    if sis > 180.0 || dia > 120.0 then Alerta(Critical, CrisisHipertension)
    else if sis >= 140.0 || dia >= 90.0 then Alerta(Danger, HipertensionNivel2)
    else if (130.0 <= sis <= 139.0) || (80.0 < dia <= 89.0) then Alerta(Danger, HipertensionNivel1)
    else if 120.0 <= sis <= 129.0 && dia <= 80.0 then Alerta(Warning, PresionElevada)
    else if sis < 80.0 || dia < 60.0 then Alerta(Warning, Hipotension)
    else Alerta(Nivel.Normal, PresionNormal)
  }

  /** A decimal reading just under a stage-2 or stage-1 threshold is called
      normal: 139/70 is stage 1 but 139.5/70 is normal, 129/70 is elevated
      but 129.5/70 is normal, and 110/89 is stage 1 but 110/89.5 is normal. */
  lemma ClasificarTAEscritaHuecos()
    ensures ClasificarTAEscrita(139.0, 70.0) == Alerta(Danger, HipertensionNivel1)
    ensures ClasificarTAEscrita(139.5, 70.0) == Alerta(Nivel.Normal, PresionNormal)
    ensures ClasificarTAEscrita(129.0, 70.0) == Alerta(Warning, PresionElevada)
    ensures ClasificarTAEscrita(129.5, 70.0) == Alerta(Nivel.Normal, PresionNormal)
    ensures ClasificarTAEscrita(110.0, 89.0) == Alerta(Danger, HipertensionNivel1)
    ensures ClasificarTAEscrita(110.0, 89.5) == Alerta(Nivel.Normal, PresionNormal)
  {
  }

  /** The two chains agree on whole-number readings. */
  lemma ClasificarTAEnteros(sis: int, dia: int)
    ensures ClasificarTA(sis as real, dia as real) == ClasificarTAEscrita(sis as real, dia as real)
  {
  }

  /**
   * The blood-pressure chain with its ranges closed up: stage 1 from a
   * systolic of 130 or a diastolic above 80, elevated from a systolic of 120
   * with a diastolic up to 80, each below the thresholds already tested.
   */
  function ClasificarTA(sis: real, dia: real): (a: Alerta) {
    if sis > 180.0 || dia > 120.0 then Alerta(Critical, CrisisHipertension)
    else if sis >= 140.0 || dia >= 90.0 then Alerta(Danger, HipertensionNivel2)
    else if sis >= 130.0 || dia > 80.0 then Alerta(Danger, HipertensionNivel1)
    else if sis >= 120.0 then Alerta(Warning, PresionElevada)
    else if sis < 80.0 || dia < 60.0 then Alerta(Warning, Hipotension)
    else Alerta(Nivel.Normal, PresionNormal)
  }

  /** Above the low range, a higher systolic or diastolic is never less
      serious, and a reading is normal exactly inside 80..120 / 60..80. */
  lemma ClasificarTAMonotona(sis: real, dia: real, sis2: real, dia2: real)
    requires 80.0 <= sis <= sis2 && 60.0 <= dia <= dia2
    ensures Gravedad(ClasificarTA(sis, dia).nivel) <= Gravedad(ClasificarTA(sis2, dia2).nivel)
    ensures ClasificarTA(sis, dia).nivel == Nivel.Normal <==> sis < 120.0 && dia <= 80.0
  {
  }

  /** `evaluarTA`: nothing for an empty text or one without '/'; otherwise the
      text before the first '/' is the systolic and the piece after it the
      diastolic, and both must read as numbers. */
  function EvaluarTA(ta: string): (r: Option<Alerta>) {
    if ta == "" || '/' !in ta then None
    else
      var partes := Split(ta, '/');
      var sis := ParseJsFloat(partes[0]);
      var dia := ParseJsFloat(partes[1]);
      if sis.None? || dia.None? then None
      else Some(ClasificarTAEscrita(sis.value, dia.value))
  }

  /** A reading gets an alert exactly when it has a '/' and both sides read
      as numbers; it is then the classification of those two numbers. */
  lemma EvaluarTAIff(a: string, b: string)
    requires '/' !in a
    ensures EvaluarTA(a + "/" + b).Some? <==> ParseJsFloat(a).Some? && ParseJsFloat(SplitPrimero(b)).Some?
    ensures EvaluarTA(a + "/" + b).Some? ==>
      EvaluarTA(a + "/" + b) == Some(ClasificarTAEscrita(ParseJsFloat(a).value, ParseJsFloat(SplitPrimero(b)).value))
  {
    var ta := a + "/" + b;
    assert ta == a + ['/'] + b;
    assert ta[|a|] == '/';
    SplitTras(a, b, '/');
    var partes := Split(ta, '/');
    assert partes[0] == a && partes[1] == SplitPrimero(b);
  }

  /** The piece of `b` before its first '/'. */
  function SplitPrimero(b: string): string {
    Split(b, '/')[0]
  }

  /** A text without '/' gets no alert. */
  lemma EvaluarTASinBarra(ta: string)
    requires '/' !in ta
    ensures EvaluarTA(ta) == None
  {
  }

  /** A crisis exactly above 180 systolic or 120 diastolic; otherwise stage 2
      exactly from 140 or 90, ahead of every lower category. */
  lemma ClasificarTAPrioridad(sis: real, dia: real)
    ensures ClasificarTAEscrita(sis, dia).nivel == Critical <==> sis > 180.0 || dia > 120.0
    ensures ClasificarTAEscrita(sis, dia).mensaje == HipertensionNivel2 <==>
      !(sis > 180.0 || dia > 120.0) && (sis >= 140.0 || dia >= 90.0)
  {
  }

  /** On whole-number readings the chain as written leaves no gap: from a
      systolic of 130 or a diastolic above 80 the alert is at least stage 1,
      and "low" is reported only under 120/80. */
  lemma ClasificarTAPrioridadEnteros(sis: int, dia: int)
    ensures (sis >= 130 || dia > 80) ==> Gravedad(ClasificarTAEscrita(sis as real, dia as real).nivel) >= 2
    ensures ClasificarTAEscrita(sis as real, dia as real).mensaje == Hipotension <==>
      sis < 120 && dia <= 80 && (sis < 80 || dia < 60)
  {
  }

  /** 120/80 is "elevated", 80/50 is low, 110/70 normal. */
  lemma ClasificarTAEjemplos()
    ensures ClasificarTAEscrita(120.0, 80.0) == Alerta(Warning, PresionElevada)
    ensures ClasificarTAEscrita(80.0, 50.0) == Alerta(Warning, Hipotension)
    ensures ClasificarTAEscrita(110.0, 70.0) == Alerta(Nivel.Normal, PresionNormal)
  {
  }

  /** How serious a level is, from normal (0) to critical (3). */
  function Gravedad(n: Nivel): (g: nat)
    ensures g <= 3
  {
    match n
    case Warning => 1
    case Danger => 2
    case Critical => 3
    case _ => 0
  }

  // ---------------------------------------------------------- respiratory rate

  function ClasificarFR(v: real): (a: Alerta) {
    if v > 30.0 then Alerta(Critical, TaquipneaSevera)
    else if v > 20.0 then Alerta(Danger, Taquipnea)
    else if v < 12.0 then Alerta(Warning, Bradipnea)
    else Alerta(Nivel.Normal, FrecuenciaRespiratoriaNormal)
  }

  /** `evaluarFR`. */
  function EvaluarFR(fr: string): (r: Option<Alerta>) {
    match Lectura(fr)
    case None => None
    case Some(v) => Some(ClasificarFR(v))
  }

  /** The respiratory bands: below 12, 12 to 20, above 20 up to 30, above 30. */
  lemma ClasificarFRBandas(v: real)
    ensures ClasificarFR(v).nivel == Warning <==> v < 12.0
    ensures ClasificarFR(v).nivel == Nivel.Normal <==> 12.0 <= v <= 20.0
    ensures ClasificarFR(v).nivel == Danger <==> 20.0 < v <= 30.0
    ensures ClasificarFR(v).nivel == Critical <==> v > 30.0
  {
  }

  // ---------------------------------------------------------------- temperature

  function ClasificarTemperatura(v: real): (a: Alerta) {
    if v > 39.0 then Alerta(Critical, FiebreAlta)
    else if v > 38.0 then Alerta(Danger, Fiebre)
    else if 37.5 <= v <= 38.0 then Alerta(Warning, Febricula)
    else if v < 36.0 then Alerta(Warning, Hipotermia)
    else Alerta(Nivel.Normal, TemperaturaNormal)
  }

  /** `evaluarTemperatura`. */
  function EvaluarTemperatura(t: string): (r: Option<Alerta>) {
    match Lectura(t)
    case None => None
    case Some(v) => Some(ClasificarTemperatura(v))
  }

  /** The temperature bands: below 36 and 37.5 to 38 warn, 36 up to 37.5 is
      normal, above 38 up to 39 is fever, above 39 high fever. */
  lemma ClasificarTemperaturaBandas(v: real)
    ensures ClasificarTemperatura(v).nivel == Nivel.Normal <==> 36.0 <= v < 37.5
    ensures ClasificarTemperatura(v).nivel == Warning <==> v < 36.0 || 37.5 <= v <= 38.0
    ensures ClasificarTemperatura(v).nivel == Danger <==> 38.0 < v <= 39.0
    ensures ClasificarTemperatura(v).nivel == Critical <==> v > 39.0
  {
  }

  // ---------------------------------------------------------------- saturation

  function ClasificarSaturacion(v: real): (a: Alerta) {
    if v < 90.0 then Alerta(Critical, SaturacionCritica)
    else if v < 95.0 then Alerta(Danger, SaturacionBaja)
    else if v < 97.0 then Alerta(Warning, SaturacionLevementeBaja)
    else Alerta(Nivel.Normal, SaturacionNormal)
  }

  /** `evaluarSaturacion`. */
  function EvaluarSaturacion(s: string): (r: Option<Alerta>) {
    match Lectura(s)
    case None => None
    case Some(v) => Some(ClasificarSaturacion(v))
  }

  /** Lower saturation is never less serious. */
  lemma ClasificarSaturacionMonotona(v: real, w: real)
    requires v <= w
    ensures Gravedad(ClasificarSaturacion(w).nivel) <= Gravedad(ClasificarSaturacion(v).nivel)
  {
  }

  /** The saturation bands: below 90, 90 up to 95, 95 up to 97, 97 and above. */
  lemma ClasificarSaturacionBandas(v: real)
    ensures ClasificarSaturacion(v).nivel == Critical <==> v < 90.0
    ensures ClasificarSaturacion(v).nivel == Danger <==> 90.0 <= v < 95.0
    ensures ClasificarSaturacion(v).nivel == Warning <==> 95.0 <= v < 97.0
    ensures ClasificarSaturacion(v).nivel == Nivel.Normal <==> v >= 97.0
  {
  }

  // ---------------------------------------------------------------- body-mass index

  /** The body-mass index of the effect: weight over the square of the height
      in metres, only when both read as numbers above zero. */
  function CalcularImc(peso: string, estatura: string): (r: Option<real>)
    ensures r.Some? ==> r.value > 0.0
  {
    var p := ParseJsFloat(peso);
    var e := ParseJsFloat(estatura);
    if p.Some? && e.Some? && p.value > 0.0 && e.value / 100.0 > 0.0 then
      Some(Imc(p.value, e.value / 100.0))
    else None
  }

  /** Weight in kilograms over the square of the height in metres. */
  function Imc(peso: real, metros: real): (r: real)
    requires peso > 0.0 && metros > 0.0
    ensures r > 0.0
  {
    var cuadrado := metros * metros;
    assert cuadrado > 0.0 by { ProductoPositivo(metros, metros); }
    CocientePositivo(peso, cuadrado);
    peso / cuadrado
  }

  lemma ProductoPositivo(x: real, y: real)
    requires x > 0.0 && y > 0.0
    ensures x * y > 0.0
  {
  }

  lemma CocientePositivo(x: real, y: real)
    requires x > 0.0 && y > 0.0
    ensures x / y > 0.0
  {
    assert (x / y) * y == x;
  }

  /** An index is produced exactly when weight and height are positive numbers. */
  lemma CalcularImcIff(peso: string, estatura: string)
    ensures CalcularImc(peso, estatura).Some? <==>
      ParseJsFloat(peso).Some? && ParseJsFloat(peso).value > 0.0 &&
      ParseJsFloat(estatura).Some? && ParseJsFloat(estatura).value > 0.0
  {
  }

  /** `x.toFixed(2)` read back by `parseFloat`: the nearest hundredth, ties upwards. */
  function Redondear2(x: real): (r: real)
    ensures x - 0.005 < r <= x + 0.005
  {
    ((x * 100.0 + 0.5).Floor as real) / 100.0
  }

  /** The index as the field shows it, two decimals. */
  function ImcMostrado(peso: string, estatura: string): (r: Option<real>) {
    match CalcularImc(peso, estatura)
    case None => None
    case Some(v) => Some(Redondear2(v))
  }

  datatype CategoriaImc = BajoPeso | PesoNormal | Sobrepeso | Obesidad

  function Rango(c: CategoriaImc): (n: nat) {
    match c
    case BajoPeso => 0
    case PesoNormal => 1
    case Sobrepeso => 2
    case Obesidad => 3
  }

  /** `getImcCategoria`. */
  function ImcCategoria(v: real): (c: CategoriaImc) {
    if v < 18.5 then BajoPeso
    else if v < 25.0 then PesoNormal
    else if v < 30.0 then Sobrepeso
    else Obesidad
  }

  /** A larger index never falls in a lighter category. */
  lemma ImcCategoriaMonotona(v: real, w: real)
    requires v <= w
    ensures Rango(ImcCategoria(v)) <= Rango(ImcCategoria(w))
  {
  }

  /** The categories are the bands below 18.5, 18.5 up to 25, 25 up to 30, and 30 on. */
  lemma ImcCategoriaBandas(v: real)
    ensures ImcCategoria(v) == BajoPeso <==> v < 18.5
    ensures ImcCategoria(v) == PesoNormal <==> 18.5 <= v < 25.0
    ensures ImcCategoria(v) == Sobrepeso <==> 25.0 <= v < 30.0
    ensures ImcCategoria(v) == Obesidad <==> v >= 30.0
  {
  }

  /** `imc ? getImcCategoria(parseFloat(imc)) : null`: the category of the
      rounded index. */
  function CategoriaMostrada(peso: string, estatura: string): (r: Option<CategoriaImc>) {
    match ImcMostrado(peso, estatura)
    case None => None
    case Some(v) => Some(ImcCategoria(v))
  }

  /** The category is taken after rounding: an index of 18.496 shows as 18.50
      and counts as normal weight, although the index itself is under 18.5. */
  lemma RedondeoCambiaCategoria()
    ensures ImcCategoria(18.496) == BajoPeso
    ensures Redondear2(18.496) == 18.5
    ensures ImcCategoria(Redondear2(18.496)) == PesoNormal
  {
    assert (18.496 * 100.0 + 0.5).Floor == 1850;
  }

  // ---------------------------------------------------------------- systems and templates

  /** The "normal" and "anormal" radios of a system: either one sets the
      state and empties the observations. */
  function MarcarExploracion(d: FormData, s: Sistema, estado: Estado): (p: Parche)
    requires estado == Estado.Normal || estado == Anormal
  {
    var r := d.exploracionSistemas;
    Vacio.(exploracionSistemas := Some(r.Set(s, EvalSistema(estado, ""))))
  }

  /** The observations textarea, and `aplicarPlantilla`: that system's text replaced. */
  function EscribirObservaciones(d: FormData, s: Sistema, texto: string): (p: Parche) {
    var r := d.exploracionSistemas;
    Vacio.(exploracionSistemas := Some(r.Set(s, r.Get(s).(observaciones := texto))))
  }

  /** Marking a system here empties its observations even when it is marked
      abnormal, changes no other system or field, and so leaves step 4
      blocked until observations are typed. */
  lemma MarcarExploracionEfecto(d: FormData, s: Sistema, estado: Estado)
    requires estado == Estado.Normal || estado == Anormal
    ensures var d2 := Aplicar(d, MarcarExploracion(d, s, estado));
      d2 == d.(exploracionSistemas := d2.exploracionSistemas)
      && d2.exploracionSistemas.Get(s) == EvalSistema(estado, "")
      && (forall t :: t != s ==> d2.exploracionSistemas.Get(t) == d.exploracionSistemas.Get(t))
      && !ValidarPaso(4, d2)
  {
    var d2 := Aplicar(d, MarcarExploracion(d, s, estado));
    AplicarSoloExploracion(d, d.exploracionSistemas.Set(s, EvalSistema(estado, "")));
    assert IsBlank(d2.exploracionSistemas.Get(s).observaciones);
    ExploracionSinObs(d2, s);
  }

  /** Typing (or applying a template) changes only that system's text. */
  lemma EscribirObservacionesEfecto(d: FormData, s: Sistema, texto: string)
    ensures var d2 := Aplicar(d, EscribirObservaciones(d, s, texto));
      d2 == d.(exploracionSistemas := d2.exploracionSistemas)
      && d2.exploracionSistemas.Get(s) == EvalSistema(d.exploracionSistemas.Get(s).estado, texto)
      && forall t :: t != s ==> d2.exploracionSistemas.Get(t) == d.exploracionSistemas.Get(t)
  {
    var r := d.exploracionSistemas;
    AplicarSoloExploracion(d, r.Set(s, r.Get(s).(observaciones := texto)));
  }

  /** The component's own state: the index field, and per system whether the
      template list and the new-template box are open, the template being
      typed and the templates saved so far. */
  class Plantillas {
    var imc: Option<real>
    var showTemplates: map<Sistema, bool>
    var showAddTemplate: map<Sistema, bool>
    var newTemplate: map<Sistema, string>
    var customTemplates: map<Sistema, seq<string>>

    /** Every system has an entry in every table. */
    predicate Valid()
      reads this
    {
      (forall s: Sistema :: s in showTemplates) && (forall s: Sistema :: s in showAddTemplate)
      && (forall s: Sistema :: s in newTemplate) && (forall s: Sistema :: s in customTemplates)
    }

    /** The initial `useState` values: no index, everything closed and empty. */
    constructor ()
      ensures Valid() && imc == None
      ensures forall s: Sistema :: !showTemplates[s] && !showAddTemplate[s]
      ensures forall s: Sistema :: newTemplate[s] == "" && customTemplates[s] == []
    {
      imc := None;
      showTemplates := map s: Sistema | s in Sistemas :: false;
      showAddTemplate := map s: Sistema | s in Sistemas :: false;
      newTemplate := map s: Sistema | s in Sistemas :: "";
      customTemplates := map s: Sistema | s in Sistemas :: [];
      SistemasCompletos();
    }

    /** The index effect, run when weight or height change. */
    method ActualizarImc(d: FormData)
      modifies this
      ensures imc == ImcMostrado(d.peso, d.estatura)
      ensures showTemplates == old(showTemplates) && showAddTemplate == old(showAddTemplate)
      ensures newTemplate == old(newTemplate) && customTemplates == old(customTemplates)
    {
      imc := ImcMostrado(d.peso, d.estatura);
    }

    /** `toggleTemplates(s)`: the list flips open or closed, and the
        new-template box of that system closes. */
    method ToggleTemplates(s: Sistema)
      requires Valid()
      modifies this
      ensures Valid()
      ensures showTemplates == old(showTemplates)[s := !old(showTemplates)[s]]
      ensures showAddTemplate == old(showAddTemplate)[s := false]
      ensures imc == old(imc) && newTemplate == old(newTemplate) && customTemplates == old(customTemplates)
    {
      showTemplates := showTemplates[s := !showTemplates[s]];
      if showAddTemplate[s] {
        showAddTemplate := showAddTemplate[s := false];
      } else {
        assert showAddTemplate == showAddTemplate[s := false];
      }
    }

    /** `toggleAddTemplate(s)`. */
    method ToggleAddTemplate(s: Sistema)
      requires Valid()
      modifies this
      ensures Valid()
      ensures showAddTemplate == old(showAddTemplate)[s := !old(showAddTemplate)[s]]
      ensures imc == old(imc) && showTemplates == old(showTemplates)
      ensures newTemplate == old(newTemplate) && customTemplates == old(customTemplates)
    {
      showAddTemplate := showAddTemplate[s := !showAddTemplate[s]];
    }

    /** Typing in the new-template box. */
    method EscribirPlantilla(s: Sistema, texto: string)
      requires Valid()
      modifies this
      ensures Valid()
      ensures newTemplate == old(newTemplate)[s := texto]
      ensures imc == old(imc) && showTemplates == old(showTemplates)
      ensures showAddTemplate == old(showAddTemplate) && customTemplates == old(customTemplates)
    {
      newTemplate := newTemplate[s := texto];
    }

    /** `guardarNuevaPlantilla(s)`: the trimmed draft is appended to that
        system's templates, its box cleared and closed; a blank draft
        changes nothing. */
    method GuardarNuevaPlantilla(s: Sistema)
      requires Valid()
      modifies this
      ensures Valid()
      ensures var texto := JsTrim(old(newTemplate)[s]);
        if texto == "" then
          customTemplates == old(customTemplates) && newTemplate == old(newTemplate)
          && showAddTemplate == old(showAddTemplate)
        else
          customTemplates == old(customTemplates)[s := old(customTemplates)[s] + [texto]]
          && newTemplate == old(newTemplate)[s := ""]
          && showAddTemplate == old(showAddTemplate)[s := false]
      ensures imc == old(imc) && showTemplates == old(showTemplates)
    {
      var texto := JsTrim(newTemplate[s]);
      if texto != "" {
        customTemplates := customTemplates[s := customTemplates[s] + [texto]];
        newTemplate := newTemplate[s := ""];
        showAddTemplate := showAddTemplate[s := false];
      }
    }

    /** `eliminarPlantillaPersonalizada(s, i)`: template `i` of that system removed. */
    method EliminarPlantillaPersonalizada(s: Sistema, i: int)
      requires Valid()
      modifies this
      ensures Valid()
      ensures customTemplates == old(customTemplates)[s := QuitarIndice(old(customTemplates)[s], i)]
      ensures imc == old(imc) && showTemplates == old(showTemplates)
      ensures showAddTemplate == old(showAddTemplate) && newTemplate == old(newTemplate)
    {
      customTemplates := customTemplates[s := QuitarIndice(customTemplates[s], i)];
    }

    /** `aplicarPlantilla(s, texto)`: the text becomes that system's
        observations and its template list closes. */
    method AplicarPlantilla(s: Sistema, texto: string, form: Formulario)
      requires Valid()
      modifies this, form
      ensures Valid()
      ensures form.datos == Aplicar(old(form.datos), EscribirObservaciones(old(form.datos), s, texto))
      ensures form.pasoActual == old(form.pasoActual)
      ensures showTemplates == old(showTemplates)[s := false]
      ensures imc == old(imc) && showAddTemplate == old(showAddTemplate)
      ensures newTemplate == old(newTemplate) && customTemplates == old(customTemplates)
    {
      form.UpdateFormData(EscribirObservaciones(form.datos, s, texto));
      showTemplates := showTemplates[s := false];
    }
  }

  /** Saving keeps only the saved system's list changed, and a saved template
      never starts or ends with white space. */
  lemma GuardarPlantillaEfecto(custom: map<Sistema, seq<string>>, s: Sistema, t: Sistema, borrador: string)
    requires s in custom && t in custom && t != s
    requires JsTrim(borrador) != ""
    ensures var nuevo := custom[s := custom[s] + [JsTrim(borrador)]];
      nuevo[t] == custom[t] && |nuevo[s]| == |custom[s]| + 1
      && !IsJsSpace(nuevo[s][|custom[s]|][0])
      && !IsJsSpace(nuevo[s][|custom[s]|][|JsTrim(borrador)| - 1])
  {
  }
}

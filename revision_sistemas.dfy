/**
 * Step 3 of the wizard, the review of systems: marking each of the eight
 * systems normal or abnormal, typing its observations, the check made
 * before moving on, and the "systems evaluated" counter.
 */
module RevisionSistemas {
  import opened Wrappers
  import opened Text
  import opened Listas
  import opened HistoriaClinica

  /** The two states the radio buttons offer. */
  predicate EsEstadoElegible(e: Estado) {
    e == Normal || e == Anormal
  }

  /** `handleEstadoChange(sistema, estado)`: the system gets the new state;
      choosing normal clears its observations, choosing abnormal keeps them. */
  function HandleEstadoChange(d: FormData, s: Sistema, estado: Estado): (p: Parche)
    requires EsEstadoElegible(estado)
  {
    var r := d.revisionSistemas;
    var obs := if estado == Normal then "" else r.Get(s).observaciones;
    Vacio.(revisionSistemas := Some(r.Set(s, EvalSistema(estado, obs))))
  }

  /** `handleObservacionesChange(sistema, texto)`: only that system's text changes. */
  function HandleObservacionesChange(d: FormData, s: Sistema, observaciones: string): (p: Parche) {
    var r := d.revisionSistemas;
    Vacio.(revisionSistemas := Some(r.Set(s, r.Get(s).(observaciones := observaciones))))
  }

  /** After a state change: the system holds the chosen state, normal has no
      observations, abnormal keeps the old ones, and nothing else in the form
      moves. */
  lemma EstadoChangeEfecto(d: FormData, s: Sistema, estado: Estado)
    requires EsEstadoElegible(estado)
    ensures var d2 := Aplicar(d, HandleEstadoChange(d, s, estado));
      d2 == d.(revisionSistemas := d2.revisionSistemas)
      && d2.revisionSistemas.Get(s).estado == estado
      && (estado == Normal ==> d2.revisionSistemas.Get(s).observaciones == "")
      && (estado == Anormal ==>
            d2.revisionSistemas.Get(s).observaciones == d.revisionSistemas.Get(s).observaciones)
      && forall t :: t != s ==> d2.revisionSistemas.Get(t) == d.revisionSistemas.Get(t)
  {
    var r := d.revisionSistemas;
    var obs := if estado == Normal then "" else r.Get(s).observaciones;
    AplicarSoloRevision(d, r.Set(s, EvalSistema(estado, obs)));
  }

  /** After typing observations: that system keeps its state and holds the
      new text, every other system and field is unchanged. */
  lemma ObservacionesChangeEfecto(d: FormData, s: Sistema, observaciones: string)
    ensures var d2 := Aplicar(d, HandleObservacionesChange(d, s, observaciones));
      d2 == d.(revisionSistemas := d2.revisionSistemas)
      && d2.revisionSistemas.Get(s) == EvalSistema(d.revisionSistemas.Get(s).estado, observaciones)
      && forall t :: t != s ==> d2.revisionSistemas.Get(t) == d.revisionSistemas.Get(t)
  {
    var r := d.revisionSistemas;
    AplicarSoloRevision(d, r.Set(s, r.Get(s).(observaciones := observaciones)));
  }

  /** Choosing a state twice is choosing it once. */
  lemma EstadoChangeIdempotente(d: FormData, s: Sistema, estado: Estado)
    requires EsEstadoElegible(estado)
    ensures var d2 := Aplicar(d, HandleEstadoChange(d, s, estado));
      Aplicar(d2, HandleEstadoChange(d2, s, estado)) == d2
  {
    var d2 := Aplicar(d, HandleEstadoChange(d, s, estado));
    EstadoChangeEfecto(d, s, estado);
    EstadoChangeEfecto(d2, s, estado);
    var d3 := Aplicar(d2, HandleEstadoChange(d2, s, estado));
    Sistemas8Ext(d3.revisionSistemas, d2.revisionSistemas);
  }

  /** What the step's own "next" button decides. */
  datatype Avance =
    | Avanza
    | FaltanEvaluar(faltan: seq<Sistema>)
    | FaltanObservaciones(faltan: seq<Sistema>)

  /** `handleNext`: the unevaluated systems are reported first, then the
      abnormal ones without observations; otherwise the wizard moves on. */
  function HandleNext(d: FormData): (a: Avance) {
    var r := d.revisionSistemas;
    if |NoEvaluados(r)| > 0 then FaltanEvaluar(NoEvaluados(r))
    else if |AnormalesSinObs(r)| > 0 then FaltanObservaciones(AnormalesSinObs(r))
    else Avanza
  }

  /** The step's button lets the user through exactly when the wizard's
      validator for step 3 does, and every reported list names systems at
      fault. */
  lemma HandleNextIff(d: FormData)
    ensures HandleNext(d) == Avanza <==> ValidarPaso(3, d)
    ensures HandleNext(d).FaltanEvaluar? ==>
      HandleNext(d).faltan != [] &&
      forall k :: 0 <= k < |HandleNext(d).faltan| ==>
        d.revisionSistemas.Get(HandleNext(d).faltan[k]).estado == SinEvaluar
    ensures HandleNext(d).FaltanObservaciones? ==>
      HandleNext(d).faltan != [] &&
      forall k :: 0 <= k < |HandleNext(d).faltan| ==>
        d.revisionSistemas.Get(HandleNext(d).faltan[k]).estado == Anormal
  {
  }

  /** The systems evaluated so far, in list order. */
  function Evaluados(r: Sistemas8): (l: seq<Sistema>) {
    Filtrar(Sistemas, EvaluadoEn(r))
  }

  function EvaluadoEn(r: Sistemas8): Sistema -> bool {
    s => r.Get(s).estado != SinEvaluar
  }

  /** "Sistemas evaluados: n / 8". */
  function Contador(r: Sistemas8): (n: nat) {
    |Evaluados(r)|
  }

  /** The counter and the missing systems add up to eight, and the
      "Revisión completa" mark shows exactly when every system is evaluated. */
  lemma ContadorEfecto(r: Sistemas8)
    ensures Contador(r) + |NoEvaluados(r)| == 8
    ensures Contador(r) == 8 <==> forall s: Sistema :: r.Get(s).estado != SinEvaluar
  {
    FiltrarParticion(Sistemas, EvaluadoEn(r), SinEvaluarEn(r));
    FiltrarTodo(Sistemas, EvaluadoEn(r));
    if Contador(r) == 8 {
      forall s: Sistema ensures r.Get(s).estado != SinEvaluar {
        var k := Indice(s);
        assert EvaluadoEn(r)(Sistemas[k]);
      }
    }
  }

  /** Marking a system that was not evaluated raises the counter by one. */
  lemma ContadorSube(d: FormData, s: Sistema, estado: Estado)
    requires EsEstadoElegible(estado)
    requires d.revisionSistemas.Get(s).estado == SinEvaluar
    ensures Contador(Aplicar(d, HandleEstadoChange(d, s, estado)).revisionSistemas)
            == Contador(d.revisionSistemas) + 1
  {
    EstadoChangeEfecto(d, s, estado);
    var r := d.revisionSistemas;
    var r2 := Aplicar(d, HandleEstadoChange(d, s, estado)).revisionSistemas;
    var k := Indice(s);
    SistemasCompletos();
    FiltrarCambiaUno(Sistemas, EvaluadoEn(r), EvaluadoEn(r2), k);
  }
}

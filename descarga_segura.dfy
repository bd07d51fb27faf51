/**
 * The secure-download protocol of the clinical-history PDF: issuing a token
 * for a history, checking the athlete's document number against it (at most
 * three failures), downloading once, and inspecting a token's status.
 *
 * Each endpoint is given twice: as a function on a snapshot of the token
 * table (`Tabla`, token string to row) that returns the new table and the
 * endpoint's answer, and as a method of `TokenStore`, the table of token
 * objects that the endpoint updates in place, proved to do exactly what the
 * function says. The properties of the protocol are lemmas about the
 * functions. The current time, the random token and the success of the PDF
 * renderer are parameters.
 */
module DescargaSegura {
  import opened Wrappers
  import opened Text
  import opened TokenModelo
  import opened Numeros
  import Uuid

  type Tabla = map<string, Row>

  /** The rows the endpoints read besides tokens: the athlete of each clinical
      history, keyed by the history's canonical UUID text, and the document
      number of each athlete. */
  datatype Historias = Historias(deportistaDe: map<string, string>, documentoDe: map<string, string>)

  /** Answer of `POST /descarga-segura/generar-token/{id}`. */
  datatype ResultadoEmision =
    | HistoriaNoEncontrada      // 404 "Historia clínica no encontrada"
    | DeportistaNoEncontrado    // 404 "Deportista no encontrado"
    | ErrorAlGenerar            // 500, after rollback (the id is not a UUID, or the generated token already exists)
    | Emitido(token: string)

  /** Answer of `POST /descarga-segura/verificar`. */
  datatype ResultadoVerificacion =
    | EnlaceNoValido                    // 404
    | EnlaceExpirado                    // 410
    | MaximoIntentos                    // 429
    | CedulaIncorrecta(restantes: int)  // 401 "Intentos restantes: n"
    | Verificado(historiaId: string)

  /** Answer of `GET /descarga-segura/descargar/{token}`. */
  datatype ResultadoDescarga =
    | TokenNoEncontrado        // 404
    | NoDisponible             // 403 "Este enlace ya no está disponible"
    | DebeVerificar            // 403 "Debe verificar su cédula primero"
    | DescargaExpirada         // 410
    | DatosNoEncontrados       // 404
    | ErrorAlDescargar         // 500 (the PDF renderer raised)
    | Pdf(historiaId: string, numeroDocumento: string)

  /** Answer of `GET /descarga-segura/info/{token}`. */
  datatype InfoToken =
    | NoValido          // "Enlace no válido"
    | YaUtilizado       // "Este enlace ya fue utilizado"
    | Expirado          // "Este enlace ha expirado"
    | SinIntentos       // "Máximo de intentos alcanzado"
    | Valido(intentosRestantes: int, expira: int)

  /** HTTP status of each answer. */
  function CodigoEmision(r: ResultadoEmision): int {
    match r
    case HistoriaNoEncontrada => 404
    case DeportistaNoEncontrado => 404
    case ErrorAlGenerar => 500
    case Emitido(_) => 200
  }

  function CodigoVerificacion(r: ResultadoVerificacion): int {
    match r
    case EnlaceNoValido => 404
    case EnlaceExpirado => 410
    case MaximoIntentos => 429
    case CedulaIncorrecta(_) => 401
    case Verificado(_) => 200
  }

  function CodigoDescarga(r: ResultadoDescarga): int {
    match r
    case TokenNoEncontrado => 404
    case NoDisponible => 403
    case DebeVerificar => 403
    case DescargaExpirada => 410
    case DatosNoEncontrados => 404
    case ErrorAlDescargar => 500
    case Pdf(_, _) => 200
  }

  /* ---------------------------------------------------------------------- */
  /* Document-number normalisation                                          */
  /* ---------------------------------------------------------------------- */

  /** `cedula.strip().replace(".", "").replace(",", "").replace(" ", "")`. */
  function NormalizarCedula(s: string): string
  {
    QuitarSeparadores(PyStrip(s))
  }

  /** The three `replace` calls. */
  function QuitarSeparadores(s: string): string
  {
    RemoveChar(RemoveChar(RemoveChar(s, '.'), ','), ' ')
  }

  predicate EsSeparador(c: char) {
    c == '.' || c == ',' || c == ' '
  }

  lemma QuitarSeparadoresConcat(a: string, b: string)
    ensures QuitarSeparadores(a + b) == QuitarSeparadores(a) + QuitarSeparadores(b)
  {
    RemoveCharConcat(a, b, '.');
    RemoveCharConcat(RemoveChar(a, '.'), RemoveChar(b, '.'), ',');
    RemoveCharConcat(RemoveChar(RemoveChar(a, '.'), ','), RemoveChar(RemoveChar(b, '.'), ','), ' ');
  }

  /** The normalised number holds no separator, and only characters of the original. */
  lemma NormalizarSinSeparadores(s: string)
    ensures var r := NormalizarCedula(s);
      '.' !in r && ',' !in r && ' ' !in r && forall x :: x in r ==> x in s
  {
    var t := PyStrip(s);
    forall x | x in t ensures x in s {
      TrimSubset(s, IsPySpace, x);
    }
    RemoveCharSpec(t, '.');
    RemoveCharSpec(RemoveChar(t, '.'), ',');
    RemoveCharSpec(RemoveChar(RemoveChar(t, '.'), ','), ' ');
  }

  /** A document without separators and with no white space at its ends is
      its own normal form. */
  lemma NormalizarSinCambio(s: string)
    requires forall i :: 0 <= i < |s| ==> !EsSeparador(s[i])
    requires s == [] || (!IsPySpace(s[0]) && !IsPySpace(s[|s| - 1]))
    ensures NormalizarCedula(s) == s
  {
    TrimNone(s, IsPySpace);
    RemoveCharSpec(s, '.');
    RemoveCharSpec(s, ',');
    RemoveCharSpec(s, ' ');
  }

  /** A separator inside the number does not matter: `a` + sep + `b`
      normalises as `a` + `b` does, when the ends are not white space. */
  lemma NormalizarIgnoraSeparador(a: string, sep: char, b: string)
    requires EsSeparador(sep) && a != [] && b != []
    requires !IsPySpace(a[0]) && !IsPySpace(b[|b| - 1])
    ensures NormalizarCedula(a + [sep] + b) == NormalizarCedula(a + b)
  {
    var s1, s2 := a + [sep] + b, a + b;
    assert s1[0] == a[0] && s1[|s1| - 1] == b[|b| - 1];
    assert s2[0] == a[0] && s2[|s2| - 1] == b[|b| - 1];
    TrimNone(s1, IsPySpace);
    TrimNone(s2, IsPySpace);
    QuitarSeparadoresConcat(a + [sep], b);
    QuitarSeparadoresConcat(a, [sep]);
    QuitarSeparadoresConcat(a, b);
    assert QuitarSeparadores([sep]) == [];
  }

  /** A document written in digit groups separated by dots, as in
      "12.345.678", is the same document as its digits run together. */
  lemma NormalizarConPuntos(a: string, b: string, c: string)
    requires |a| >= 1 && |b| >= 1 && |c| >= 1
    requires AllDigits(a) && AllDigits(b) && AllDigits(c)
    ensures NormalizarCedula(a + ['.'] + b + ['.'] + c) == a + b + c
  {
    var s := a + ['.'] + b + ['.'] + c;
    assert s[0] == a[0] && s[|s| - 1] == c[|c| - 1];
    TrimNone(s, IsPySpace);
    QuitarSeparadoresDigitos(a);
    QuitarSeparadoresDigitos(b);
    QuitarSeparadoresDigitos(c);
    assert QuitarSeparadores(['.']) == [];
    QuitarSeparadoresConcat(a + ['.'] + b + ['.'], c);
    QuitarSeparadoresConcat(a + ['.'] + b, ['.']);
    QuitarSeparadoresConcat(a + ['.'], b);
    QuitarSeparadoresConcat(a, ['.']);
  }

  /** A plain digit string is already normalised. */
  lemma NormalizarDigitos(d: string)
    requires |d| >= 1 && AllDigits(d)
    ensures NormalizarCedula(d) == d
  {
    TrimNone(d, IsPySpace);
    QuitarSeparadoresDigitos(d);
  }

  /** Digits are kept by the three `replace` calls. */
  lemma QuitarSeparadoresDigitos(d: string)
    requires AllDigits(d)
    ensures QuitarSeparadores(d) == d
  {
    RemoveCharSpec(d, '.');
    RemoveCharSpec(d, ',');
    RemoveCharSpec(d, ' ');
  }

  /** On strings whose only white space is ' ', normalising twice is normalising once. */
  lemma NormalizarIdempotente(s: string)
    requires forall i :: 0 <= i < |s| && IsPySpace(s[i]) ==> s[i] == ' '
    ensures NormalizarCedula(NormalizarCedula(s)) == NormalizarCedula(s)
  {
    var r := NormalizarCedula(s);
    NormalizarSinSeparadores(s);
    RemoveCharSpec(r, '.');
    RemoveCharSpec(r, ',');
    RemoveCharSpec(r, ' ');
    if r != [] {
      assert r[0] in s && r[|r| - 1] in s;
      assert !IsPySpace(r[0]) && !IsPySpace(r[|r| - 1]);
    }
    TrimNone(r, IsPySpace);
  }

  /** Other white space breaks idempotence: the strip happens before the '.'
      that shields a tab is removed. */
  lemma NormalizarNoIdempotente()
    ensures NormalizarCedula(".\t5") == "\t5"
    ensures NormalizarCedula("\t5") == "5"
  {
    TrimNone(".\t5", IsPySpace);
    assert RemoveChar(".\t5", '.') == "\t5";
    assert TrimLeft("\t5", IsPySpace) == "5";
    TrimNone("5", IsPySpace);
  }

  /* ---------------------------------------------------------------------- */
  /* The endpoints on a snapshot of the table                               */
  /* ---------------------------------------------------------------------- */

  /** The bulk update of issuance: earlier tokens of the history that are
      neither locked nor used become locked. */
  function Desactivar(t: Tabla, historiaId: string): Tabla {
    map k | k in t :: Desactivada(t[k], historiaId)
  }

  /** One row under the bulk update of issuance. */
  function Desactivada(r: Row, historiaId: string): Row {
    if r.historiaId == historiaId && r.Activo() then r.(bloqueado := true) else r
  }

  /** `generar_token_descarga` at time `now`, with `generado` the token
      `uuid4().hex` returned. The path text is compared with UUID columns, so
      it is read as a UUID: a text that is not one makes the query raise,
      which the handler answers with 500; any spelling of a stored id finds
      it, and the new row carries the canonical id. */
  function Emitir(t: Tabla, h: Historias, historiaId: string, now: int, generado: string): (Tabla, ResultadoEmision)
  {
    var clave := Uuid.Parse(historiaId);
    if clave.None? then (t, ErrorAlGenerar)
    else if clave.value !in h.deportistaDe then (t, HistoriaNoEncontrada)
    else
      var id := clave.value;
      var deportistaId := h.deportistaDe[id];
      if deportistaId !in h.documentoDe then (t, DeportistaNoEncontrado)
      else if generado in t then (t, ErrorAlGenerar)
      else
        var fila := NuevaFila(id, deportistaId, h.documentoDe[deportistaId], Some(now + ValidezSegundos), now);
        (Desactivar(t, id)[generado := fila], Emitido(generado))
  }

  /** `verificar_token` at time `now`: the checks run in this order. */
  function Verificar(t: Tabla, token: string, cedula: string, now: int): (Tabla, ResultadoVerificacion)
  {
    if token !in t || t[token].bloqueado then (t, EnlaceNoValido)
    else
      var (r, res) := VerificarFila(t[token], CedulaCoincide(cedula, t[token].numeroDocumento), now);
      (t[token := r], res)
  }

  /** The two document numbers are equal once normalised. */
  predicate CedulaCoincide(cedula: string, numeroDocumento: string) {
    NormalizarCedula(cedula) == NormalizarCedula(numeroDocumento)
  }

  /** The checks of `verificar_token` on an open token's row, given whether the
      presented document matches. */
  function VerificarFila(r: Row, coincide: bool, now: int): (Row, ResultadoVerificacion)
  {
    if now > r.fechaExpiracion then (r.(bloqueado := true), EnlaceExpirado)
    else if r.intentosFallidos >= MaxIntentos then (r.(bloqueado := true), MaximoIntentos)
    else if !coincide then
      var fallidos := r.intentosFallidos + 1;
      (r.(intentosFallidos := fallidos), CedulaIncorrecta(MaxIntentos - fallidos))
    else (r.(usado := true, fechaUso := Some(now)), Verificado(r.historiaId))
  }

  /** `descargar_con_token` at time `now`; `pdfGenerado` says whether the PDF
      renderer returned a document (it raises otherwise). */
  function Descargar(t: Tabla, h: Historias, token: string, now: int, pdfGenerado: bool): (Tabla, ResultadoDescarga)
  {
    if token !in t then (t, TokenNoEncontrado)
    else
      var r := t[token];
      if r.bloqueado then (t, NoDisponible)
      else if !r.usado then (t, DebeVerificar)
      else if now > r.fechaExpiracion then (t[token := r.(bloqueado := true)], DescargaExpirada)
      else if r.historiaId !in h.deportistaDe || h.deportistaDe[r.historiaId] !in h.documentoDe then
        (t, DatosNoEncontrados)
      else if !pdfGenerado then (t, ErrorAlDescargar)
      else (t[token := r.(bloqueado := true)], Pdf(r.historiaId, r.numeroDocumento))
  }

  /** `obtener_info_token` at time `now`: a read, in this order of checks. */
  function Info(t: Tabla, token: string, now: int): InfoToken
  {
    if token !in t then NoValido
    else
      var r := t[token];
      if r.bloqueado then YaUtilizado
      else if now > r.fechaExpiracion then Expirado
      else if r.intentosFallidos >= MaxIntentos then SinIntentos
      else Valido(MaxIntentos - r.intentosFallidos, r.fechaExpiracion)
  }

  /* ---------------------------------------------------------------------- */
  /* Invariant of the table                                                 */
  /* ---------------------------------------------------------------------- */

  /** Failures stay within 0..3, a used token records when, and each history
      has at most one token that is neither locked nor used. */
  predicate TablaValida(t: Tabla) {
    (forall k :: k in t ==> 0 <= t[k].intentosFallidos <= MaxIntentos)
    && (forall k :: k in t && t[k].usado ==> t[k].fechaUso.Some?)
    && UnActivoPorHistoria(t)
  }

  predicate UnActivoPorHistoria(t: Tabla) {
    forall k1, k2 ::
      (k1 in t && k2 in t && t[k1].Activo() && t[k2].Activo() && t[k1].historiaId == t[k2].historiaId)
      ==> k1 == k2
  }

  /** A row moved only forward: locks and verifications are never undone,
      failures never go down, and what identifies the token never changes. */
  predicate Avanza(a: Row, b: Row) {
    b.historiaId == a.historiaId && b.deportistaId == a.deportistaId
    && b.numeroDocumento == a.numeroDocumento && b.fechaCreacion == a.fechaCreacion
    && b.fechaExpiracion == a.fechaExpiracion
    && (a.bloqueado ==> b.bloqueado) && (a.usado ==> b.usado)
    && a.intentosFallidos <= b.intentosFallidos
  }

  predicate TablaAvanza(a: Tabla, b: Tabla) {
    a.Keys <= b.Keys && forall k :: k in a ==> Avanza(a[k], b[k])
  }

  /* ---------------------------------------------------------------------- */
  /* Issuance                                                               */
  /* ---------------------------------------------------------------------- */

  /** Issuance locks exactly the earlier fresh tokens of that history; a
      verified but not downloaded token is left alone; the new token copies the
      athlete's document number and expires two hours from now. A text that
      is not a UUID answers 500; when the history or its athlete is missing,
      or the token exists, nothing changes. */
  lemma EmitirEfecto(t: Tabla, h: Historias, historiaId: string, now: int, generado: string)
    ensures var (t2, res) := Emitir(t, h, historiaId, now, generado);
      (!res.Emitido? ==> t2 == t)
      && (Uuid.Parse(historiaId).None? ==> res == ErrorAlGenerar)
      && (Uuid.Parse(historiaId).Some? ==>
          var id := Uuid.Parse(historiaId).value;
          (res.Emitido? <==> id in h.deportistaDe && h.deportistaDe[id] in h.documentoDe && generado !in t)
          && (res == HistoriaNoEncontrada <==> id !in h.deportistaDe)
          && (res.Emitido? ==>
                res.token == generado && t2.Keys == t.Keys + {generado}
                && t2[generado].Activo() && t2[generado].intentosFallidos == 0
                && t2[generado].historiaId == id
                && t2[generado].numeroDocumento == h.documentoDe[h.deportistaDe[id]]
                && t2[generado].fechaExpiracion == now + ValidezSegundos
                && (forall k :: k in t && t[k].historiaId == id && t[k].Activo() ==> t2[k] == t[k].(bloqueado := true))
                && (forall k :: k in t && (t[k].historiaId != id || !t[k].Activo()) ==> t2[k] == t[k])))
  {
  }

  /** A braced or upper-case spelling of a stored history's id issues the
      same token as its canonical text. */
  lemma EmitirCualquierEscritura(t: Tabla, h: Historias, u: string, now: int, generado: string)
    requires Uuid.IsCanonical(u)
    ensures Emitir(t, h, "{" + u + "}", now, generado) == Emitir(t, h, u, now, generado)
  {
    Uuid.BracedRoundTrip(u);
    Uuid.CanonicalRoundTrip(u);
  }

  lemma EmitirPreservaValida(t: Tabla, h: Historias, historiaId: string, now: int, generado: string)
    requires TablaValida(t)
    ensures TablaValida(Emitir(t, h, historiaId, now, generado).0)
    ensures TablaAvanza(t, Emitir(t, h, historiaId, now, generado).0)
  {
    var (t2, res) := Emitir(t, h, historiaId, now, generado);
    if res.Emitido? {
      var id := Uuid.Parse(historiaId).value;
      var d := Desactivar(t, id);
      DesactivarEfecto(t, id);
      assert t2 == d[generado := t2[generado]];
      forall k1, k2 | k1 in t2 && k2 in t2 && t2[k1].Activo() && t2[k2].Activo()
        && t2[k1].historiaId == t2[k2].historiaId
        ensures k1 == k2
      {
        if k1 != generado && k2 != generado {
          assert d[k1].Activo() && d[k2].Activo();
        }
      }
    }
  }

  /** The bulk update leaves no fresh token of the history, keeps the table
      valid, and only moves rows forward. */
  lemma DesactivarEfecto(t: Tabla, historiaId: string)
    requires TablaValida(t)
    ensures var d := Desactivar(t, historiaId);
      TablaValida(d) && TablaAvanza(t, d) && d.Keys == t.Keys
      && forall k :: k in d && d[k].historiaId == historiaId ==> !d[k].Activo()
  {
    var d := Desactivar(t, historiaId);
    forall k1, k2 | k1 in d && k2 in d && d[k1].Activo() && d[k2].Activo()
      && d[k1].historiaId == d[k2].historiaId
      ensures k1 == k2
    {
      assert d[k1] == t[k1] && d[k2] == t[k2];
    }
  }

  /** Issuing a second token for a history makes the first, still fresh, one
      unusable: verifying it answers 404. */
  lemma SegundoTokenBloqueaPrimero(t: Tabla, h: Historias, historiaId: string, now: int,
                                   primero: string, segundo: string, cedula: string, luego: int)
    requires primero in t && Uuid.Parse(historiaId) == Some(t[primero].historiaId) && t[primero].Activo()
    requires Emitir(t, h, historiaId, now, segundo).1.Emitido?
    ensures Verificar(Emitir(t, h, historiaId, now, segundo).0, primero, cedula, luego).1 == EnlaceNoValido
  {
    EmitirEfecto(t, h, historiaId, now, segundo);
  }

  /* ---------------------------------------------------------------------- */
  /* Verification                                                           */
  /* ---------------------------------------------------------------------- */

  /** An unknown or locked token answers 404 and changes nothing. */
  lemma VerificarNoValido(t: Tabla, token: string, cedula: string, now: int)
    ensures Verificar(t, token, cedula, now).1 == EnlaceNoValido
      <==> token !in t || t[token].bloqueado
    ensures Verificar(t, token, cedula, now).1 == EnlaceNoValido ==> Verificar(t, token, cedula, now).0 == t
  {
  }

  /** Expiry is checked before the failure count and the document: an expired
      token answers 410 whatever is presented, and becomes locked. */
  lemma VerificarExpirado(t: Tabla, token: string, cedula: string, now: int)
    requires token in t && !t[token].bloqueado && now > t[token].fechaExpiracion
    ensures Verificar(t, token, cedula, now) == (t[token := t[token].(bloqueado := true)], EnlaceExpirado)
  {
  }

  /** After three failures the next attempt answers 429 and locks the token,
      even with the right document. */
  lemma VerificarAgotado(t: Tabla, token: string, cedula: string, now: int)
    requires token in t && !t[token].bloqueado && now <= t[token].fechaExpiracion
    requires t[token].intentosFallidos >= MaxIntentos
    ensures Verificar(t, token, cedula, now) == (t[token := t[token].(bloqueado := true)], MaximoIntentos)
  {
  }

  /** The document is compared only on an open, unexpired token with fewer
      than three failures. A mismatch adds exactly one failure and reports the
      attempts left; a match marks the token used at `now`, does not lock it,
      and returns the history. */
  lemma VerificarComparacion(r: Row, coincide: bool, now: int)
    requires !r.bloqueado && now <= r.fechaExpiracion && 0 <= r.intentosFallidos < MaxIntentos
    ensures var (r2, res) := VerificarFila(r, coincide, now);
      (!coincide ==>
         r2 == r.(intentosFallidos := r.intentosFallidos + 1)
         && res == CedulaIncorrecta(MaxIntentos - r2.intentosFallidos)
         && 0 <= res.restantes < MaxIntentos)
      && (coincide ==>
            r2 == r.(usado := true, fechaUso := Some(now))
            && !r2.bloqueado && res == Verificado(r.historiaId))
  {
  }

  /** Verification touches at most the presented token's row. */
  lemma VerificarSoloToken(t: Tabla, token: string, cedula: string, now: int)
    ensures var t2 := Verificar(t, token, cedula, now).0;
      t2.Keys == t.Keys && forall k :: k in t && k != token ==> t2[k] == t[k]
  {
  }

  lemma {:induction false} VerificarPreservaValida(t: Tabla, token: string, cedula: string, now: int)
    requires TablaValida(t)
    ensures TablaValida(Verificar(t, token, cedula, now).0)
    ensures TablaAvanza(t, Verificar(t, token, cedula, now).0)
  {
    if token in t && !t[token].bloqueado {
      var r := t[token];
      var r2 := Verificar(t, token, cedula, now).0[token];
      assert Verificar(t, token, cedula, now).0 == t[token := r2];
      ActualizarFila(t, token, r2);
    }
  }

  /** Replacing one row by a row that moved forward, stays within the failure
      cap, and is fresh only if the old row was, keeps the table valid. */
  lemma ActualizarFila(t: Tabla, k: string, r2: Row)
    requires TablaValida(t) && k in t
    requires Avanza(t[k], r2) && 0 <= r2.intentosFallidos <= MaxIntentos
    requires r2.usado ==> r2.fechaUso.Some?
    requires r2.Activo() ==> t[k].Activo()
    ensures TablaValida(t[k := r2]) && TablaAvanza(t, t[k := r2])
  {
    var t2 := t[k := r2];
    forall k1, k2 | k1 in t2 && k2 in t2 && t2[k1].Activo() && t2[k2].Activo()
      && t2[k1].historiaId == t2[k2].historiaId
      ensures k1 == k2
    {
      assert t[k1].Activo() && t[k2].Activo();
    }
  }

  /** Three wrong documents followed by the right one: the fourth attempt
      answers 429 and the token is locked for good. */
  lemma TresFallosBloquean(t: Tabla, token: string, mala: string, buena: string, now: int)
    requires token in t && t[token].Activo() && t[token].intentosFallidos == 0
    requires now <= t[token].fechaExpiracion
    requires !CedulaCoincide(mala, t[token].numeroDocumento)
    ensures var (t1, r1) := Verificar(t, token, mala, now);
      var (t2, r2) := Verificar(t1, token, mala, now);
      var (t3, r3) := Verificar(t2, token, mala, now);
      var (t4, r4) := Verificar(t3, token, buena, now);
      r1 == CedulaIncorrecta(2) && r2 == CedulaIncorrecta(1) && r3 == CedulaIncorrecta(0)
      && r4 == MaximoIntentos && t4[token].bloqueado && !t4[token].usado
      && Verificar(t4, token, buena, now).1 == EnlaceNoValido
  {
    var f0 := t[token];
    var f1 := f0.(intentosFallidos := 1);
    var t1 := t[token := f1];
    assert Verificar(t, token, mala, now) == (t1, CedulaIncorrecta(2)) by {
      VerificarComparacion(f0, false, now);
    }
    var f2 := f1.(intentosFallidos := 2);
    var t2 := t1[token := f2];
    assert Verificar(t1, token, mala, now) == (t2, CedulaIncorrecta(1)) by {
      assert t1[token] == f1 && f1.numeroDocumento == f0.numeroDocumento;
      VerificarComparacion(f1, false, now);
    }
    var f3 := f2.(intentosFallidos := 3);
    var t3 := t2[token := f3];
    assert Verificar(t2, token, mala, now) == (t3, CedulaIncorrecta(0)) by {
      assert t2[token] == f2 && f2.numeroDocumento == f0.numeroDocumento;
      VerificarComparacion(f2, false, now);
    }
    var t4 := t3[token := f3.(bloqueado := true)];
    assert Verificar(t3, token, buena, now) == (t4, MaximoIntentos) by {
      assert t3[token] == f3;
    }
  }

  /* ---------------------------------------------------------------------- */
  /* Download                                                               */
  /* ---------------------------------------------------------------------- */

  /** Download succeeds exactly on a present, open, verified, unexpired token
      whose history and athlete exist, when the renderer produces the PDF; it
      then locks the token and changes nothing else. A failed download changes
      nothing, except that an expired verified token becomes locked. */
  lemma DescargarEfecto(t: Tabla, h: Historias, token: string, now: int, pdfGenerado: bool)
    ensures var (t2, res) := Descargar(t, h, token, now, pdfGenerado);
      (res.Pdf? <==> token in t && !t[token].bloqueado && t[token].usado
                     && now <= t[token].fechaExpiracion
                     && t[token].historiaId in h.deportistaDe
                     && h.deportistaDe[t[token].historiaId] in h.documentoDe && pdfGenerado)
      && (res.Pdf? ==> t2 == t[token := t[token].(bloqueado := true)]
                       && res.numeroDocumento == t[token].numeroDocumento)
      && (!res.Pdf? && res != DescargaExpirada ==> t2 == t)
  {
  }

  /** A locked token answers 403 even when it has also expired. */
  lemma DescargarBloqueadoAntesQueExpirado(t: Tabla, h: Historias, token: string, now: int, pdfGenerado: bool)
    requires token in t && t[token].bloqueado && now > t[token].fechaExpiracion
    ensures CodigoDescarga(Descargar(t, h, token, now, pdfGenerado).1) == 403
  {
  }

  /** The download is one-shot: after a successful download the same token
      answers 403 although it stays verified. */
  lemma DescargaUnica(t: Tabla, h: Historias, token: string, now: int, luego: int, pdfGenerado: bool)
    requires Descargar(t, h, token, now, true).1.Pdf?
    ensures var t2 := Descargar(t, h, token, now, true).0;
      t2[token].usado && Descargar(t2, h, token, luego, pdfGenerado).1 == NoDisponible
  {
  }

  lemma DescargarPreservaValida(t: Tabla, h: Historias, token: string, now: int, pdfGenerado: bool)
    requires TablaValida(t)
    ensures TablaValida(Descargar(t, h, token, now, pdfGenerado).0)
    ensures TablaAvanza(t, Descargar(t, h, token, now, pdfGenerado).0)
  {
    if token in t {
      var r2 := Descargar(t, h, token, now, pdfGenerado).0[token];
      assert Descargar(t, h, token, now, pdfGenerado).0 == t[token := r2];
      ActualizarFila(t, token, r2);
    }
  }

  /* ---------------------------------------------------------------------- */
  /* Status                                                                 */
  /* ---------------------------------------------------------------------- */

  /** On a valid table a token reported valid has between one and three
      attempts left, and is open, unexpired and below the failure cap. */
  lemma InfoValido(t: Tabla, token: string, now: int)
    requires TablaValida(t)
    ensures Info(t, token, now).Valido? ==>
      1 <= Info(t, token, now).intentosRestantes <= MaxIntentos
      && !t[token].bloqueado && now <= t[token].fechaExpiracion
      && Info(t, token, now).expira == t[token].fechaExpiracion
    ensures Info(t, token, now).Valido? <==>
      token in t && !t[token].bloqueado && now <= t[token].fechaExpiracion
      && t[token].intentosFallidos < MaxIntentos
  {
  }

  /** Status and verification agree: a token is reported valid exactly when
      verifying it would get as far as comparing the document. */
  lemma InfoAnticipaVerificacion(t: Tabla, token: string, cedula: string, now: int)
    ensures Info(t, token, now).Valido? <==>
      (Verificar(t, token, cedula, now).1.CedulaIncorrecta? || Verificar(t, token, cedula, now).1.Verificado?)
  {
    if token in t && !t[token].bloqueado {
      var coincide := CedulaCoincide(cedula, t[token].numeroDocumento);
      assert Verificar(t, token, cedula, now).1 == VerificarFila(t[token], coincide, now).1;
    }
  }

  /* ---------------------------------------------------------------------- */
  /* Scenarios                                                              */
  /* ---------------------------------------------------------------------- */

  /** Issue a token for a history whose athlete has document `a` + `b` + `c`
      (say "900123456"); the status shows three attempts; a wrong document
      leaves two; the document written with dots ("900.123.456") verifies
      and returns the history; the download gives the PDF; a second download
      answers 403. */
  lemma EscenarioCompleto(h: Historias, historia: string, token: string, now: int,
                          a: string, b: string, c: string, mala: string)
    requires Uuid.IsCanonical(historia)
    requires historia in h.deportistaDe && h.deportistaDe[historia] in h.documentoDe
    requires |a| >= 1 && |b| >= 1 && |c| >= 1 && AllDigits(a) && AllDigits(b) && AllDigits(c)
    requires h.documentoDe[h.deportistaDe[historia]] == a + b + c
    requires !CedulaCoincide(mala, a + b + c)
    ensures var (t1, e) := Emitir(map[], h, historia, now, token);
      e == Emitido(token)
      && Info(t1, token, now) == Valido(3, now + ValidezSegundos)
      && var (t2, v1) := Verificar(t1, token, mala, now + 60);
      v1 == CedulaIncorrecta(2)
      && Info(t2, token, now + 60) == Valido(2, now + ValidezSegundos)
      && var (t3, v2) := Verificar(t2, token, a + ['.'] + b + ['.'] + c, now + 120);
      v2 == Verificado(historia)
      && var (t4, d1) := Descargar(t3, h, token, now + 180, true);
      d1 == Pdf(historia, a + b + c)
      && Descargar(t4, h, token, now + 240, true).1 == NoDisponible
  {
    var doc := a + b + c;
    var buena := a + ['.'] + b + ['.'] + c;
    var f0 := NuevaFila(historia, h.deportistaDe[historia], doc, Some(now + ValidezSegundos), now);
    var t1 := map[token := f0];
    assert Emitir(map[], h, historia, now, token) == (t1, Emitido(token)) by {
      Uuid.CanonicalRoundTrip(historia);
      assert Desactivar(map[], historia) == map[];
    }
    var f1 := f0.(intentosFallidos := 1);
    var t2 := t1[token := f1];
    assert Verificar(t1, token, mala, now + 60) == (t2, CedulaIncorrecta(2)) by {
      VerificarComparacion(f0, false, now + 60);
    }
    var f2 := f1.(usado := true, fechaUso := Some(now + 120));
    var t3 := t2[token := f2];
    assert Verificar(t2, token, buena, now + 120) == (t3, Verificado(historia)) by {
      NormalizarConPuntos(a, b, c);
      AllDigitsConcat(a, b);
      AllDigitsConcat(a + b, c);
      NormalizarDigitos(doc);
      assert CedulaCoincide(buena, f1.numeroDocumento);
      VerificarComparacion(f1, true, now + 120);
    }
    var t4 := t3[token := f2.(bloqueado := true)];
    assert Descargar(t3, h, token, now + 180, true) == (t4, Pdf(historia, doc));
  }

  /** A token past its expiry: verification answers 410 and locks it, and the
      status then reports it as used, since the lock is checked before expiry. */
  lemma EscenarioExpirado(t: Tabla, token: string, cedula: string, now: int)
    requires token in t && t[token].Activo() && now > t[token].fechaExpiracion
    ensures var (t2, v) := Verificar(t, token, cedula, now);
      v == EnlaceExpirado && Info(t2, token, now) == YaUtilizado
    ensures Info(t, token, now) == Expirado
  {
  }

  /* ---------------------------------------------------------------------- */
  /* The table of token objects                                             */
  /* ---------------------------------------------------------------------- */

  /** The bulk update of issuance, on one token object. */
  method AplicarDesactivacion(fila: TokenDescarga, historiaId: string)
    modifies fila
    ensures fila.Snapshot() == Desactivada(old(fila.Snapshot()), historiaId)
    ensures fila.token == old(fila.token)
  {
    if fila.historiaId == historiaId && !fila.bloqueado && !fila.usado {
      fila.bloqueado := true;
    }
  }

  /** The checks of `verificar_token` on the token object of an open token. */
  method AplicarVerificacion(fila: TokenDescarga, coincide: bool, now: int) returns (res: ResultadoVerificacion)
    modifies fila
    ensures (fila.Snapshot(), res) == VerificarFila(old(fila.Snapshot()), coincide, now)
    ensures fila.token == old(fila.token)
  {
    if now > fila.fechaExpiracion {
      fila.bloqueado := true;
      res := EnlaceExpirado;
    } else if fila.intentosFallidos >= MaxIntentos {
      fila.bloqueado := true;
      res := MaximoIntentos;
    } else if !coincide {
      fila.intentosFallidos := fila.intentosFallidos + 1;
      res := CedulaIncorrecta(MaxIntentos - fila.intentosFallidos);
    } else {
      fila.usado := true;
      fila.fechaUso := Some(now);
      res := Verificado(fila.historiaId);
    }
  }

  /** The `tokens_descarga` table: token objects by their token string. */
  class TokenStore {
    var tokens: map<string, TokenDescarga>

    ghost predicate Valid()
      reads this, tokens.Values
    {
      (forall k :: k in tokens ==> tokens[k].token == k) && TablaValida(Rows())
    }

    /** The table's current contents. */
    ghost function Rows(): Tabla
      reads this, tokens.Values
    {
      map k | k in tokens :: tokens[k].Snapshot()
    }

    constructor ()
      ensures Valid() && Rows() == map[]
    {
      tokens := map[];
    }

    /** Only the object of token `k` changed or was added: the table is the
        old one with that row replaced or inserted. */
    twostate lemma CambiaFila(k: string)
      requires k in tokens && tokens.Keys == old(tokens).Keys + {k}
      requires forall j :: j in old(tokens) && j != k ==> tokens[j] == old(tokens[j]) && unchanged(tokens[j])
      ensures Rows() == old(Rows())[k := tokens[k].Snapshot()]
    {
    }

    /** `generar_token_descarga`. */
    method GenerarToken(h: Historias, historiaId: string, now: int, generado: string)
      returns (res: ResultadoEmision)
      requires Valid() && IsUuidHex(generado)
      modifies this, tokens.Values
      ensures Valid()
      ensures (Rows(), res) == Emitir(old(Rows()), h, historiaId, now, generado)
    {
      ghost var antes := Rows();
      var clave := Uuid.Parse(historiaId);
      if clave.None? {
        // the query on the UUID column raises; the handler rolls back
        return ErrorAlGenerar;
      }
      var id := clave.value;
      if id !in h.deportistaDe {
        return HistoriaNoEncontrada;
      }
      var deportistaId := h.deportistaDe[id];
      if deportistaId !in h.documentoDe {
        return DeportistaNoEncontrado;
      }
      if generado in tokens {
        // the insert violates the unique constraint; the rollback undoes the bulk update
        return ErrorAlGenerar;
      }
      DesactivarHistoria(id);
      label Desactivado:
      var nuevo := new TokenDescarga(None, id, deportistaId, h.documentoDe[deportistaId],
                                     Some(now + ValidezSegundos), now, generado);
      tokens := tokens[generado := nuevo];
      res := Emitido(generado);
      CambiaFila@Desactivado(generado);
      EmitirPreservaValida(antes, h, historiaId, now, generado);
    }

    /** The bulk update of issuance: every token object of the history that
        is neither locked nor used becomes locked, in one statement. */
    method DesactivarHistoria(historiaId: string)
      modifies tokens.Values
      ensures forall k :: k in tokens ==> tokens[k].token == old(tokens[k].token)
      ensures Rows() == Desactivar(old(Rows()), historiaId)
    {
      forall fila | fila in tokens.Values && fila.historiaId == historiaId && !fila.bloqueado && !fila.usado {
        fila.bloqueado := true;
      }
    }

    /** `verificar_token`. */
    method VerificarToken(token: string, cedula: string, now: int) returns (res: ResultadoVerificacion)
      requires Valid()
      modifies tokens.Values
      ensures Valid()
      ensures (Rows(), res) == Verificar(old(Rows()), token, cedula, now)
    {
      ghost var antes := Rows();
      VerificarPreservaValida(antes, token, cedula, now);
      if token !in tokens || tokens[token].bloqueado {
        return EnlaceNoValido;
      }
      var fila := tokens[token];
      assert forall j :: j in tokens && j != token ==> tokens[j] != fila;
      var coincide := CedulaCoincide(cedula, fila.numeroDocumento);
      res := AplicarVerificacion(fila, coincide, now);
      CambiaFila(token);
    }

    /** `descargar_con_token`; `pdfGenerado` is the renderer's outcome. */
    method DescargarConToken(h: Historias, token: string, now: int, pdfGenerado: bool)
      returns (res: ResultadoDescarga)
      requires Valid()
      modifies tokens.Values
      ensures Valid()
      ensures (Rows(), res) == Descargar(old(Rows()), h, token, now, pdfGenerado)
    {
      ghost var antes := Rows();
      DescargarPreservaValida(antes, h, token, now, pdfGenerado);
      if token !in tokens {
        return TokenNoEncontrado;
      }
      var fila := tokens[token];
      if fila.bloqueado {
        return NoDisponible;
      }
      if !fila.usado {
        return DebeVerificar;
      }
      ghost var previa := fila.Snapshot();
      assert forall j :: j in tokens && j != token ==> tokens[j] != fila;
      if now > fila.fechaExpiracion {
        fila.bloqueado := true;
        res := DescargaExpirada;
      } else if fila.historiaId !in h.deportistaDe || h.deportistaDe[fila.historiaId] !in h.documentoDe {
        return DatosNoEncontrados;
      } else if !pdfGenerado {
        return ErrorAlDescargar;
      } else {
        fila.bloqueado := true;
        res := Pdf(fila.historiaId, fila.numeroDocumento);
      }
      assert fila.Snapshot() == previa.(bloqueado := true);
      CambiaFila(token);
    }

    /** `obtener_info_token`: reads the table and changes nothing. */
    method ObtenerInfo(token: string, now: int) returns (info: InfoToken)
      requires Valid()
      ensures info == Info(Rows(), token, now)
      ensures info.Valido? ==> 1 <= info.intentosRestantes <= MaxIntentos
    {
      InfoValido(Rows(), token, now);
      if token !in tokens {
        return NoValido;
      }
      var fila := tokens[token];
      if fila.bloqueado {
        info := YaUtilizado;
      } else if now > fila.fechaExpiracion {
        info := Expirado;
      } else if fila.intentosFallidos >= MaxIntentos {
        info := SinIntentos;
      } else {
        info := Valido(MaxIntentos - fila.intentosFallidos, fila.fechaExpiracion);
      }
    }
  }
}

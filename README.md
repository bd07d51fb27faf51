# A verified model of the sports-medicine clinical-history core

This project models the parts of a sports-medicine electronic health record that hold real logic. The backend is a Python FastAPI service; the frontend is a React/TypeScript single-page application. Each core source file becomes one Dafny module:

- `TokenModelo`, `DescargaSegura`: the secure-download tokens (`models/token_descarga.py`, `api/v1/descarga_segura.py`).
- `ExploracionFisica`: the physical-examination step (vital-sign alerts, body-mass index, observation templates).
- `HistoriaClinica`, `RevisionSistemas`: the seven-step clinical-history wizard and its review-of-systems step.
- `ComponenteAlergias`, `AntecedentesMedicos`, `PruebasComplementarias`: the list editors of the wizard (allergies, medical history, diagnostic tests).
- `CupsDatabase`, `Cie11Database`: the CUPS procedure table and the ICD-11 disease table.
- `HistoriasApi`: the field-mapping rules of `POST /historias/completa` (`api/v1/historias.py`).
- `HistoriaCrud`: `crear_historia_completa` and `eliminar_historia` (`crud/historia.py`).
- `ListadoDeportistas`, `RegistroDeportista`: the athlete list and the athlete registration form.

The shared modules model library behaviour the core relies on:
- `Wrappers` holds `Option`.
- `Text` covers JavaScript `trim`, Python `strip`, `split`, case mapping and `replace`.
- `Numeros` covers JavaScript `parseFloat` and Python `int`/`float` on decimal text.
- `Fechas` covers ISO dates and the forms' age rule.
- `Uuid` covers Python's `UUID(text)`.
- `Listas` covers filter, map and delete-by-index.

The model takes the source's own form:
- **State changed in place becomes a class.** The token table is a map from token string to `TokenDescarga` object; the wizard is a `Formulario` with a step counter; the database sessions are `Sesion` and `BaseDeDatos`; the athlete screens are `Listado` and `Registro`; the template editor is `Plantillas`. Each method's `ensures` ties the new state to a specification function of the old one.
- **Pure code becomes functions.** Threshold chains, validators, spread updates and string composition are functions. Lemmas state what the source promises about them: the order of the verification checks, the three-failure cap, single-use download, iff-characterisations of every filter, round trips of the name split, dates, UUIDs and CUPS formatting, and the invariants the list editors keep.
- **Token strings are unique by construction**, since they are the keys of the map.

The current time, today's date, the fresh random token and record ids, the answers of HTTP requests and whether the PDF renderer succeeds are all parameters.

## Model

| member | source | states |
|---|---|---|
| TokenModelo.TokenDescarga.constructor | Back_inder/app/models/token_descarga.py:28-42 | a token not supplied (or empty) becomes the fresh 32-hex value; an expiry not supplied becomes construction time + 2 h; failures 0, not locked, not used, no use date |
| TokenModelo.NuevaFila | Back_inder/app/models/token_descarga.py:28-42 | a freshly built row is active (neither locked nor used) with no failures and no use date, and without an explicit expiry it lasts exactly 2 h |
| DescargaSegura.QuitarSeparadoresConcat | Back_inder/app/api/v1/descarga_segura.py:195-196 | the three `replace` calls distribute over concatenation |
| DescargaSegura.NormalizarSinSeparadores | Back_inder/app/api/v1/descarga_segura.py:195-196 | the normalised document holds no '.', ',' or ' ' and only characters of the original |
| DescargaSegura.NormalizarSinCambio | Back_inder/app/api/v1/descarga_segura.py:195-196 | a document without separators or outer white space is left as it is |
| DescargaSegura.NormalizarIgnoraSeparador | Back_inder/app/api/v1/descarga_segura.py:195-196 | one separator inside the number does not change the normalised value |
| DescargaSegura.NormalizarConPuntos | Back_inder/app/api/v1/descarga_segura.py:195-196 | digit groups written with dots ("12.345.678") normalise to the bare digits |
| DescargaSegura.NormalizarDigitos | Back_inder/app/api/v1/descarga_segura.py:195-196 | a plain digit string is already normalised |
| DescargaSegura.QuitarSeparadoresDigitos | Back_inder/app/api/v1/descarga_segura.py:195-196 | digits survive the three `replace` calls |
| DescargaSegura.NormalizarIdempotente | Back_inder/app/api/v1/descarga_segura.py:195-196 | normalising twice is normalising once when ' ' is the only white space |
| DescargaSegura.NormalizarNoIdempotente | Back_inder/app/api/v1/descarga_segura.py:195-196 | with a tab the normalisation is not idempotent: ".\t5" gives "\t5", which gives "5" |
| DescargaSegura.EmitirEfecto | Back_inder/app/api/v1/descarga_segura.py:110-163 | a path id that is not a UUID answers 500; otherwise issuance succeeds iff the history under the id's canonical text and its athlete exist (and the token is new); it then locks exactly the earlier active tokens of that history, leaves every other row (a verified one too) alone, and adds an active row with the athlete's document that expires at now + 2 h; a failure changes nothing |
| DescargaSegura.EmitirPreservaValida | Back_inder/app/api/v1/descarga_segura.py:116-143 | issuance keeps the table invariant (failures in 0..3, a used token has a use date, at most one active token per history) and only moves rows forward |
| DescargaSegura.DesactivarEfecto | Back_inder/app/api/v1/descarga_segura.py:131-135 | after the bulk update no token of the history is active, the keys are the same and the invariant holds |
| DescargaSegura.EmitirCualquierEscritura | Back_inder/app/api/v1/descarga_segura.py:115-117 | the braced spelling of a stored history's id issues exactly what its canonical text issues |
| DescargaSegura.SegundoTokenBloqueaPrimero | Back_inder/app/api/v1/descarga_segura.py:131-135 | after a second token is issued for the same history (under any spelling of its id), verifying the first, still active, one answers 404 |
| DescargaSegura.VerificarNoValido | Back_inder/app/api/v1/descarga_segura.py:174-180 | an unknown or locked token answers 404 and changes nothing |
| DescargaSegura.VerificarExpirado | Back_inder/app/api/v1/descarga_segura.py:182-186 | an open token past its expiry is locked and answers 410, whatever the document and the failures |
| DescargaSegura.VerificarAgotado | Back_inder/app/api/v1/descarga_segura.py:188-192 | an unexpired token with three failures is locked and answers 429 before the document is compared |
| DescargaSegura.VerificarComparacion | Back_inder/app/api/v1/descarga_segura.py:194-217 | on an open, unexpired token below the cap a mismatch adds exactly one failure and reports 3 − failures left, and a match marks it used at `now` and returns the history without locking it |
| DescargaSegura.VerificarSoloToken | Back_inder/app/api/v1/descarga_segura.py:168-217 | verification changes at most the presented token's row |
| DescargaSegura.VerificarPreservaValida | Back_inder/app/api/v1/descarga_segura.py:168-217 | verification keeps the invariant (so failures never exceed 3) and only moves rows forward |
| DescargaSegura.ActualizarFila | Back_inder/app/api/v1/descarga_segura.py:168-265 | replacing one row by a row that moved forward within the bounds keeps the invariant |
| DescargaSegura.TresFallosBloquean | Back_inder/app/api/v1/descarga_segura.py:189-206 | three wrong documents report 2, 1 and 0 attempts left; the fourth attempt, even with the right document, answers 429 and locks the token, and any later one answers 404 |
| DescargaSegura.DescargarEfecto | Back_inder/app/api/v1/descarga_segura.py:227-265 | the download gives the PDF iff the token is present, open, verified and unexpired, its history and athlete exist and the renderer succeeds; it then locks the token; every other failure except expiry changes nothing |
| DescargaSegura.DescargarBloqueadoAntesQueExpirado | Back_inder/app/api/v1/descarga_segura.py:237-250 | a locked token answers 403 even when it has also expired |
| DescargaSegura.DescargaUnica | Back_inder/app/api/v1/descarga_segura.py:264-265 | after a successful download the same token answers 403 at any later time, though it stays used |
| DescargaSegura.DescargarPreservaValida | Back_inder/app/api/v1/descarga_segura.py:227-265 | the download keeps the invariant and only moves rows forward |
| DescargaSegura.InfoValido | Back_inder/app/api/v1/descarga_segura.py:283-313 | a token is reported valid iff it is present, open, unexpired and below the cap, and then 1..3 attempts remain |
| DescargaSegura.InfoAnticipaVerificacion | Back_inder/app/api/v1/descarga_segura.py:283-313 | the status says valid exactly when verification would reach the document comparison |
| DescargaSegura.EscenarioCompleto | Back_inder/app/api/v1/descarga_segura.py:110-313 | issue, status (3 left), wrong document (2 left), right document written with dots, download, second download refused with 403 |
| DescargaSegura.EscenarioExpirado | Back_inder/app/api/v1/descarga_segura.py:182-186 | before verification the status of an expired active token reports it expired; verification answers 410 and locks it, after which the status reports it already used, since the lock is tested before expiry |
| DescargaSegura.AplicarDesactivacion | Back_inder/app/api/v1/descarga_segura.py:131-135 | the bulk update on one token object: its row becomes the updated row and its token string is kept |
| DescargaSegura.AplicarVerificacion | Back_inder/app/api/v1/descarga_segura.py:182-217 | the checks on one token object leave exactly the row and answer the verification function gives |
| DescargaSegura.TokenStore.constructor | Back_inder/app/models/token_descarga.py:19 | the table starts empty |
| DescargaSegura.TokenStore.CambiaFila | Back_inder/app/api/v1/descarga_segura.py:168-265 | when only the object of one token was changed or added, the table is the old one with that token's row replaced or inserted |
| DescargaSegura.TokenStore.GenerarToken | Back_inder/app/api/v1/descarga_segura.py:110-164 | the new table and the answer are those of issuance on the old table; the store invariant is kept |
| DescargaSegura.TokenStore.DesactivarHistoria | Back_inder/app/api/v1/descarga_segura.py:131-135 | the table becomes the bulk-updated table, token strings unchanged |
| DescargaSegura.TokenStore.VerificarToken | Back_inder/app/api/v1/descarga_segura.py:168-223 | the new table and the answer are those of verification on the old table |
| DescargaSegura.TokenStore.DescargarConToken | Back_inder/app/api/v1/descarga_segura.py:227-279 | the new table and the answer are those of the download on the old table |
| DescargaSegura.TokenStore.ObtenerInfo | Back_inder/app/api/v1/descarga_segura.py:283-313 | reads without changing the table; the answer is the status function, with 1..3 attempts when valid |
| ExploracionFisica.LecturaIff | Front_inder/src/app/components/historia/ExploracionFisica.tsx:388-392 | a vital field yields an alert value exactly when `parseFloat` reads a number from it (empty and NaN give none) |
| ExploracionFisica.ClasificarFCBandas | Front_inder/src/app/components/historia/ExploracionFisica.tsx:388-396 | heart rate: warning iff < 40, normal iff 40..100, danger iff above 100 up to 120, critical iff > 120 |
| ExploracionFisica.ClasificarTAEscritaHuecos | Front_inder/src/app/components/historia/ExploracionFisica.tsx:398-431 | the chain as written calls 139.5/70, 129.5/70 and 110/89.5 normal although 139/70 is stage 1, 129/70 elevated and 110/89 stage 1 |
| ExploracionFisica.ClasificarTAEnteros | Front_inder/src/app/components/historia/ExploracionFisica.tsx:398-431 | on whole-number readings the corrected chain and the chain as written agree |
| ExploracionFisica.ClasificarTAMonotona | Front_inder/src/app/components/historia/ExploracionFisica.tsx:398-431 | from 80/60 up, a higher systolic or diastolic is never less serious, and the reading is normal iff systolic < 120 and diastolic <= 80 |
| ExploracionFisica.EvaluarTAIff | Front_inder/src/app/components/historia/ExploracionFisica.tsx:398-405 | a text "a/b…" gets an alert iff both the piece before and the piece after the first '/' read as numbers, and the alert is the chain as written applied to those two |
| ExploracionFisica.EvaluarTASinBarra | Front_inder/src/app/components/historia/ExploracionFisica.tsx:399 | a text without '/' gets no alert |
| ExploracionFisica.ClasificarTAPrioridad | Front_inder/src/app/components/historia/ExploracionFisica.tsx:407-413 | in the chain as written, critical iff systolic > 180 or diastolic > 120; stage 2 iff not critical and ≥ 140 or ≥ 90 |
| ExploracionFisica.ClasificarTAPrioridadEnteros | Front_inder/src/app/components/historia/ExploracionFisica.tsx:407-425 | for whole-number readings the chain as written gives at least danger from a systolic of 130 or a diastolic above 80, and low iff below 120/80 and under 80/60 |
| ExploracionFisica.ClasificarTAEjemplos | Front_inder/src/app/components/historia/ExploracionFisica.tsx:419-431 | 120/80 is elevated, 80/50 is low, 110/70 is normal |
| ExploracionFisica.Gravedad | Front_inder/src/app/components/historia/ExploracionFisica.tsx:388-463 | the alert levels ranked from normal (0) to critical (3) |
| ExploracionFisica.ClasificarFRBandas | Front_inder/src/app/components/historia/ExploracionFisica.tsx:434-442 | respiratory rate: warning iff < 12, normal iff 12..20, danger iff above 20 up to 30, critical iff > 30 |
| ExploracionFisica.ClasificarTemperaturaBandas | Front_inder/src/app/components/historia/ExploracionFisica.tsx:444-453 | temperature: normal iff 36 ≤ t < 37.5, warning iff below 36 or 37.5..38, danger iff above 38 up to 39, critical iff > 39 |
| ExploracionFisica.ClasificarSaturacionMonotona | Front_inder/src/app/components/historia/ExploracionFisica.tsx:455-463 | a lower saturation is never less serious |
| ExploracionFisica.ClasificarSaturacionBandas | Front_inder/src/app/components/historia/ExploracionFisica.tsx:455-463 | saturation: critical iff < 90, danger iff 90 up to 95, warning iff 95 up to 97, normal iff ≥ 97 |
| ExploracionFisica.CalcularImc | Front_inder/src/app/components/historia/ExploracionFisica.tsx:369-379 | an index, when produced, is positive |
| ExploracionFisica.Imc | Front_inder/src/app/components/historia/ExploracionFisica.tsx:374 | weight over the squared height in metres is positive |
| ExploracionFisica.CalcularImcIff | Front_inder/src/app/components/historia/ExploracionFisica.tsx:369-379 | an index is produced iff weight and height both read as positive numbers |
| ExploracionFisica.Redondear2 | Front_inder/src/app/components/historia/ExploracionFisica.tsx:375 | the two-decimal rounding stays within half a hundredth of the index |
| ExploracionFisica.ImcCategoriaMonotona | Front_inder/src/app/components/historia/ExploracionFisica.tsx:381-386 | a larger index never falls in a lighter category |
| ExploracionFisica.ImcCategoriaBandas | Front_inder/src/app/components/historia/ExploracionFisica.tsx:381-386 | the category is "Bajo peso" iff < 18.5, "Normal" iff 18.5 up to 25, "Sobrepeso" iff 25 up to 30, "Obesidad" iff ≥ 30 |
| ExploracionFisica.RedondeoCambiaCategoria | Front_inder/src/app/components/historia/ExploracionFisica.tsx:375-386 | the category is taken after rounding: 18.496 is underweight but shows as 18.50, which is normal |
| ExploracionFisica.MarcarExploracionEfecto | Front_inder/src/app/components/historia/ExploracionFisica.tsx:67-88 | either radio sets that system's state with empty observations, changes no other system or field, and leaves step 4 blocked |
| ExploracionFisica.EscribirObservacionesEfecto | Front_inder/src/app/components/historia/ExploracionFisica.tsx:102-106 | typing (or applying a template) replaces only that system's text and keeps its state |
| ExploracionFisica.Plantillas.constructor | Front_inder/src/app/components/historia/ExploracionFisica.tsx:225-269 | no index, every template list closed, every draft and custom list empty |
| ExploracionFisica.Plantillas.ActualizarImc | Front_inder/src/app/components/historia/ExploracionFisica.tsx:369-379 | the index field becomes the rounded index of the current weight and height, or empty; nothing else changes |
| ExploracionFisica.Plantillas.ToggleTemplates | Front_inder/src/app/components/historia/ExploracionFisica.tsx:314-325 | that system's list flips and its add box closes; nothing else changes |
| ExploracionFisica.Plantillas.ToggleAddTemplate | Front_inder/src/app/components/historia/ExploracionFisica.tsx:337-342 | that system's add box flips; nothing else changes |
| ExploracionFisica.Plantillas.EscribirPlantilla | Front_inder/src/app/components/historia/ExploracionFisica.tsx:189 | that system's draft becomes the typed text |
| ExploracionFisica.Plantillas.GuardarNuevaPlantilla | Front_inder/src/app/components/historia/ExploracionFisica.tsx:344-360 | a non-blank trimmed draft is appended to that system's list only, its draft cleared and box closed; a blank draft changes nothing |
| ExploracionFisica.Plantillas.EliminarPlantillaPersonalizada | Front_inder/src/app/components/historia/ExploracionFisica.tsx:362-367 | that system's list loses exactly index i; the other lists are unchanged |
| ExploracionFisica.Plantillas.AplicarPlantilla | Front_inder/src/app/components/historia/ExploracionFisica.tsx:327-335 | the form gets the text as that system's observations and the system's list closes |
| ExploracionFisica.GuardarPlantillaEfecto | Front_inder/src/app/components/historia/ExploracionFisica.tsx:344-360 | saving changes only the saved system's list, grows it by one, and the saved text has no outer white space |
| HistoriaClinica.SistemasCompletos | Front_inder/src/app/components/HistoriaClinica.tsx:228 | the list the validator filters names each of the eight systems exactly once |
| HistoriaClinica.Indice | Front_inder/src/app/components/HistoriaClinica.tsx:228 | every system has a position in that list |
| HistoriaClinica.Set | Front_inder/src/app/components/historia/RevisionSistemas.tsx:90-96 | `{ ...obj, [s]: e }` gives `s` the new evaluation and keeps every other system |
| HistoriaClinica.Sistemas8Ext | Front_inder/src/app/components/historia/RevisionSistemas.tsx:90-106 | two evaluation objects equal on every system are equal |
| HistoriaClinica.MasGetOr | Front_inder/src/app/components/HistoriaClinica.tsx:173-175 | in two spreads in a row the later value of a field wins |
| HistoriaClinica.InicialValores | Front_inder/src/app/components/HistoriaClinica.tsx:110-163 | initially all sixteen evaluations are normal without observations, vitals FC 70, PA 120/80, FR 16, T 36.5, SpO₂ 98, no height or weight, every flag off and every list empty |
| HistoriaClinica.AplicarVacio | Front_inder/src/app/components/HistoriaClinica.tsx:173-175 | an empty patch changes nothing |
| HistoriaClinica.AplicarIdempotente | Front_inder/src/app/components/HistoriaClinica.tsx:173-175 | merging the same patch twice is merging it once |
| HistoriaClinica.AplicarCompone | Front_inder/src/app/components/HistoriaClinica.tsx:173-175 | two merges in a row are one merge of the composed patch, the later patch winning |
| HistoriaClinica.AplicarSoloRevision | Front_inder/src/app/components/HistoriaClinica.tsx:173-175 | a patch setting only the review of systems changes only that field |
| HistoriaClinica.AplicarSoloExploracion | Front_inder/src/app/components/HistoriaClinica.tsx:173-175 | a patch setting only the examination changes only that field |
| HistoriaClinica.NoEvaluados | Front_inder/src/app/components/HistoriaClinica.tsx:229-234 | the filter of unevaluated systems is empty iff every system has a state |
| HistoriaClinica.AnormalesSinObs | Front_inder/src/app/components/HistoriaClinica.tsx:236-241 | the filter of abnormal systems with blank observations is empty iff no abnormal system has blank observations |
| HistoriaClinica.EvaluadosSinObs | Front_inder/src/app/components/HistoriaClinica.tsx:318-326 | the step-4 filter is empty iff no evaluated system (normal ones included) has blank observations |
| HistoriaClinica.Paso3Iff | Front_inder/src/app/components/HistoriaClinica.tsx:227-243 | step 3 passes iff every system has a state and every abnormal one has non-blank observations |
| HistoriaClinica.Paso4SistemasIff | Front_inder/src/app/components/HistoriaClinica.tsx:308-328 | the systems part of step 4 holds iff every system is evaluated and has observations, normal ones too |
| HistoriaClinica.AlergiasCompletasIff | Front_inder/src/app/components/HistoriaClinica.tsx:207-216 | step 2's filter of incomplete allergies is empty iff every allergy whose subtypes mention Otro/Especifique has details, and non-empty iff some such allergy has blank details |
| HistoriaClinica.TodosNormalesSinFaltas | Front_inder/src/app/components/HistoriaClinica.tsx:110-163 | with every system normal neither filter of step 3 finds anything |
| HistoriaClinica.InicialPasaPaso3 | Front_inder/src/app/components/HistoriaClinica.tsx:110-163 | the initial data passes step 3 |
| HistoriaClinica.InicialNoPasa | Front_inder/src/app/components/HistoriaClinica.tsx:183-275 | the initial data fails step 1 and step 4 |
| HistoriaClinica.ExploracionSinObs | Front_inder/src/app/components/HistoriaClinica.tsx:318-328 | an examined system with blank observations blocks step 4 |
| HistoriaClinica.PasosAcotados | Front_inder/src/app/components/HistoriaClinica.tsx:364-380 | next and previous keep the step in 1..7; next advances by one iff the step validates and is below 7, otherwise stays; previous goes back iff the step is above 1 |
| HistoriaClinica.EjecutarAcotado | Front_inder/src/app/components/HistoriaClinica.tsx:364-380 | no run of next, previous and patches leaves 1..7, and the step rises at most one per event |
| HistoriaClinica.AlcanzarUltimo | Front_inder/src/app/components/HistoriaClinica.tsx:364-380 | from step 1 reaching step 7 takes at least six events |
| HistoriaClinica.Formulario.constructor | Front_inder/src/app/components/HistoriaClinica.tsx:90-106 | the wizard starts at step 1 with the initial data |
| HistoriaClinica.Formulario.UpdateFormData | Front_inder/src/app/components/HistoriaClinica.tsx:173-175 | the data becomes the old data merged with the patch; the step is unchanged |
| HistoriaClinica.Formulario.HandleNext | Front_inder/src/app/components/HistoriaClinica.tsx:364-373 | the step becomes the next-step function of the old step and the data; the data is unchanged and the step stays in 1..7 |
| HistoriaClinica.Formulario.HandlePrevious | Front_inder/src/app/components/HistoriaClinica.tsx:375-380 | the step goes back one unless it is 1; the data is unchanged |
| RevisionSistemas.EstadoChangeEfecto | Front_inder/src/app/components/historia/RevisionSistemas.tsx:89-97 | the system gets the chosen state; normal empties its observations, abnormal keeps them; no other system or field changes |
| RevisionSistemas.ObservacionesChangeEfecto | Front_inder/src/app/components/historia/RevisionSistemas.tsx:99-106 | the system keeps its state and holds the typed text; nothing else changes |
| RevisionSistemas.EstadoChangeIdempotente | Front_inder/src/app/components/historia/RevisionSistemas.tsx:89-97 | choosing the same state twice is choosing it once |
| RevisionSistemas.HandleNextIff | Front_inder/src/app/components/historia/RevisionSistemas.tsx:108-140 | the step's button proceeds iff the wizard's step-3 validation passes; otherwise it reports the unevaluated systems first, else the abnormal ones without observations, and each reported system is such |
| RevisionSistemas.ContadorEfecto | Front_inder/src/app/components/historia/RevisionSistemas.tsx:232-235 | the counter plus the unevaluated systems make eight, and the counter is 8 iff every system has a state |
| RevisionSistemas.ContadorSube | Front_inder/src/app/components/historia/RevisionSistemas.tsx:89-97 | marking a system that had no state raises the counter by exactly one |
| ComponenteAlergias.Quitar | Front_inder/src/app/components/historia/ComponenteAlergias.tsx:65 | the filter keeps exactly the elements other than the removed value |
| ComponenteAlergias.AlternarInvierte | Front_inder/src/app/components/historia/ComponenteAlergias.tsx:62-67 | ticking a subtype flips its membership and keeps every other subtype's |
| ComponenteAlergias.AlternarVacia | Front_inder/src/app/components/historia/ComponenteAlergias.tsx:62-71 | a category's list empties iff the toggled subtype was its only ticked value |
| ComponenteAlergias.AlternarEn | Front_inder/src/app/components/historia/ComponenteAlergias.tsx:61-69 | the `map` over the entries keeps the list's length |
| ComponenteAlergias.QuitarVacias | Front_inder/src/app/components/historia/ComponenteAlergias.tsx:71 | the filter of empty categories never lengthens the list |
| ComponenteAlergias.QuitarVaciasSinVacias | Front_inder/src/app/components/historia/ComponenteAlergias.tsx:71 | a list without empty categories passes the filter unchanged |
| ComponenteAlergias.QuitarVaciasUna | Front_inder/src/app/components/historia/ComponenteAlergias.tsx:71 | with one empty category the filter removes exactly that one |
| ComponenteAlergias.ValidaSinUna | Front_inder/src/app/components/historia/ComponenteAlergias.tsx:56-93 | removing one entry keeps "one entry per category, none empty" |
| ComponenteAlergias.ValidaCambiaSubtipos | Front_inder/src/app/components/historia/ComponenteAlergias.tsx:56-81 | replacing one entry's subtypes by a non-empty list keeps the invariant |
| ComponenteAlergias.ValidaAgrega | Front_inder/src/app/components/historia/ComponenteAlergias.tsx:72-80 | appending a category not yet present keeps the invariant |
| ComponenteAlergias.ToggleNueva | Front_inder/src/app/components/historia/ComponenteAlergias.tsx:72-80 | toggling in an absent category appends {tipo, [subtipo], ""} after the others |
| ComponenteAlergias.ToggleExistente | Front_inder/src/app/components/historia/ComponenteAlergias.tsx:56-71 | toggling in a present category flips the subtype there, removes the category when its list empties, and leaves the other categories as they were |
| ComponenteAlergias.ToggleValida | Front_inder/src/app/components/historia/ComponenteAlergias.tsx:56-81 | toggling keeps one entry per category and none empty |
| ComponenteAlergias.ActualizarDetallesEfecto | Front_inder/src/app/components/historia/ComponenteAlergias.tsx:83-88 | only the matching category's details change; categories, subtypes and order stay, and the invariant is kept |
| ComponenteAlergias.EliminarAlergia | Front_inder/src/app/components/historia/ComponenteAlergias.tsx:90-93 | the result keeps exactly the entries of other categories |
| ComponenteAlergias.EliminarSinTipo | Front_inder/src/app/components/historia/ComponenteAlergias.tsx:90-93 | removing an absent category changes nothing |
| ComponenteAlergias.EliminarEfecto | Front_inder/src/app/components/historia/ComponenteAlergias.tsx:90-93 | on a valid list removal drops exactly that category's one entry and keeps the rest in order |
| ComponenteAlergias.EliminarEn | Front_inder/src/app/components/historia/ComponenteAlergias.tsx:90-93 | with unique categories removal is deletion at that category's index |
| ComponenteAlergias.ContainsToLower | Front_inder/src/app/components/historia/ComponenteAlergias.tsx:95-99 | lower-casing keeps an occurrence of a substring |
| ComponenteAlergias.MencionaOtroIff | Front_inder/src/app/components/historia/ComponenteAlergias.tsx:95-99 | a subtype needs details iff it contains "Otro" or, ignoring case, "especifique" (the capitalised test is subsumed) |
| ComponenteAlergias.NecesitaDetallesConcat | Front_inder/src/app/components/historia/ComponenteAlergias.tsx:95-99 | a list needs details iff one of its parts does |
| AntecedentesMedicos.Borrador.constructor | Front_inder/src/app/components/historia/AntecedentesMedicos.tsx:42-59 | the draft starts empty with no suggestions and no error |
| AntecedentesMedicos.Borrador.CambiarCodigo | Front_inder/src/app/components/historia/AntecedentesMedicos.tsx:61-91 | the code is upper-cased; a blank code clears the name and the error; a table hit fills the name; a miss clears the name and shows the error |
| AntecedentesMedicos.Borrador.CambiarNombre | Front_inder/src/app/components/historia/AntecedentesMedicos.tsx:93-111 | the name is kept; from three non-blank characters the matches are offered, and with none the code is cleared; shorter names hide the suggestions |
| AntecedentesMedicos.Borrador.CambiarObservacion | Front_inder/src/app/components/historia/AntecedentesMedicos.tsx:353 | only the observation changes |
| AntecedentesMedicos.Borrador.ElegirFamiliar | Front_inder/src/app/components/historia/AntecedentesMedicos.tsx:523 | only the chosen relative changes |
| AntecedentesMedicos.Borrador.Vaciar | Front_inder/src/app/components/historia/AntecedentesMedicos.tsx:185-192 | after an add the draft fields and suggestion lists are empty |
| AntecedentesMedicos.NuevoPersonal | Front_inder/src/app/components/historia/AntecedentesMedicos.tsx:174-179 | the stored code is the upper-cased typed code with only white space cut from its ends, non-empty, upper-case and without outer white space; the name and observation are the draft's |
| AntecedentesMedicos.NuevoFamiliar | Front_inder/src/app/components/historia/AntecedentesMedicos.tsx:209-215 | the stored code is the one a personal entry would store; the name, relative and observation are the draft's |
| AntecedentesMedicos.CodigoGuardado | Front_inder/src/app/components/historia/AntecedentesMedicos.tsx:174-179 | upper-casing then trimming a non-blank code gives a non-empty upper-case code |
| AntecedentesMedicos.AgregarPersonal | Front_inder/src/app/components/historia/AntecedentesMedicos.tsx:165-192 | refused (list and every draft field unchanged) iff the code or the name is blank; otherwise exactly one entry is appended, the code, name and observation are emptied, the error and both suggestion lists are cleared and hidden, and the relative is kept |
| AntecedentesMedicos.AgregarFamiliar | Front_inder/src/app/components/historia/AntecedentesMedicos.tsx:195-228 | as for personal entries, and also refused without a relative; on success the relative is cleared too |
| AntecedentesMedicos.EliminarUltimoPersonal | Front_inder/src/app/components/historia/AntecedentesMedicos.tsx:231-234 | removing the entry just added gives the history back |
| AntecedentesMedicos.EliminarUltimoFamiliar | Front_inder/src/app/components/historia/AntecedentesMedicos.tsx:236-239 | removing the entry just added gives the family history back |
| AntecedentesMedicos.EliminarPersonalEfecto | Front_inder/src/app/components/historia/AntecedentesMedicos.tsx:231-234 | deleting index i removes exactly that entry (as a multiset too) and keeps the rest in order; an index out of range changes nothing |
| AntecedentesMedicos.RespuestasEfecto | Front_inder/src/app/components/historia/AntecedentesMedicos.tsx:614-758 | "Yes" sets only the flag; "No" clears the flag and the lesion description and date, the surgery detail, the allergy list or the medication |
| AntecedentesMedicos.RespuestaNoConservaPaso2 | Front_inder/src/app/components/HistoriaClinica.tsx:194-225 | answering "No" never makes step 2 fail |
| AntecedentesMedicos.RespuestaSiBloqueaPaso2 | Front_inder/src/app/components/HistoriaClinica.tsx:194-225 | answering "Yes" with nothing filled in below blocks step 2 |
| AntecedentesMedicos.AgregarCumpleHistoria | Front_inder/src/app/components/HistoriaClinica.tsx:196-199 | after an add the history is non-empty |
| PruebasComplementarias.BorradorPrueba.constructor | Front_inder/src/app/components/historia/PruebasComplementarias.tsx:32-39 | the draft starts empty with no suggestions, no error and no files |
| PruebasComplementarias.BorradorPrueba.CambiarCodigo | Front_inder/src/app/components/historia/PruebasComplementarias.tsx:43-63 | only the digits of the trimmed code are kept; from three digits a hit fills name and category, a miss shows the error and clears both; fewer digits clear both |
| PruebasComplementarias.BorradorPrueba.CambiarNombre | Front_inder/src/app/components/historia/PruebasComplementarias.tsx:66-87 | from three non-blank characters the first ten matches are offered, and with none the code and category are cleared; shorter names hide the suggestions |
| PruebasComplementarias.BorradorPrueba.SeleccionarSugerencia | Front_inder/src/app/components/historia/PruebasComplementarias.tsx:89-97 | the suggestion's code, name and category are taken and the list closes |
| PruebasComplementarias.BorradorPrueba.CambiarResultado | Front_inder/src/app/components/historia/PruebasComplementarias.tsx:299 | only the result changes |
| PruebasComplementarias.BorradorPrueba.AgregarArchivos | Front_inder/src/app/components/historia/PruebasComplementarias.tsx:99-104 | new files go after those already selected; nothing else changes |
| PruebasComplementarias.BorradorPrueba.EliminarArchivoSeleccionado | Front_inder/src/app/components/historia/PruebasComplementarias.tsx:107-109 | the selection loses exactly index i |
| PruebasComplementarias.BorradorPrueba.Vaciar | Front_inder/src/app/components/historia/PruebasComplementarias.tsx:129-137 | after an add the draft is empty |
| PruebasComplementarias.NuevaPrueba | Front_inder/src/app/components/historia/PruebasComplementarias.tsx:117-123 | the category is the draft's, or "Sin categoría" when it is empty; the name is the typed name with only white space cut from its ends and none left at them; code, result and files are the draft's |
| PruebasComplementarias.AgregarPrueba | Front_inder/src/app/components/historia/PruebasComplementarias.tsx:111-141 | added iff the name is not blank; then exactly the new test is appended, the draft emptied and the error and suggestions cleared and hidden; otherwise the form and every draft field are unchanged |
| PruebasComplementarias.EliminarPruebaEfecto | Front_inder/src/app/components/historia/PruebasComplementarias.tsx:143-146 | deleting test i removes exactly that test and keeps the others in order |
| PruebasComplementarias.EliminarArchivoPruebaEfecto | Front_inder/src/app/components/historia/PruebasComplementarias.tsx:149-160 | only test i changes, and only by losing attachment j |
| PruebasComplementarias.AgregarQuitarArchivo | Front_inder/src/app/components/historia/PruebasComplementarias.tsx:99-109 | selecting a file and removing the last one restores the selection |
| CupsDatabase.Buscar | Front_inder/src/app/components/historia/cupsDatabase.ts:211 | the key lookup finds nothing iff no entry has that key |
| CupsDatabase.BuscarEntrada | Front_inder/src/app/components/historia/cupsDatabase.ts:211 | with distinct keys every entry is found under its own key |
| CupsDatabase.CodigoLimpio | Front_inder/src/app/components/historia/cupsDatabase.ts:210 | the cleaned code holds only digits |
| CupsDatabase.CodigoLimpioIdempotente | Front_inder/src/app/components/historia/cupsDatabase.ts:210 | cleaning twice is cleaning once |
| CupsDatabase.BuscarProcedimientoClave | Front_inder/src/app/components/historia/cupsDatabase.ts:209-212 | a stored code typed as it is finds its procedure |
| CupsDatabase.FormatearCodigoCUPS | Front_inder/src/app/components/historia/cupsDatabase.ts:230-235 | a six-digit cleaned code is shown as 8 characters with dots at 2 and 5; any other is the cleaned code |
| CupsDatabase.FormatearLimpio | Front_inder/src/app/components/historia/cupsDatabase.ts:230-235 | cleaning a formatted code gives the cleaned code back |
| CupsDatabase.FormatearIdempotente | Front_inder/src/app/components/historia/cupsDatabase.ts:230-235 | formatting twice is formatting once |
| CupsDatabase.BuscarFormateado | Front_inder/src/app/components/historia/cupsDatabase.ts:209-235 | a formatted code finds the same procedure as the code it came from |
| CupsDatabase.CoincidenciasIff | Front_inder/src/app/components/historia/cupsDatabase.ts:215-224 | an entry matches iff it is in the table and its name contains the query, ignoring case |
| CupsDatabase.CoincidenciasSinMayusculas | Front_inder/src/app/components/historia/cupsDatabase.ts:216 | the case of the query does not matter |
| CupsDatabase.CoincidenciasVacia | Front_inder/src/app/components/historia/cupsDatabase.ts:215-224 | an empty query matches the whole table |
| CupsDatabase.BuscarCodigosPorNombre | Front_inder/src/app/components/historia/cupsDatabase.ts:215-227 | the loop returns the first ten matches in table order |
| CupsDatabase.BusquedaAcotada | Front_inder/src/app/components/historia/cupsDatabase.ts:226 | at most ten results, each a match from the table, and every match when there are at most ten |
| Cie11Database.Buscar | Front_inder/src/app/components/historia/cie11Database.ts:163 | the key lookup finds nothing iff no entry has that key |
| Cie11Database.BuscarEntrada | Front_inder/src/app/components/historia/cie11Database.ts:163 | with distinct keys every entry is found under its own key |
| Cie11Database.BuscarEnfermedadPorCodigo | Front_inder/src/app/components/historia/cie11Database.ts:161-164 | a name found is never empty (`|| null`) |
| Cie11Database.BuscarEnfermedadClave | Front_inder/src/app/components/historia/cie11Database.ts:161-164 | a code typed in any case finds the disease under it ("ba00" finds BA00), unless its name is empty |
| Cie11Database.BuscarEnfermedadSinMayusculas | Front_inder/src/app/components/historia/cie11Database.ts:162 | lower-casing the typed code changes nothing |
| Cie11Database.BuscarEnfermedadIff | Front_inder/src/app/components/historia/cie11Database.ts:161-164 | a code is found iff its upper-cased, trimmed form is a key with a non-empty name |
| Cie11Database.BuscarCodigosPorNombre | Front_inder/src/app/components/historia/cie11Database.ts:166-177 | the loop returns every match in table order, uncapped |
| Cie11Database.BusquedaIff | Front_inder/src/app/components/historia/cie11Database.ts:166-177 | a disease is a result iff it is in the table and its lower-cased name contains the lower-cased query; the empty query returns the whole table |
| HistoriasApi.ValidarUuid | Back_inder/app/api/v1/historias.py:151-156 | an id is accepted iff Python's `UUID` parses it, and the accepted value is the canonical lower-case form; otherwise 404 |
| HistoriasApi.ValidarUuidCanonico | Back_inder/app/api/v1/historias.py:151-156 | a canonical id, bare or in braces, is accepted as itself |
| HistoriasApi.DescripcionLesion | Back_inder/app/api/v1/historias.py:233-235 | the description starts with the lesion type (or ""), equals it iff no treatment is given, and otherwise ends with the treatment |
| HistoriasApi.ObservacionAlergia | Back_inder/app/api/v1/historias.py:262-268 | no observation iff neither description nor reaction is given; otherwise it starts with the description and ends with the reaction when one is given |
| HistoriasApi.AlergiaSoloReaccion | Back_inder/app/api/v1/historias.py:262-266 | a reaction without a description leaves " - Reaccion: " at the head of the observation |
| HistoriasApi.ObservacionMedicacion | Back_inder/app/api/v1/historias.py:279-283 | no observation iff neither duration nor indication is given; a duration puts "Duracion: d" at its head, an indication ends it |
| HistoriasApi.ObservacionVacuna | Back_inder/app/api/v1/historias.py:298-300 | an observation is stored iff a next dose is given |
| HistoriasApi.LeerPresion | Back_inder/app/api/v1/historias.py:327-335 | a diastolic value is only read with a systolic one, and a systolic one only from a text splitting into exactly two pieces on '/' |
| HistoriasApi.LeerPresionDosPartes | Back_inder/app/api/v1/historias.py:327-335 | "a/b" stores nothing when `int(a)` fails, else `int(a)` and `int(b)` (the latter possibly empty) |
| HistoriasApi.LeerPresionTresPartes | Back_inder/app/api/v1/historias.py:331-332 | a text with a second '/' stores no pressure at all |
| HistoriasApi.LeerPresionEnteros | Back_inder/app/api/v1/historias.py:327-335 | "S/D" written as two integers stores exactly S and D |
| HistoriasApi.LeerPresionParcial | Back_inder/app/api/v1/historias.py:331-336 | an integer before the '/' and a word after it store the systolic value with no diastolic one (the exception is swallowed after the first assignment) |
| HistoriasApi.Saturacion | Back_inder/app/api/v1/historias.py:347 | a saturation is stored iff one is sent and it is not 0, and then as the same number |
| HistoriasApi.ResultadoPrueba | Back_inder/app/api/v1/historias.py:357-363 | no result iff result, interpretation and observations are all missing; otherwise it starts with the result text |
| HistoriasApi.ObservacionDiagnostico | Back_inder/app/api/v1/historias.py:376-383 | no observation iff the type is missing and the observations strip to nothing; a typed diagnosis always stores one starting with '['; what is stored has no outer white space |
| HistoriasApi.DiagnosticoPorDefecto | Back_inder/app/api/v1/historias.py:89 | a diagnosis sent without a type gets "principal" and so always stores an observation |
| HistoriasApi.IndicacionesPlan | Back_inder/app/api/v1/historias.py:393-409 | no indications iff the recommendations strip to nothing and no medication, procedure or observation is given; what is stored has no outer white space |
| HistoriasApi.IndicacionesNoVacias | Back_inder/app/api/v1/historias.py:393-401 | each labelled part added survives the strip, so only the recommendations can strip away |
| HistoriasApi.PlanSeguimiento | Back_inder/app/api/v1/historias.py:403-405 | a follow-up plan is stored iff a follow-up date is given |
| HistoriasApi.FilasObligatorias | Back_inder/app/api/v1/historias.py:201-424 | every row the request writes belongs to the new history |
| HistoriasApi.CuentaFilas | Back_inder/app/api/v1/historias.py:201-424 | the request writes one row per list item, plus one for the vital signs and one for the plan when sent |
| HistoriasApi.BaseDeDatos.constructor | Back_inder/app/api/v1/historias.py:187-190 | the session starts with no histories and no rows |
| HistoriasApi.BaseDeDatos.InsertarTodas | Back_inder/app/api/v1/historias.py:201-424 | the rows go in one by one; it succeeds iff no row is refused, and then the rows are appended in order; histories untouched |
| HistoriasApi.BaseDeDatos.CrearHistoriaClinicaCompleta | Back_inder/app/api/v1/historias.py:186-458 | 201 with the new id iff no mandatory row is refused, the history then added and the rows appended in section order followed by the accepted optional ones; otherwise 400 with histories and rows as before |
| HistoriasApi.MotivoNoDecide | Back_inder/app/api/v1/historias.py:432-442 | whether a motive is sent never decides whether the request succeeds |
| HistoriaCrud.FechaOEfecto | Back_inder/app/crud/historia.py:150-157 | a valid date sent in ISO form is kept; a missing or unreadable text gives today |
| HistoriaCrud.RevisionIff | Back_inder/app/crud/historia.py:212-232 | a system with a state or observations gets its row, every row comes from such a system, and there are at most eight |
| HistoriaCrud.RevisionExtremos | Back_inder/app/crud/historia.py:212-232 | no system filled in writes no row; all eight filled in write eight rows, in the listed order |
| HistoriaCrud.PresionCompleta | Back_inder/app/crud/historia.py:236-245 | "S/D" written as two integers stores exactly S and D |
| HistoriaCrud.PresionTresPartes | Back_inder/app/crud/historia.py:241-243 | whatever follows a second '/' is ignored |
| HistoriaCrud.PresionSinDiastolica | Back_inder/app/crud/historia.py:236-245 | no text stores 120/80; "S" alone, or "S/" followed by a word, stores S with the default diastolic 80 |
| HistoriaCrud.PresionSistolicaInvalida | Back_inder/app/crud/historia.py:241-245 | a word where the systolic value goes keeps both defaults, whatever follows |
| HistoriaCrud.FilaSignos | Back_inder/app/crud/historia.py:247-258 | the vital-signs row exists iff every value sent reads as a number (heart and respiratory rates as integers) |
| HistoriaCrud.SignosPorDefecto | Back_inder/app/crud/historia.py:236-258 | with no vital sign sent the row holds 120/80, 70, 16, 36.5, 0, 0, 0 and 98 |
| HistoriaCrud.LeerSignosVitales | Back_inder/app/crud/historia.py:236-258 | the step-by-step conversion, with its caught and uncaught exceptions, yields exactly the vital-signs row function |
| HistoriaCrud.RemisionEfecto | Back_inder/app/crud/historia.py:294-312 | a referral keeps its priority or gets "Normal" when it is empty; a valid ISO date is kept, an unreadable one becomes today |
| HistoriaCrud.CondicionalesIff | Back_inder/app/crud/historia.py:150-199 | the lesion, surgery, allergy and medication rows each exist iff their flag is set and their text is non-empty |
| HistoriaCrud.CreacionEfecto | Back_inder/app/crud/historia.py:88-366 | a creation fails iff the "Abierta" state is missing or a vital sign sent is not a number; otherwise the record comes first, opened today in the "Abierta" state, and the JSON copy comes last |
| HistoriaCrud.FrecuenciaNoEntera | Back_inder/app/crud/historia.py:251 | a heart rate that is not an integer aborts the whole creation |
| HistoriaCrud.PrimeraCitaDeHoy | Back_inder/app/crud/historia.py:338-341 | the index found is the first appointment of that athlete dated today; none is found iff there is none |
| HistoriaCrud.MarcarCitaRealizada | Back_inder/app/crud/historia.py:322-348 | the appointments keep their number, and the only one that can change is the first of the athlete today, which takes the "Realizada" state |
| HistoriaCrud.CitaRealizada | Back_inder/app/crud/historia.py:322-348 | when the catalogue item and an appointment today exist, the first such appointment is marked "Realizada" |
| HistoriaCrud.EliminarEfecto | Back_inder/app/crud/historia.py:392-420 | after the deletion neither the record nor any JSON copy of it is left, and exactly the other rows remain |
| HistoriaCrud.ClaveCanonica | Back_inder/app/crud/historia.py:395-401 | a canonical id, bare or in braces, looks up the same record |
| HistoriaCrud.EliminarDosVeces | Back_inder/app/crud/historia.py:392-420 | a second deletion of the same id finds nothing and changes nothing |
| HistoriaCrud.Sesion.constructor | Back_inder/app/crud/historia.py:88 | the session holds the given catalogues and appointments and no rows |
| HistoriaCrud.Sesion.AgregarCada | Back_inder/app/crud/historia.py:129-147 | one row per item is added, in order; catalogues and appointments untouched |
| HistoriaCrud.Sesion.AgregarRevision | Back_inder/app/crud/historia.py:212-232 | appends exactly the rows of the eight systems filled in, in the listed order |
| HistoriaCrud.Sesion.AgregarSistemas | Back_inder/app/crud/historia.py:223-232 | the loop appends, in order, one review row for each listed system whose state or observations are filled in, and nothing else |
| HistoriaCrud.Sesion.AgregarCondicionales | Back_inder/app/crud/historia.py:150-199 | appends exactly the flagged lesion, surgery, allergy and medication rows |
| HistoriaCrud.Sesion.AgregarAntecedentes | Back_inder/app/crud/historia.py:129-232 | appends the rows from the personal history to the review of systems, in order |
| HistoriaCrud.Sesion.AgregarFinales | Back_inder/app/crud/historia.py:261-320 | appends the tests, diagnoses, plan, referrals and the JSON copy, in order |
| HistoriaCrud.Sesion.CrearHistoriaCompleta | Back_inder/app/crud/historia.py:88-366 | the effect is the creation function's; on success the rows are appended and the day's appointment marked, on failure everything is rolled back |
| HistoriaCrud.Sesion.EliminarHistoria | Back_inder/app/crud/historia.py:392-424 | True iff a record has the id (parsed as a UUID when it parses); then the record and its JSON copies are gone and all else stays; False changes nothing |
| ListadoDeportistas.DividirNombreUnaPalabra | Front_inder/src/app/components/ListadoDeportistas.tsx:223-225 | a one-word name fills both the given names and the surname with that word |
| ListadoDeportistas.DividirNombreVarias | Front_inder/src/app/components/ListadoDeportistas.tsx:223-225 | with several words both parts are non-empty, the surname is one word, and given names + " " + surname is the trimmed text |
| ListadoDeportistas.DividirNombreRoundTrip | Front_inder/src/app/components/ListadoDeportistas.tsx:179-225 | joining given names and a one-word surname with a space and splitting again gives them back |
| ListadoDeportistas.ApellidoCompuesto | Front_inder/src/app/components/ListadoDeportistas.tsx:179-225 | a two-word surname does not survive: its first word moves into the given names |
| ListadoDeportistas.FiltradosIff | Front_inder/src/app/components/ListadoDeportistas.tsx:265-274 | an athlete is listed iff it is loaded and the lower-cased query is a substring of its lower-cased given names, surnames or e-mail, or of its document or phone exactly as stored (so an upper-case letter there never matches); the listed athletes keep the loaded order |
| ListadoDeportistas.FiltradosVacia | Front_inder/src/app/components/ListadoDeportistas.tsx:265-274 | an empty query lists everyone |
| ListadoDeportistas.FiltradosSinMayusculas | Front_inder/src/app/components/ListadoDeportistas.tsx:265-274 | typing the query in capitals lists the same athletes |
| ListadoDeportistas.TotalPaginas | Front_inder/src/app/components/ListadoDeportistas.tsx:146 | the page count is at least 1 and is the server's count whenever that is positive |
| ListadoDeportistas.PaginasEnRango | Front_inder/src/app/components/ListadoDeportistas.tsx:385-395 | "Anterior" never goes below 1 nor "Siguiente" past the last page; from a page in range both stay in range; each moves by one when it can |
| ListadoDeportistas.GuardarSinCambios | Front_inder/src/app/components/ListadoDeportistas.tsx:179-239 | opening the editor and saving untouched sends the athlete's own names and fields back, as long as the surname is one word |
| ListadoDeportistas.Listado.constructor | Front_inder/src/app/components/ListadoDeportistas.tsx:119-130 | no athletes, empty query, page 1 of 1, nothing selected |
| ListadoDeportistas.Listado.Cargar | Front_inder/src/app/components/ListadoDeportistas.tsx:136-154 | an array replaces the list; a page object replaces the list and the page count (at least 1); an error changes nothing; the page is kept |
| ListadoDeportistas.Listado.Anterior | Front_inder/src/app/components/ListadoDeportistas.tsx:385 | the page becomes max(1, page − 1) and stays within the count; nothing else changes |
| ListadoDeportistas.Listado.Siguiente | Front_inder/src/app/components/ListadoDeportistas.tsx:395 | the page becomes min(count, page + 1), never past the count; nothing else changes |
| ListadoDeportistas.Listado.AbrirEditar | Front_inder/src/app/components/ListadoDeportistas.tsx:179-214 | the athlete is selected, the form filled with the joined names and the stored fields, and the age recomputed only when a birth date is stored |
| ListadoDeportistas.Listado.GuardarEdicion | Front_inder/src/app/components/ListadoDeportistas.tsx:216-239 | nothing is sent without a selected athlete; otherwise the update for the selected id carries the form split back into given names and surname |
| RegistroDeportista.BuscarId | Front_inder/src/app/components/RegistroDeportista.tsx:155-157 | an id is found iff a name is mapped and some item bears it, and then it is the id of such an item |
| RegistroDeportista.DatosPaso1Efecto | Front_inder/src/app/components/RegistroDeportista.tsx:145-184 | step 1 submits iff every field marked `required` is non-empty and the chosen document type and sex map to catalogue items with non-empty ids and "Activo" has one; the request carries those items' ids, the split full name and the document, birth date, phone, e-mail, address and discipline as typed |
| RegistroDeportista.RequeridoVacioNoEnvia | Front_inder/src/app/components/RegistroDeportista.tsx:276-385 | a form whose full name, phone or nationality is empty is not submitted |
| RegistroDeportista.EnvioPosible | Front_inder/src/app/components/RegistroDeportista.tsx:145-184 | a filled-in form whose choices are in the catalogues is submitted |
| RegistroDeportista.TipoDocumentoDesconocido | Front_inder/src/app/components/RegistroDeportista.tsx:151-166 | a document type the mapping does not know never gets through |
| RegistroDeportista.CiudadesDisponibles | Front_inder/src/app/components/RegistroDeportista.tsx:227 | no city without a department or for a department the table does not list; otherwise that department's cities |
| RegistroDeportista.CiudadesSoloCuatro | Front_inder/src/app/components/RegistroDeportista.tsx:49-54 | only Huila, Bogotá D.C., Antioquia and Valle del Cauca offer cities |
| RegistroDeportista.EdadFormulario | Front_inder/src/app/components/RegistroDeportista.tsx:124-139 | no age without a birth date; otherwise the completed-years age of the typed date (none when it is unreadable or in the future) |
| RegistroDeportista.Registro.constructor | Front_inder/src/app/components/RegistroDeportista.tsx:93-117 | step 1, no age, no athlete id, the default form |
| RegistroDeportista.Registro.CambiarFechaNacimiento | Front_inder/src/app/components/RegistroDeportista.tsx:124-139 | the birth date is stored and the age follows it; step and id unchanged |
| RegistroDeportista.Registro.EnviarPaso1 | Front_inder/src/app/components/RegistroDeportista.tsx:145-222 | the request sent is the step-1 data (none while a required field is empty or an id is missing); a non-empty id in the answer is stored and step 2 opens, anything else leaves step and id; the form is kept |
| RegistroDeportista.Registro.VolverPaso1 | Front_inder/src/app/components/RegistroDeportista.tsx:462 | back to step 1 with the id, the form and the age kept |
| RegistroDeportista.Registro.EscribirFormulario | Front_inder/src/app/components/RegistroDeportista.tsx:119-139 | typing into the form replaces it; the age is recomputed exactly when the birth date changes, and step and id are kept |
| RegistroDeportista.Registro.Cancelar | Front_inder/src/app/components/RegistroDeportista.tsx:229-251 | the athlete created so far, if any, is the one deleted; when that request rejects the state is unchanged, otherwise step 1, no id, the default form and no age |
| Fechas.LeerFechaIso | Back_inder/app/crud/historia.py:155 | a date read from "YYYY-MM-DD" text is one the calendar has (month 1..12, day within the month, leap years included) |
| Fechas.Cifras | Back_inder/app/api/v1/historias.py:405 | a number written with k digits, zero-padded, is exactly k digits long |
| Fechas.CifrasValor | Back_inder/app/api/v1/historias.py:405 | reading the padded digits back gives any number that fits in them |
| Fechas.FechaIso | Back_inder/app/api/v1/historias.py:405 | `isoformat` text is ten characters long |
| Fechas.FechaIsoRoundTrip | Back_inder/app/crud/historia.py:155 | reading the ISO text of a valid date gives that date back |
| Fechas.EdadCumplida | Front_inder/src/app/components/RegistroDeportista.tsx:124-139 | no age iff the birth date is after today; otherwise the age is the number of birthdays already reached: the age-th has come and the next has not |
| Fechas.EdadUnAnioDespues | Front_inder/src/app/components/RegistroDeportista.tsx:124-139 | a year later the same person is exactly one year older |
| Fechas.EdadEnCumpleanos | Front_inder/src/app/components/RegistroDeportista.tsx:131-133 | on the k-th birthday the age is k; the day before it, k − 1 |
| Fechas.EdadTexto | Front_inder/src/app/components/ListadoDeportistas.tsx:202-211 | an age is shown only for text that reads as a date |
| Fechas.EdadTextoIso | Front_inder/src/app/components/ListadoDeportistas.tsx:202-211 | a valid birth date typed in ISO form gives the age of that date |
| Uuid.Canonical | Back_inder/app/api/v1/historias.py:151-156 | the 8-4-4-4-12 grouping of 32 digits is 36 characters |
| Uuid.Parse | Back_inder/app/api/v1/historias.py:151-156 | `UUID(text)` succeeds iff, once every "urn:" and "uuid:", the outer braces and every dash are dropped, exactly 32 hex digits remain; its text is canonical |
| Uuid.CanonicalIsCanonical | Back_inder/app/models/token_descarga.py:40 | grouping 32 lower-case digits gives canonical text |
| Uuid.RemoveDashes | Back_inder/app/models/token_descarga.py:40 | dropping the dashes of the grouped form gives the digits back |
| Uuid.CanonicalRoundTrip | Back_inder/app/crud/historia.py:395-401 | canonical text parses to itself |
| Uuid.StripBraces | Back_inder/app/crud/historia.py:395-401 | one brace at each end of a text without braces at its ends is stripped |
| Uuid.BracedRoundTrip | Back_inder/app/crud/historia.py:395-401 | the braced canonical form parses to the same id |
| Uuid.DigitsParse | Back_inder/app/crud/historia.py:395-401 | the bare 32 digits, in either case, parse to their lower-case grouping |
| Text.Split | Front_inder/src/app/components/ListadoDeportistas.tsx:223 | the pieces never hold the separator, joining them gives the text back, and there is one piece iff the text has no separator |
| Text.SplitJoin | Front_inder/src/app/components/ListadoDeportistas.tsx:223 | splitting pieces joined by a separator they lack gives them back |
| Text.TrimEmptyIff | Front_inder/src/app/components/historia/ExploracionFisica.tsx:345-346 | `trim()` leaves nothing iff every character is white space |
| Text.TrimIdempotent | Back_inder/app/api/v1/historias.py:383 | stripping twice is stripping once |
| Text.ToLowerToUpper | Front_inder/src/app/components/ListadoDeportistas.tsx:266-271 | lower-casing after upper-casing is lower-casing |
| Numeros.ParsePyInt | Back_inder/app/crud/historia.py:242 | `int(text)` succeeds only on a text with something left after stripping |
| Numeros.IntToStringRoundTrip | Back_inder/app/crud/historia.py:242 | `int(str(n)) == n` |
| Numeros.ParsePyIntRejectsLetters | Back_inder/app/crud/historia.py:242-244 | a text holding a letter a..z raises in `int` |
| Numeros.ParseJsFloatNaN | Front_inder/src/app/components/historia/ExploracionFisica.tsx:389 | `parseFloat` of a text without digits is NaN |
| Numeros.ParseJsFloatDigits | Front_inder/src/app/components/historia/ExploracionFisica.tsx:389 | `parseFloat` of a digit string is its value |
| Numeros.ParseJsFloatIgnoresTail | Front_inder/src/app/components/historia/ExploracionFisica.tsx:389-403 | `parseFloat` reads the leading digits and ignores a tail that starts with neither a digit nor '.' |
| Numeros.NatToStringFloat | Back_inder/app/crud/historia.py:253-257 | `float(str(n)) == n` |

## Left out

- HTTP routing, the ORM, the PDF renderer, e-mail and the browser are not modelled. The stores are maps and sequences. The PDF renderer's success, the answers of `fetch`/axios requests and the current time are parameters.
- The fresh token (`uuid4().hex`) and the record ids the database assigns are parameters; their randomness is not modelled.
- Concurrency is not modelled. Simultaneous verify and download requests run without row locks in the source; each endpoint is modelled as one atomic step.
- Commits are not modelled. Each helper of `crud/antecedentes.py` commits on its own, so the rollback of `crear_historia_clinica_completa` cannot undo rows already committed. The model treats the request as one transaction, as the code intends; that database behaviour is outside the model.
- HistoriaCrud.EliminarEfecto, HistoriaCrud.Sesion.EliminarHistoria: `db.delete` cascades to every child table of the history (`cascade="all, delete-orphan"`); the model removes only the record and its JSON copies and says nothing of the child rows.
- Foreign-key cascades and pydantic validation of request bodies are not modelled. Request fields are taken as already typed (`Option` for `None`, a list sent as `None` as the empty list).
- The `if not pdf_buffer` branch of the download is not modelled: the renderer returns a buffer or raises, so that branch cannot be taken.
- JavaScript numbers and Python floats are modelled as exact reals. `parseFloat` and `float` are modelled on decimal notation only; exponents, `Infinity`, `nan` and Python's `_` digit separators are not modelled.
- Numeros.ParsePyInt: Python's `int` and `float` also accept `_` between digits and non-ASCII decimal digits (Arabic-Indic, full-width); the model reads only ASCII digits and treats such texts as a ValueError, so for them HistoriaCrud.CreacionEfecto, HistoriaCrud.Presion and HistoriasApi.LeerPresion describe a rejected or dropped value where the source stores a number (a heart rate of "7_2" is stored as 72).
- ExploracionFisica.Redondear2: models `toFixed(2)` as rounding to the nearest hundredth with ties upwards. It does not model binary floating-point rounding, where a tie can go either way.
- Case mapping covers ASCII letters and the Latin-1 letters whose other case is also in Latin-1. The upper-case mapping leaves ß, ÿ and µ unchanged, where `toUpperCase` gives "SS", "Ÿ" and "Μ"; other Unicode case rules are not modelled. String lengths count code points, not JavaScript's UTF-16 units.
- Fechas.EdadCumplida: works on the decoded (year, month, day). `new Date("YYYY-MM-DD")` is UTC midnight read back in local time, which puts the birthday a day early west of UTC; that shift is not modelled. Other text formats `Date` accepts are not modelled either; they read as no date.
- Fechas.LeerFechaIso: reads the "YYYY-MM-DD" form only. Any other form, including those newer Python versions accept ("YYYYMMDD", week dates), reads as invalid.
- Uuid.Parse: models the checks `UUID(text)` makes, and does not model the hexadecimal-integer leniencies of the final `int(hex, 16)` (a sign or `_` inside the digits).
- The contents of the CUPS and ICD-11 tables are not reproduced; a table is a parameter listing its entries in enumeration order. `buscarPorCodigoParcial`, which `AntecedentesMedicos.tsx` imports but `cie11Database.ts` does not export, is a parameter.
- The predefined observation templates (`plantillasPredefinidas`) are not reproduced. Templates are texts the examination step applies.
- Alert and toast texts are modelled as named values, not as their Spanish wording.
- The `localStorage` autosave of the wizard, the custom events between components and the resetting of the file input through a React ref are not modelled.
- ExploracionFisica.Plantillas.AplicarPlantilla, ExploracionFisica.EscribirObservacionesEfecto: `aplicarPlantilla` and the observations textarea handler assign into the nested examination object of a shallow copy, in place, before the merge. The model builds a new value, so aliasing between the old and the new form state is not captured.
- DescargaSegura.Emitir: the path id is read by the rules of Python's `UUID(text)`. The database's own reading of uuid text is not modelled where it differs on unusual spellings (a "urn:uuid:" prefix, dashes in other places).
- `VacunasConArchivos` and the other vaccine and file components are not part of this model.
- The examination-systems field of the form is never written by `crud/historia.py` (only its JSON copy keeps it); the model follows the code.
- HistoriasApi.BaseDeDatos.CrearHistoriaClinicaCompleta: a failure while saving the motive or the examination is caught and logged, but it can leave the session unusable for the final commit. That database behaviour is not modelled; the model commits the rest. The flush of the history record itself is never refused in the model, so the 400 answer to a failure there is not modelled.
- Unset optional fields of the registration form are modelled as "", where React Hook Form may leave them `undefined`; both are falsy in every test the form makes.
- ListadoDeportistas.Listado.Cargar: the page is not clamped to a smaller page count the server returns; the model keeps that behaviour and promises only page ≥ 1.
- RegistroDeportista.CiudadesDisponibles: "Bogotá D.C." has cities in the table but is not among the departments the form offers; the model keeps the table as written.

## Findings

| source | as written | input that shows it | evidently intended | confidence | as-written member | corrected member |
|---|---|---|---|---|---|---|
| Front_inder/src/app/components/historia/ExploracionFisica.tsx:398-431 | stage 1 needs a systolic in the closed range 130..139 or a diastolic above 80 up to 89, and elevated a systolic in 120..129; these ranges leave gaps for the fractional readings `parseFloat` accepts | "139.5/70", "129.5/70" and "110/89.5" are classified normal, while 139/70 is stage 1, 129/70 elevated and 110/89 stage 1 | half-open ranges: stage 1 below 140 / 90, elevated below 130 | not executed | ExploracionFisica.ClasificarTAEscritaHuecos | ExploracionFisica.ClasificarTAMonotona |

The alert the examination step shows (`ExploracionFisica.EvaluarTA`) keeps the chain as written; the corrected chain `ExploracionFisica.ClasificarTA` stands beside it with its monotonicity proved, and `ExploracionFisica.ClasificarTAEnteros` shows the two agree on whole-number readings.

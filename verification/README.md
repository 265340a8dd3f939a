# registro_activos — a Dafny model of the simulator's logic

The system is a small crypto-asset simulator. An Express/MongoDB backend keeps
three collections:

- `activos`: asset names;
- `comportamientos`: for each event, the assets a principal asset's rise or fall
  drags along;
- `historial`: one document `{hora, activo, cambio}` per half-hour bucket and asset.

Browser pages load these collections, offer them in forms and paint an assets
× 48 half-hour board with up/down arrows.

The model keeps the logic under that glue and proves what it promises:

- **History store** (`historial_controller.dfy`). The collection is a sequence
  of documents in the `HistorialCollection` class.
  - A read (`GetHistorial`) regroups the documents into hora → activo → cambio,
    and the last document scanned wins.
  - A registration (`RegistrarCambio`) validates `{hora, cambios}`, then runs one
    keyed upsert per entry (`UpdateOne`, in a `BulkWrite` loop). Each upsert
    rewrites the first matching document or appends a new one. The whole table
    is then re-read.
  - Each method is proved against a specification function (`Group`, `Upsert`,
    `ApplyBatch`, `Registrar`). The lemmas cover read-after-write, "nothing
    else changes", the uniqueness invariant, idempotence and order
    independence.
- **Asset registry and event catalog** (`activos_controller.dfy`,
  `comportamientos_controller.dfy`). Both are append-only collections with the
  handlers' validation. The catalog listing is the object built by assigning
  each document's `datos` under its `evento`.
- **Half-hour board** (`half_hour_board.dfy`). It covers the 48
  `YYYY-MM-DDTHH:mm` labels of a day, the glyph rule of a cell, and the
  assets × labels grid. The simulator and the history page share it.
- **History page** (`historial_page.dfy`). It covers `filtrarPorFecha`, the
  empty-history guard and the page's load/reset behaviour.
- **Simulator page** (`simulador_page.dfy`). It covers the three-level impact
  lookup, the registration request, the selects and the load/reset behaviour.
  This models `frontend/js/script.js`. `frontend/script.js` holds the same logic
  without the hour select, so the same members model it. The table cites the
  newer script; the older one's counterparts are:
  - `ImpactLookup` at frontend/script.js:71;
  - `BuildRegistro` at frontend/script.js:58-78;
  - `Simulador.LlenarSelects` at 16-27;
  - `Simulador.CargarDesdeServidor` at 30-41;
  - `Simulador.RegistrarConImpactos` at 45-90;
  - `GenerarHoras` at 95-111;
  - `Simulador.RenderizarTabla` at 117-176, with the glyph rule of `CellGlyph` at 160-165;
  - `Simulador.CargarDatosIniciales` at 179-200.
- The half-hour labels, the glyph rule and the grid shape are shared. They are
  cited at `frontend/historial.js`; the simulator's copies are
  frontend/js/script.js:56-72 for the labels, 212-217 for the glyph and 187-224
  for the grid.
- **Behaviour pages** (`crear_comportamiento.dfy`, `ver_comportamientos.dfy`).
  They cover the candidate filter, the form transitions, the `impactos`/`datos`
  payload, `flechaTipo` and `generarListaActivos`.
- **Flows** (`flows.dfy`). This is where the parts meet:
  - the simulator's registration call cannot reach `registrarCambio`: the path
    differs, and the body has no `cambios`;
  - a behaviour created on the form comes back from the simulator's lookup;
  - a registered change shows on the board.
- **Seed fixture** (`seed_data.dfy`). It holds the seed loader's catalog as a
  concrete value. A lemma shows that the listing returns a seeded object
  unchanged.

The foundations are:

- `js_object.dfy`: JavaScript objects as ordered dictionaries. `obj[k] = v`
  keeps the position of an existing key and appends a new one.
- `js_string.dfy`: `String(n)`, `padStart`, `slice`, `trim`,
  `startsWith` and `toLowerCase() === "sube"`.
- `json.dfy`: JSON values, JavaScript truthiness, `||`, member access,
  `Object.keys` and `Object.entries`.

How the code behaves where the pieces meet:

- Both simulator scripts post `{hora, activo, cambio, impactos}` to
  `/api/registro`. The backend serves `{hora, cambios}` at
  `/api/historial/registro`, and no code merges the primary change with its
  impacts. `Flows.ClientPathIsNotRouted` and `Flows.ClientBodyIsRejected`
  state this mismatch.
- `bulkWrite` applies the upserts in entry order.
  `HistorialController.RegistrarOrderIndependent` proves that the order does
  not change the reply, because entry keys are distinct.
- On a failed load the simulator resets the history to `{}` and both the
  assets and the catalog to empty. The history page resets only its asset
  list and keeps the rest of its state.
- The impact sub-maps are not constrained to the branch direction. The seed's
  "Sube" branch for Bitcoin lowers Ripple (`SeedData.SubeBranchLowersRipple`).

Outside effects are parameters of the methods:

- a server reply is an `Option` (`None` for a failed request);
- the day whose labels are generated is a `Day` (today, or the day typed in
  the date input);
- form values are strings.

## Model

| member | source | states |
|---|---|---|
| HistorialController.GroupHoras | backend/controllers/historialController.js:30-34 | the read-out table has a bucket for `hora` exactly when some stored document has that `hora` |
| HistorialController.GroupLookup | backend/controllers/historialController.js:31-34 | `table[hora][activo]` is the `cambio` of the last document scanned for that pair, undefined when there is none |
| HistorialController.LatestIsLastMatch | backend/controllers/historialController.js:33 | the reference reading is undefined iff no document matches, and otherwise it is the `cambio` of the last matching document |
| HistorialController.LatestSnoc | backend/controllers/historialController.js:33 | scanning one more document makes it win for its own key and changes no other key |
| HistorialController.FirstMatch | backend/controllers/historialController.js:72-74 | the upsert filter finds the first document with `{hora, activo}`, or none |
| HistorialController.UpsertFrame | backend/controllers/historialController.js:72-74 | an upsert leaves every document with another key in place and unchanged, adds at most one document, and stores `{hora, activo, cambio}` |
| HistorialController.UpsertKeepsUnique | backend/controllers/historialController.js:72-74 | an upsert never creates a second document for a `(hora, activo)` pair |
| HistorialController.UpsertLatest | backend/controllers/historialController.js:72-74 | on a store with unique keys, the upserted pair reads back `cambio` and every other pair reads as before |
| HistorialController.UpsertNoop | backend/controllers/historialController.js:72-74 | an upsert whose document already holds `cambio` changes nothing |
| HistorialController.DuplicateHidesUpsert | backend/controllers/historialController.js:72-74 | when two documents share a key, the upsert rewrites the first while the read-out shows the second, so uniqueness is what makes read-after-write hold |
| HistorialController.BatchKeepsUnique | backend/controllers/historialController.js:70-79 | a batch keeps at most one document per `(hora, activo)` |
| HistorialController.BatchLatest | backend/controllers/historialController.js:70-79 | after a batch, each asset of the batch reads its entry at `hora`, and every other pair reads as before |
| HistorialController.BatchNoop | backend/controllers/historialController.js:70-79 | a batch whose entries are all stored already changes nothing |
| HistorialController.BatchIdempotent | backend/controllers/historialController.js:70-79 | applying the same batch twice leaves the same store as applying it once |
| HistorialController.RegistrarRejectsIncomplete | backend/controllers/historialController.js:60-62 | a missing or empty `hora`, or a missing, `null` or non-object `cambios`, gets the 400 message and no write |
| HistorialController.RegistrarEmptyBatch | backend/controllers/historialController.js:79-90 | an empty `cambios` writes nothing and returns the current table |
| HistorialController.RegistrarReadAfterWrite | backend/controllers/historialController.js:70-90 | the returned table has `historial[hora][activo] == cambio` for every entry of `cambios`, and every other pair reads as before the request |
| HistorialController.RegistrarIdempotent | backend/controllers/historialController.js:70-90 | sending the same request twice gives the same store and the same reply as sending it once |
| HistorialController.RegistrarOrderIndependent | backend/controllers/historialController.js:70 | two `cambios` with the same entries in different orders return the same reading for every pair |
| Json.ObjectEntriesDistinct | backend/controllers/historialController.js:70 | `Object.entries(cambios)` has distinct keys for an array, a string, a boolean or a number, and for an object whose fields are distinct |
| HistorialController.HistorialCollection.GetHistorial | backend/controllers/historialController.js:20-42 | the `forEach` over the documents builds exactly the grouped table |
| HistorialController.HistorialCollection.UpdateOne | backend/controllers/historialController.js:71-75 | the scan-and-upsert keeps keys unique and leaves the store as specified by `Upsert` |
| HistorialController.HistorialCollection.BulkWrite | backend/controllers/historialController.js:79 | running the upserts one by one keeps keys unique and leaves the store as specified by `ApplyBatch` |
| HistorialController.HistorialCollection.RegistrarCambio | backend/controllers/historialController.js:56-95 | the handler's new store and reply are those of `Registrar`, and keys stay unique |
| ActivosController.Nombres | backend/controllers/activosController.js:23 | the listing has one name per document, in collection order |
| ActivosController.NombresAfterInsert | backend/controllers/activosController.js:58 | after an insertion the listing is the old listing followed by the new name |
| ActivosController.ActivosCollection.GetActivos | backend/controllers/activosController.js:14-31 | GET returns each document's `nombre`, in collection order |
| ActivosController.ActivosCollection.CreateActivo | backend/controllers/activosController.js:45-66 | a falsy `nombre` gets 400 "Falta el nombre" and no change; otherwise exactly one document is appended, duplicates allowed |
| ComportamientosController.Catalog | backend/controllers/comportamientosController.js:26-29 | the listing object never holds a key twice |
| ComportamientosController.LastDatos | backend/controllers/comportamientosController.js:28 | reference reading: the `datos` of the last document named `evento`, or none when no document has that name |
| ComportamientosController.CatalogIsLastDocument | backend/controllers/comportamientosController.js:26-29 | the listing maps each event name to the `datos` of the last document scanned with that name |
| ComportamientosController.CatalogAfterInsert | backend/controllers/comportamientosController.js:26-29 | after an insertion the new event reads its `datos`, other events are unchanged, and the key is appended only when it is new |
| ComportamientosController.ComportamientosCollection.GetComportamientos | backend/controllers/comportamientosController.js:17-37 | the `forEach` builds exactly the catalog of the documents |
| ComportamientosController.ComportamientosCollection.CreateComportamiento | backend/controllers/comportamientosController.js:56-75 | a falsy `evento` or `datos` gets 400 "Faltan campos" and no change; otherwise `{evento, datos}` is appended with `datos` stored verbatim |
| HalfHourBoard.Labels | frontend/historial.js:28-36 | the label list has one label per slot |
| HalfHourBoard.LabelsIndex | frontend/historial.js:28-36 | slot `i` of the list is the label of slot `i` |
| HalfHourBoard.Pad2Value | frontend/historial.js:31-34 | a two-digit padded field reads back as its number |
| HalfHourBoard.DateTextLength | frontend/historial.js:30-32 | a four-digit year, month and day give a ten-character date |
| HalfHourBoard.ClockTextValue | frontend/historial.js:33-34 | slot `i` writes `HH:mm` with a colon, which reads back as `30 * i` minutes after midnight |
| HalfHourBoard.LabelShape | frontend/historial.js:28-35 | a label has 16 characters, starts with the date, then `T`, and characters 11–16 are its `HH:mm` at `30 * i` minutes |
| HalfHourBoard.LabelsDistinct | frontend/historial.js:28-35 | the 48 labels of a day, and their headers, are pairwise different |
| HalfHourBoard.GenerarHoras | frontend/historial.js:14-39 | the loop pushes exactly the 48 labels of the day, in slot order |
| HalfHourBoard.CellGlyph | frontend/historial.js:115-117 | a cell shows up iff the stored value is "Sube", down iff it is "Baja", and blank when the bucket or asset is missing |
| HalfHourBoard.Headers | frontend/historial.js:90-95 | one header per label, characters 11–16 of it |
| HalfHourBoard.Cells | frontend/historial.js:113-121 | one cell per label, the glyph of the table at that label and asset |
| HalfHourBoard.Rows | frontend/historial.js:104-124 | one row per asset, in list order, each with its asset's cells |
| HalfHourBoard.BoardShape | frontend/historial.js:87-124 | the grid has one column per label and one row per asset in list order, with the glyph rule in every cell |
| HalfHourBoard.BoardDependsOnShownBuckets | frontend/historial.js:113-117 | two tables that agree on the displayed buckets give the same board |
| HistorialPage.KeepPrefixed | frontend/historial.js:52-58 | the filtered object is no larger than the input, and each of its entries is an input entry whose key starts with the date |
| HistorialPage.KeepPrefixedKeys | frontend/historial.js:54-56 | the filtered object has exactly the input keys that start with the date |
| HistorialPage.KeepPrefixedDistinct | frontend/historial.js:52-58 | filtering keeps keys distinct |
| HistorialPage.KeepPrefixedGet | frontend/historial.js:52-58 | a kept key maps to its input value and every other key is absent, so the result is a sub-object |
| HistorialPage.KeepPrefixedIdempotent | frontend/historial.js:52-58 | filtering twice by the same date equals filtering once |
| HistorialPage.KeepPrefixedEverything | frontend/historial.js:54-56 | every key starts with the empty text, so filtering by it keeps everything |
| HistorialPage.FiltrarPorFecha | frontend/historial.js:49-59 | no date returns the history itself; otherwise the loop builds exactly the prefix-filtered object |
| HistorialPage.FilterKeepsDayBoard | frontend/historial.js:173-181 | filtering by the date whose labels are shown does not change the rendered board |
| HistorialPage.Vista.RenderFromData | frontend/historial.js:69-128 | the page shows the board of the day's 48 labels over the given history |
| HistorialPage.Vista.CargarActivos | frontend/historial.js:134-143 | the downloaded list, or the empty list on failure |
| HistorialPage.Vista.AplicarFiltroYRenderear | frontend/historial.js:173-181 | with an empty history nothing is rendered; otherwise the filtered history is shown |
| HistorialPage.Vista.CargarHistorialServidor | frontend/historial.js:149-178 | a failed download leaves the history and table as they were; a successful one replaces the history, and shows it when it is non-empty, while an empty one leaves the old table on screen |
| SimuladorPage.ImpactLookup | frontend/js/script.js:142 | when every level is an object, the lookup returns the value at `[evento][activo][cambio]` if it is truthy (an array, a string, a number or an object, an empty one included) and `null` if it is falsy; it returns `null` when a level is missing |
| SimuladorPage.ImpactLookupFound | frontend/js/script.js:142 | with every level an object, the impacts are returned unchanged |
| SimuladorPage.BodyJson | frontend/js/script.js:149 | the posted body has exactly the keys `hora`, `activo`, `cambio`, `impactos`, in that order, and each reads back the request's own value |
| SimuladorPage.BodyJsonOnlyItsKeys | frontend/js/script.js:149 | any key of a length other than those four (such as `cambios`) reads undefined on the posted body |
| SimuladorPage.BuildRegistro | frontend/js/script.js:128-149 | no request iff some field is empty; otherwise the form values unchanged plus the looked-up impacts |
| SimuladorPage.Simulador.constructor | frontend/js/script.js:12-16 | empty globals, and the labels of today |
| SimuladorPage.Simulador.LlenarSelects | frontend/js/script.js:37-48 | the asset select lists the assets, and the event select lists exactly the catalog's top-level keys |
| SimuladorPage.Simulador.LlenarHorasSelect | frontend/js/script.js:81-91 | one option per label, with the full label as value and its `HH:mm` slice as text |
| SimuladorPage.Simulador.RenderizarTabla | frontend/js/script.js:168-228 | the table shown is the board of the assets over today's labels and the current history |
| SimuladorPage.Simulador.CargarDatosIniciales | frontend/js/script.js:234-255 | both lists on success; if either download fails, both are reset to empty; the selects are refilled |
| SimuladorPage.Simulador.CargarDesdeServidor | frontend/js/script.js:97-108 | the downloaded history, or `{}` on failure, is shown |
| SimuladorPage.Simulador.RegistrarConImpactos | frontend/js/script.js:115-161 | an empty field sends nothing; otherwise the body is `BuildRegistro`'s, and only a successful reply replaces the history and table |
| CrearComportamiento.Candidates | frontend/js/crear-comportamiento.js:37 | an asset is offered iff it is in the list and is not the principal |
| CrearComportamiento.CandidatesSingle | frontend/js/crear-comportamiento.js:37 | a one-asset list offers that asset exactly when it is not the principal |
| CrearComportamiento.CandidatesAppend | frontend/js/crear-comportamiento.js:37 | the filter keeps list order: the candidates of a concatenation are the front's followed by the back's |
| CrearComportamiento.CandidatesCount | frontend/js/crear-comportamiento.js:37 | every copy of the principal is dropped, and every other asset is kept as often as the list holds it |
| CrearComportamiento.CandidatesWithoutPrincipal | frontend/js/crear-comportamiento.js:37 | without the principal in the list, all assets are offered in list order |
| CrearComportamiento.BlankSelects | frontend/js/crear-comportamiento.js:37-52 | one select per candidate, each on "Sin efecto" |
| CrearComportamiento.OnTipoChange | frontend/js/crear-comportamiento.js:30-78 | the panel is shown iff both direction and principal are set, with one blank select per candidate; the badge follows the same rule |
| CrearComportamiento.OnPrincipalChange | frontend/js/crear-comportamiento.js:61-66 | changing the principal clears the direction, the impact selects, the panel and the badge |
| CrearComportamiento.Impactos | frontend/js/crear-comportamiento.js:95-100 | every entry of `impactos` comes from a select whose value is not "Sin efecto" |
| CrearComportamiento.LastChoice | frontend/js/crear-comportamiento.js:96-99 | reference reading: the last non-empty choice for an asset, or none when every select for it is on "Sin efecto" |
| CrearComportamiento.ImpactosReads | frontend/js/crear-comportamiento.js:95-100 | `impactos` holds exactly the assets with an effect chosen, each with its last choice |
| CrearComportamiento.BuildImpactos | frontend/js/crear-comportamiento.js:95-100 | the `forEach` builds exactly `Impactos` |
| CrearComportamiento.PayloadShape | frontend/js/crear-comportamiento.js:104-111 | the body has the trimmed event name, and `datos` has exactly one key (the principal) mapping to exactly one key (the direction) mapping to `impactos` |
| CrearComportamiento.Submit | frontend/js/crear-comportamiento.js:88-111 | the submitted body is the payload of the trimmed name, the form's principal and direction, and `Impactos` of its selects |
| CrearComportamiento.PrincipalChangeForgetsImpacts | frontend/js/crear-comportamiento.js:30-66 | after a principal change, no earlier effect reaches the payload, neither right away nor after a direction is chosen again and the panel is rebuilt |
| CrearComportamiento.FreshPanelSendsNoImpacts | frontend/js/crear-comportamiento.js:44-47 | a freshly shown panel contributes no impacts |
| VerComportamientos.FlechaTipo | frontend/js/ver-comportamientos.js:33-36 | blank iff the type is empty, up iff it is "sube" in any letter case, down for any other non-empty type |
| VerComportamientos.TipoPrincipal | frontend/js/ver-comportamientos.js:59 | a missing or falsy `tipoPrincipal` gives "", a non-empty string gives itself, and `null` efectos or a truthy non-string type is the throwing case |
| VerComportamientos.MissingTipoShowsNoArrow | frontend/js/ver-comportamientos.js:59 | a missing `tipoPrincipal` shows no arrow |
| VerComportamientos.SectionKeys | frontend/js/ver-comportamientos.js:7-17 | a section is emitted iff its sub-object is truthy with at least one key |
| VerComportamientos.ItemPieces | frontend/js/ver-comportamientos.js:11-13 | one item per key, in key order |
| VerComportamientos.AppendSection | frontend/js/ver-comportamientos.js:8-14 | the loop appends the heading, one item per key, then the end |
| VerComportamientos.GenerarListaActivos | frontend/js/ver-comportamientos.js:4-28 | the accumulated markup is the "Suben" section when emitted, then the "Bajan" section when emitted |
| VerComportamientos.ListaItems | frontend/js/ver-comportamientos.js:11-23 | the up items are exactly the keys of `Sube` in order, and the down items exactly those of `Baja`; values are not shown |
| VerComportamientos.ListaEmpty | frontend/js/ver-comportamientos.js:5-27 | the result is empty iff neither sub-object is non-empty |
| VerComportamientos.SubenFirst | frontend/js/ver-comportamientos.js:7-25 | every rising asset is listed before every falling one |
| SeedData.SeedDocs | backend/cargaDatosMongo.js:82-85 | one document `{evento, datos}` per seed entry, in entry order |
| SeedData.SeedRoundTrip | backend/cargaDatosMongo.js:82-86 | listing a catalog seeded from an object gives that object back, with keys in the same order |
| SeedData.SubeBranchLowersRipple | backend/cargaDatosMongo.js:29 | the "Sube" branch for Bitcoin maps Ripple to "Baja" |
| SeedData.HalvingHasNoBajaBranch | backend/cargaDatosMongo.js:56-60 | a branch the seed does not define gives `null` impacts |
| SeedData.RegulacionLists | backend/cargaDatosMongo.js:39-44 | the seed's Regulación entry maps Bitcoin to this branch, and its card lists Ripple rising and Bitcoin, Ethereum and Cardano falling, with no arrow for its principal |
| SeedData.RegulacionBranch | backend/cargaDatosMongo.js:39-44 | the seed's Regulación event has Bitcoin as its one principal, Ripple on the rising branch and Bitcoin, Ethereum and Cardano on the falling one |
| Flows.ClientPathIsNotRouted | backend/routes/historial.js:7 | the simulator's `/api/registro` is not `/api/historial` + `/registro` |
| Flows.StringField | backend/controllers/historialController.js:57 | a string field of a body is read as its text, and anything else as absent |
| Flows.ClientBodyIsRejected | backend/controllers/historialController.js:57-62 | the simulator's body has no `cambios`, so `registrarCambio` answers 400 and writes nothing |
| Flows.FormBehaviourReachesSimulator | frontend/js/crear-comportamiento.js:104-117 | a form payload with a non-blank name passes create's validation, and once stored the simulator's lookup returns exactly the chosen impacts |
| Flows.RegisteredChangeShowsOnBoard | backend/controllers/historialController.js:70-90 | a registered "Sube" or "Baja" shows as the up or down arrow in that asset's cell under that label |

## Left out

- Express wiring (`backend/server.js`, `backend/routes/*.js`) is not modelled. The only part kept is the registration path, in `Flows`.
- The MongoDB client, connection and 500 storage errors are not modelled. Collections are in-memory sequences, and a storage failure is not represented.
- `bulkWrite` atomicity and concurrent writers are not modelled. A batch is single-threaded sequential upserts.
- The seed loader's I/O is not modelled. Its catalog literal is a fixture.
- `frontend/js/crear-activo.js` is not part of this model. Its trim plus non-empty check mirrors `createActivo`'s validation.
- DOM and async plumbing are not modelled: element creation, `innerHTML`, `fetch`, `alert`, listeners and the missing-element early returns. Pages are classes whose fields hold what the selects and the table show, and server replies are parameters.
- HTML markup and escaping are not modelled. Cells are glyphs, and the list markup is a sequence of heading, item and end pieces.
- The card loop of `cargarComportamientos` is not modelled beyond `TipoPrincipal`, `FlechaTipo` and `GenerarListaActivos`.
- `form.reset()` after a successful create is not modelled, because it restores the HTML defaults of the selects, which are not part of the scripts.
- HalfHourBoard.GenerarHoras: JavaScript `Date` arithmetic is not modelled. The model has no time zones, no DST shift inside a day, and no rollover of `new Date(y, m - 1, d)` for an out-of-range date. The `fechaFiltro` text is not parsed; the day is a parameter. Labels are `i / 2` hours and `(i % 2) * 30` minutes.
- Numbers are integers; floating point is not modelled.
- Objects keep insertion order. The JavaScript rule that integer-like keys enumerate first is not modelled, and neither are prototype keys.
- `toLowerCase` is modelled on ASCII letters only. This is exact for the comparison with "sube".
- HistorialController.RegistrarCambio: `hora` is modelled as a string or absent. A truthy non-string `hora` (a number, say) is treated as absent, whereas the handler would accept it.
- ActivosController.ActivosCollection.CreateActivo: a truthy non-string `nombre` is treated as absent, whereas the handler would store it.
- ComportamientosController.ComportamientosCollection.CreateComportamiento: a truthy non-string `evento` is treated as absent, whereas the handler would store it.
- SimuladorPage.ImpactLookup: a level that is an array or a string reads every property as undefined. JavaScript would index into it or read its `length`.
- SimuladorPage.Simulador.RegistrarConImpactos: a successful reply whose body lacks `historial` is not modelled.
- VerComportamientos.GenerarListaActivos: a `null` argument yields the empty list, whereas JavaScript throws. On the page it is only called after `TipoPrincipal` has already thrown on `null`.
- HistorialPage.FiltrarPorFecha and the page methods require distinct keys. Every JavaScript object has them; the sequence representation does not enforce it.
- HistorialController.RegistrarReadAfterWrite, HistorialController.RegistrarIdempotent, HistorialController.RegistrarOrderIndependent and Flows.RegisteredChangeShowsOnBoard require distinct fields when `cambios` is an object, for the same reason. For an array `Json.ObjectEntriesDistinct` proves the index keys distinct, so nothing is required there.

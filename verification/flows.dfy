/**
 * How the pages and the controllers meet: the simulator's registration call
 * against the backend route, the behaviour form against the catalog and the
 * simulator's lookup, and a registered change on the board.
 */
module Flows {
  import opened Options
  import opened JsObject
  import opened JsString
  import opened Json
  import opened Api
  import opened HalfHourBoard
  import opened HistorialController
  import opened ComportamientosController
  import opened SimuladorPage
  import opened CrearComportamiento

  /** Where both simulator scripts post a registration. */
  const ClientRegistroPath := "/api/registro"

  /** Where the backend handles one: the `/api/historial` mount plus the router's `/registro`. */
  const BackendRegistroPath := "/api/historial" + "/registro"

  /** The simulator posts to a path the backend does not route to `registrarCambio`. */
  lemma ClientPathIsNotRouted()
    ensures ClientRegistroPath != BackendRegistroPath
  {
    assert |ClientRegistroPath| != |BackendRegistroPath|;
  }

  /** A string field of a request body: its text, or `None` when it is absent or not a string. */
  function StringField(body: Json, k: string): (r: Option<string>)
    ensures r.Some? <==> Member(body, k).Some? && Member(body, k).value.Str?
    ensures r.Some? ==> Member(body, k) == Some(Str(r.value))
  {
    match Member(body, k)
    case Some(Str(s)) => Some(s)
    case _ => None
  }

  /**
   * Even at the right path, the simulator's body `{hora, activo, cambio,
   * impactos}` has no `cambios`, so `registrarCambio` answers 400 and writes
   * nothing.
   */
  lemma ClientBodyIsRejected(rs: seq<Record>, b: RegistroBody)
    ensures var body := BodyJson(b);
            Registrar(rs, StringField(body, "hora"), Member(body, "cambios"))
            == Registro(rs, Rejected(HistorialController.MissingFields))
  {
    var body := BodyJson(b);
    BodyJsonOnlyItsKeys(b, "cambios");
    RegistrarRejectsIncomplete(rs, StringField(body, "hora"), None);
  }

  /**
   * A behaviour created on the form with a non-blank name passes the
   * backend's validation, and once stored the simulator's lookup for its
   * principal and direction returns exactly the impacts chosen on the form.
   */
  lemma FormBehaviourReachesSimulator(docs: seq<BehaviorDoc>, evento: string, principal: string, tipo: string,
                                      selects: seq<ImpactSelect>)
    requires Trim(evento) != ""
    ensures var body := Payload(evento, principal, tipo, Impactos(selects));
            && StringField(body, "evento") == Some(Trim(evento))
            && Member(body, "datos").Some? && Truthy(Member(body, "datos").value)
            && ImpactLookup(Catalog(docs + [BehaviorDoc(Trim(evento), Member(body, "datos").value)]),
                            Trim(evento), principal, tipo)
               == Obj(Impactos(selects))
  {
    var imp := Impactos(selects);
    PayloadShape(evento, principal, tipo, imp);
    var porTipo := [(tipo, Obj(imp))];
    var porActivo := [(principal, Obj(porTipo))];
    var body := Payload(evento, principal, tipo, imp);
    assert Member(body, "datos") == Some(Obj(porActivo));
    CatalogAfterInsert(docs, Trim(evento), Obj(porActivo));
    ImpactLookupFound(Catalog(docs + [BehaviorDoc(Trim(evento), Obj(porActivo))]), Trim(evento), principal, tipo,
                      porActivo, porTipo, imp);
  }

  /**
   * A change registered for an asset at an hour shows on the board: the
   * cell of that asset under that label has the up arrow for "Sube" and the
   * down arrow for "Baja".
   */
  lemma RegisteredChangeShowsOnBoard(rs: seq<Record>, hora: Option<string>, cambios: Option<Json>,
                                     activos: seq<string>, horas: seq<string>, i: nat, j: nat)
    requires UniqueKeys(rs) && RequestIsComplete(hora, cambios)
    requires (cambios.value.Obj? ==> DistinctKeys(cambios.value.fields))
    requires i < |activos| && j < |horas| && horas[j] == hora.value
    ensures var t := Registrar(rs, hora, cambios).response.historial;
            var cell := RenderBoard(activos, horas, t).rows[i].cells[j];
            && (Get(ObjectEntries(cambios.value), activos[i]) == Some(Str("Sube")) ==> cell == Up)
            && (Get(ObjectEntries(cambios.value), activos[i]) == Some(Str("Baja")) ==> cell == Down)
  {
    RegistrarReadAfterWrite(rs, hora, cambios, hora.value, activos[i]);
    BoardShape(activos, horas, Registrar(rs, hora, cambios).response.historial, i, j);
  }
}

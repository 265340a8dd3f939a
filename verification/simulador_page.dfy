/**
 * The simulator page: it loads the assets and the event catalog, offers
 * them with the 48 half-hour labels in its selects, builds the registration
 * request (primary change plus the impacts the catalog lists for it) and
 * shows the history on the half-hour board.
 */
module SimuladorPage {
  import opened Options
  import opened JsObject
  import opened JsString
  import opened Json
  import opened Api
  import opened HalfHourBoard

  /**
   * `COMPORTAMIENTOS[evento]?.[activo]?.[cambio] || null`: the impacts the
   * catalog lists when every level is present and the last one is truthy
   * (an empty object included), and `null` otherwise.
   */
  function ImpactLookup(catalog: Dict<Json>, evento: string, activo: string, cambio: string): (r: Json)
    ensures (exists porActivo, porCambio, v :: Get(catalog, evento) == Some(Obj(porActivo))
               && Get(porActivo, activo) == Some(Obj(porCambio))
               && Get(porCambio, cambio) == Some(v) && Truthy(v) && r == v)
            || r == Null
    ensures Get(catalog, evento).None? ==> r == Null
    ensures forall porActivo :: Get(catalog, evento) == Some(Obj(porActivo)) && Get(porActivo, activo).None? ==> r == Null
    ensures forall porActivo, porCambio, v :: Get(catalog, evento) == Some(Obj(porActivo))
              && Get(porActivo, activo) == Some(Obj(porCambio)) && Get(porCambio, cambio) == Some(v)
              ==> r == if Truthy(v) then v else Null
  {
    Or(OptMember(OptMember(Get(catalog, evento), activo), cambio), Null)
  }

  /** When every level is an object and the last holds `impactos`, the lookup returns it unchanged. */
  lemma ImpactLookupFound(catalog: Dict<Json>, evento: string, activo: string, cambio: string,
                          porActivo: Dict<Json>, porCambio: Dict<Json>, impactos: Dict<Json>)
    requires Get(catalog, evento) == Some(Obj(porActivo))
    requires Get(porActivo, activo) == Some(Obj(porCambio))
    requires Get(porCambio, cambio) == Some(Obj(impactos))
    ensures ImpactLookup(catalog, evento, activo, cambio) == Obj(impactos)
  {
  }

  /** The body `{hora, activo, cambio, impactos}` the simulator posts. */
  datatype RegistroBody = RegistroBody(hora: string, activo: string, cambio: string, impactos: Json)

  /** `JSON.stringify({hora, activo, cambio, impactos})`, before serialisation. */
  function BodyJson(b: RegistroBody): (j: Json)
    ensures j.Obj? && Keys(j.fields) == ["hora", "activo", "cambio", "impactos"]
    ensures Member(j, "hora") == Some(Str(b.hora)) && Member(j, "activo") == Some(Str(b.activo))
    ensures Member(j, "cambio") == Some(Str(b.cambio)) && Member(j, "impactos") == Some(b.impactos)
  {
    assert "hora" != "activo" && "hora" != "cambio" && "hora" != "impactos"
           && "activo" != "cambio" && "activo" != "impactos" && "cambio" != "impactos" by {
      assert |"hora"| == 4 && |"activo"| == 6 && |"cambio"| == 6 && |"impactos"| == 8;
      assert "activo"[0] != "cambio"[0];
    }
    KeysFour("hora", Str(b.hora), "activo", Str(b.activo), "cambio", Str(b.cambio), "impactos", b.impactos);
    GetFour("hora", Str(b.hora), "activo", Str(b.activo), "cambio", Str(b.cambio), "impactos", b.impactos);
    Obj([("hora", Str(b.hora)), ("activo", Str(b.activo)), ("cambio", Str(b.cambio)), ("impactos", b.impactos)])
  }

  /** The posted body has no key besides its four: a key of another length reads undefined. */
  lemma BodyJsonOnlyItsKeys(b: RegistroBody, k: string)
    requires |k| != 4 && |k| != 6 && |k| != 8
    ensures Member(BodyJson(b), k) == None
  {
    assert k != "hora" && k != "activo" && k != "cambio" && k != "impactos" by {
      assert |"hora"| == 4 && |"activo"| == 6 && |"cambio"| == 6 && |"impactos"| == 8;
    }
    AbsentFromFour("hora", Str(b.hora), "activo", Str(b.activo), "cambio", Str(b.cambio), "impactos", b.impactos, k);
  }

  /**
   * The submit handler up to the request: no request when a field is empty;
   * otherwise the form values unchanged and the impacts looked up for them.
   */
  function BuildRegistro(catalog: Dict<Json>, activo: string, hora: string, palabraClave: string, cambio: string)
    : (r: Option<RegistroBody>)
    ensures r.None? <==> activo == "" || hora == "" || palabraClave == "" || cambio == ""
    ensures r.Some? ==> r.value.hora == hora && r.value.activo == activo && r.value.cambio == cambio
    ensures r.Some? ==> r.value.impactos == ImpactLookup(catalog, palabraClave, activo, cambio)
  {
    if activo == "" || hora == "" || palabraClave == "" || cambio == "" then None
    else Some(RegistroBody(hora, activo, cambio, ImpactLookup(catalog, palabraClave, activo, cambio)))
  }

  /** An `<option>` of the hour select: the full label as value, `HH:mm` as text. */
  datatype HourOption = HourOption(value: string, text: string)

  /** The page's globals and what its selects and table show. */
  class Simulador {
    var activos: seq<string>
    var comportamientos: Dict<Json>
    var historial: Table
    const todasLasHoras: seq<string>
    var activoOptions: seq<string>
    var eventoOptions: seq<string>
    var horaOptions: seq<HourOption>
    var tabla: Board

    /** The globals at load time; the labels are those of `hoy`. */
    constructor (hoy: Day)
      ensures todasLasHoras == DayLabels(hoy)
      ensures activos == [] && comportamientos == [] && historial == []
      ensures activoOptions == [] && eventoOptions == [] && horaOptions == []
    {
      var horas := GenerarHoras(hoy);
      todasLasHoras := horas;
      activos := [];
      comportamientos := [];
      historial := [];
      activoOptions := [];
      eventoOptions := [];
      horaOptions := [];
      tabla := Board([], []);
    }

    /** llenarSelects: the assets, then the top-level event names of the catalog. */
    method LlenarSelects()
      modifies this
      ensures activoOptions == activos && eventoOptions == Keys(comportamientos)
      ensures activos == old(activos) && comportamientos == old(comportamientos)
      ensures historial == old(historial) && horaOptions == old(horaOptions) && tabla == old(tabla)
    {
      var porActivo: seq<string> := [];
      var i := 0;
      while i < |activos|
        invariant 0 <= i <= |activos| && porActivo == activos[..i]
      {
        porActivo := porActivo + [activos[i]];
        i := i + 1;
      }
      var eventos := Keys(comportamientos);
      var porEvento: seq<string> := [];
      i := 0;
      while i < |eventos|
        invariant 0 <= i <= |eventos| && porEvento == eventos[..i]
      {
        porEvento := porEvento + [eventos[i]];
        i := i + 1;
      }
      assert activos[..|activos|] == activos && eventos[..|eventos|] == eventos;
      activoOptions, eventoOptions := porActivo, porEvento;
    }

    /** llenarHorasSelect: one option per label, its value the label and its text the `HH:mm` slice. */
    method LlenarHorasSelect()
      modifies this
      ensures |horaOptions| == |todasLasHoras|
      ensures forall j :: 0 <= j < |todasLasHoras| ==>
                horaOptions[j] == HourOption(todasLasHoras[j], Slice(todasLasHoras[j], 11, 16))
      ensures activos == old(activos) && comportamientos == old(comportamientos) && historial == old(historial)
      ensures activoOptions == old(activoOptions) && eventoOptions == old(eventoOptions) && tabla == old(tabla)
    {
      var opciones: seq<HourOption> := [];
      var j := 0;
      while j < |todasLasHoras|
        invariant 0 <= j <= |todasLasHoras| && |opciones| == j
        invariant forall k :: 0 <= k < j ==>
                    opciones[k] == HourOption(todasLasHoras[k], Slice(todasLasHoras[k], 11, 16))
      {
        var h := todasLasHoras[j];
        opciones := opciones + [HourOption(h, Slice(h, 11, 16))];
        j := j + 1;
      }
      horaOptions := opciones;
    }

    /** renderizarTabla: the board of the assets over the day's labels. */
    method RenderizarTabla()
      modifies this
      ensures tabla == RenderBoard(activos, todasLasHoras, historial)
      ensures activos == old(activos) && comportamientos == old(comportamientos) && historial == old(historial)
      ensures activoOptions == old(activoOptions) && eventoOptions == old(eventoOptions)
      ensures horaOptions == old(horaOptions)
    {
      tabla := RenderBoard(activos, todasLasHoras, historial);
    }

    /**
     * cargarDatosIniciales: both lists when both downloads succeed; when
     * either fails, both are reset to empty. The selects are refilled.
     */
    method CargarDatosIniciales(resActivos: Option<seq<string>>, resComport: Option<Dict<Json>>)
      modifies this
      ensures resActivos.Some? && resComport.Some? ==>
                activos == resActivos.value && comportamientos == resComport.value
      ensures resActivos.None? || resComport.None? ==> activos == [] && comportamientos == []
      ensures activoOptions == activos && eventoOptions == Keys(comportamientos)
      ensures historial == old(historial) && horaOptions == old(horaOptions) && tabla == old(tabla)
    {
      if resActivos.Some? && resComport.Some? {
        activos := resActivos.value;
        comportamientos := resComport.value;
      } else {
        activos := [];
        comportamientos := [];
      }
      LlenarSelects();
    }

    /** cargarDesdeServidor: the downloaded history, or `{}` when the download fails; then the table. */
    method CargarDesdeServidor(respuesta: Option<Table>)
      modifies this
      ensures historial == if respuesta.Some? then respuesta.value else []
      ensures tabla == RenderBoard(activos, todasLasHoras, historial)
      ensures activos == old(activos) && comportamientos == old(comportamientos)
      ensures activoOptions == old(activoOptions) && eventoOptions == old(eventoOptions)
      ensures horaOptions == old(horaOptions)
    {
      historial := if respuesta.Some? then respuesta.value else [];
      RenderizarTabla();
    }

    /**
     * registrarConImpactosDesdeJson: with an empty field nothing is sent and
     * nothing changes; otherwise the body is sent, and the table is replaced
     * by the `historial` of a successful reply (`respuesta`) and left as it
     * was on a failed one.
     */
    method RegistrarConImpactos(activo: string, hora: string, palabraClave: string, cambio: string,
                                respuesta: Option<Table>)
      returns (enviado: Option<RegistroBody>)
      modifies this
      ensures enviado == BuildRegistro(old(comportamientos), activo, hora, palabraClave, cambio)
      ensures enviado.Some? && respuesta.Some? ==>
                historial == respuesta.value && tabla == RenderBoard(activos, todasLasHoras, historial)
      ensures enviado.None? || respuesta.None? ==> historial == old(historial) && tabla == old(tabla)
      ensures activos == old(activos) && comportamientos == old(comportamientos)
      ensures activoOptions == old(activoOptions) && eventoOptions == old(eventoOptions)
      ensures horaOptions == old(horaOptions)
    {
      if activo == "" || hora == "" || palabraClave == "" || cambio == "" {
        return None;
      }
      var impactos := ImpactLookup(comportamientos, palabraClave, activo, cambio);
      enviado := Some(RegistroBody(hora, activo, cambio, impactos));
      if respuesta.Some? {
        historial := respuesta.value;
        RenderizarTabla();
      }
    }
  }
}

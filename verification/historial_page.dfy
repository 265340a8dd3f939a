/**
 * The history page: it downloads the assets and the whole history, keeps
 * only the half-hour buckets of the chosen date, and shows them on the
 * half-hour board of that date.
 */
module HistorialPage {
  import opened Options
  import opened JsObject
  import opened JsString
  import opened Json
  import opened Api
  import opened HalfHourBoard

  /** The entries of `h`, in order, whose key starts with `fecha`. */
  function KeepPrefixed<V>(h: Dict<V>, fecha: string): (r: Dict<V>)
    ensures |r| <= |h|
    ensures forall e :: e in r ==> e in h && StartsWith(e.0, fecha)
  {
    if h == [] then []
    else
      var p := KeepPrefixed(h[..|h| - 1], fecha);
      if StartsWith(h[|h| - 1].0, fecha) then p + [h[|h| - 1]] else p
  }

  /** The kept keys are exactly the keys of `h` that start with `fecha`. */
  lemma {:induction false} KeepPrefixedKeys<V>(h: Dict<V>, fecha: string, k: string)
    ensures HasKey(KeepPrefixed(h, fecha), k) <==> HasKey(h, k) && StartsWith(k, fecha)
  {
    if h != [] {
      var init := h[..|h| - 1];
      KeepPrefixedKeys(init, fecha, k);
      KeysAppend(init, [h[|h| - 1]]);
      assert h == init + [h[|h| - 1]];
      var p := KeepPrefixed(init, fecha);
      KeysAppend(p, [h[|h| - 1]]);
    }
  }

  /** Filtering keeps keys distinct. */
  lemma KeepPrefixedDistinct<V>(h: Dict<V>, fecha: string)
    requires DistinctKeys(h)
    ensures DistinctKeys(KeepPrefixed(h, fecha))
    decreases |h|
  {
    if h != [] {
      var init := h[..|h| - 1];
      var last := h[|h| - 1];
      DistinctPrefix(h, |h| - 1);
      KeepPrefixedDistinct(init, fecha);
      var p := KeepPrefixed(init, fecha);
      if StartsWith(last.0, fecha) {
        forall i | 0 <= i < |p| ensures p[i].0 != last.0 {
          assert p[i] in p;
          var j :| 0 <= j < |init| && init[j] == p[i];
          assert h[j] == init[j];
        }
      }
    }
  }

  /**
   * A kept key maps to the same value as in the input and every other key is
   * absent: the result is the sub-object of the buckets of that date.
   */
  lemma KeepPrefixedGet<V>(h: Dict<V>, fecha: string, k: string)
    requires DistinctKeys(h)
    ensures Get(KeepPrefixed(h, fecha), k) == if StartsWith(k, fecha) then Get(h, k) else None
  {
    var r := KeepPrefixed(h, fecha);
    KeepPrefixedKeys(h, fecha, k);
    KeepPrefixedDistinct(h, fecha);
    if Get(r, k).Some? {
      var v := Get(r, k).value;
      GetIffStored(r, k, v);
      GetIffStored(h, k, v);
    }
  }

  /** Filtering by the same date twice is filtering once. */
  lemma {:induction false} KeepPrefixedIdempotent<V>(h: Dict<V>, fecha: string)
    ensures KeepPrefixed(KeepPrefixed(h, fecha), fecha) == KeepPrefixed(h, fecha)
  {
    if h != [] {
      var init := h[..|h| - 1];
      var p := KeepPrefixed(init, fecha);
      KeepPrefixedIdempotent(init, fecha);
      if StartsWith(h[|h| - 1].0, fecha) {
        var r := p + [h[|h| - 1]];
        assert r[..|r| - 1] == p;
      }
    }
  }

  /** Every key starts with the empty text, so filtering by it keeps everything. */
  lemma {:induction false} KeepPrefixedEverything<V>(h: Dict<V>)
    ensures KeepPrefixed(h, "") == h
  {
    if h != [] {
      KeepPrefixedEverything(h[..|h| - 1]);
      assert StartsWith(h[|h| - 1].0, "");
      assert h[..|h| - 1] + [h[|h| - 1]] == h;
    }
  }

  /**
   * filtrarPorFecha: without a date the history itself; otherwise a new
   * object filled, in entry order, with the buckets whose hour starts with
   * the date.
   */
  method FiltrarPorFecha(historial: Table, fecha: string) returns (resultado: Table)
    requires DistinctKeys(historial)
    ensures fecha == "" ==> resultado == historial
    ensures fecha != "" ==> resultado == KeepPrefixed(historial, fecha)
  {
    if fecha == "" {
      return historial;
    }
    resultado := [];
    var i := 0;
    while i < |historial|
      invariant 0 <= i <= |historial|
      invariant resultado == KeepPrefixed(historial[..i], fecha)
    {
      var (key, val) := historial[i];
      assert historial[..i + 1][..i] == historial[..i];
      if StartsWith(key, fecha) {
        assert !HasKey(resultado, key) by {
          KeepPrefixedKeys(historial[..i], fecha, key);
        }
        PutFresh(resultado, key, val);
        resultado := Put(resultado, key, val);
      }
      i := i + 1;
    }
    assert historial[..i] == historial;
  }

  /**
   * Filtering by the date whose labels are shown does not change the board:
   * every bucket the board reads starts with that date.
   */
  lemma FilterKeepsDayBoard(activos: seq<string>, dia: Day, hist: Table)
    requires ValidDay(dia) && DistinctKeys(hist)
    ensures RenderBoard(activos, DayLabels(dia), KeepPrefixed(hist, DateText(dia)))
            == RenderBoard(activos, DayLabels(dia), hist)
  {
    var horas := DayLabels(dia);
    forall h | h in horas
      ensures Get(KeepPrefixed(hist, DateText(dia)), h) == Get(hist, h)
    {
      var i :| 0 <= i < 48 && horas[i] == h;
      LabelsIndex(dia, 48, i);
      LabelShape(dia, i);
      KeepPrefixedGet(hist, DateText(dia), h);
    }
    BoardDependsOnShownBuckets(activos, horas, KeepPrefixed(hist, DateText(dia)), hist);
  }

  /** The page's globals and the table it currently shows. */
  class Vista {
    var historialGlobal: Table
    var activos: seq<string>
    var tabla: Option<Board>

    /** The history is a parsed JSON object, so its keys are distinct. */
    ghost predicate Valid()
      reads this
    {
      DistinctKeys(historialGlobal)
    }

    constructor ()
      ensures Valid() && historialGlobal == [] && activos == [] && tabla == None
    {
      historialGlobal := [];
      activos := [];
      tabla := None;
    }

    /**
     * renderFromData: the board of the 48 labels of `dia` (the day in the
     * date input, or today when it is empty) over the given history.
     */
    method RenderFromData(hist: Table, dia: Day)
      modifies this
      ensures tabla == Some(RenderBoard(activos, DayLabels(dia), hist))
      ensures historialGlobal == old(historialGlobal) && activos == old(activos)
    {
      var horas := GenerarHoras(dia);
      tabla := Some(RenderBoard(activos, horas, hist));
    }

    /** cargarActivos: the downloaded list, or the empty list when the download fails. */
    method CargarActivos(respuesta: Option<seq<string>>)
      modifies this
      ensures activos == if respuesta.Some? then respuesta.value else []
      ensures historialGlobal == old(historialGlobal) && tabla == old(tabla)
    {
      match respuesta {
        case Some(lista) => activos := lista;
        case None => activos := [];
      }
    }

    /**
     * aplicarFiltroYRenderear: nothing happens while the history is empty;
     * otherwise the history filtered by `fecha` is shown on the board of `dia`.
     */
    method AplicarFiltroYRenderear(fecha: string, dia: Day)
      requires Valid()
      modifies this
      ensures Valid() && historialGlobal == old(historialGlobal) && activos == old(activos)
      ensures |historialGlobal| == 0 ==> tabla == old(tabla)
      ensures |historialGlobal| > 0 ==> tabla == Some(RenderBoard(activos, DayLabels(dia),
                 if fecha == "" then historialGlobal else KeepPrefixed(historialGlobal, fecha)))
    {
      if |Keys(historialGlobal)| == 0 {
        return;
      }
      var filtrado := FiltrarPorFecha(historialGlobal, fecha);
      RenderFromData(filtrado, dia);
    }

    /**
     * cargarHistorialServidor: a downloaded history replaces the global one
     * and is shown, except that an empty one leaves the old table on screen;
     * a failed download changes nothing.
     */
    method CargarHistorialServidor(respuesta: Option<Table>, fecha: string, dia: Day)
      requires Valid() && (respuesta.Some? ==> DistinctKeys(respuesta.value))
      modifies this
      ensures Valid() && activos == old(activos)
      ensures respuesta.None? ==> historialGlobal == old(historialGlobal) && tabla == old(tabla)
      ensures respuesta.Some? ==> historialGlobal == respuesta.value
      ensures respuesta.Some? && |historialGlobal| == 0 ==> tabla == old(tabla)
      ensures respuesta.Some? && |historialGlobal| > 0 ==> tabla == Some(RenderBoard(activos, DayLabels(dia),
                 if fecha == "" then historialGlobal else KeepPrefixed(historialGlobal, fecha)))
    {
      if respuesta.None? {
        return;
      }
      historialGlobal := respuesta.value;
      AplicarFiltroYRenderear(fecha, dia);
    }
  }
}

/**
 * The behaviour-creation form: the user picks a principal asset and its
 * direction, then an effect ("Sube", "Baja" or "Sin efecto") for each other
 * asset; submitting posts `{evento, datos: {principal: {tipo: impactos}}}`.
 */
module CrearComportamiento {
  import opened Options
  import opened JsObject
  import opened JsString
  import opened Json

  /** `activos.filter(a => a !== principal)`: the assets offered as impacted ones. */
  function Candidates(activos: seq<string>, principal: string): (r: seq<string>)
    ensures forall a :: a in r <==> a in activos && a != principal
    ensures |r| <= |activos|
  {
    if activos == [] then []
    else (if activos[0] != principal then [activos[0]] else []) + Candidates(activos[1..], principal)
  }

  /**
   * The filter drops every copy of the principal and keeps every other asset
   * as many times as the list holds it.
   */
  lemma {:induction false} CandidatesCount(activos: seq<string>, principal: string)
    ensures multiset(Candidates(activos, principal))[principal] == 0
    ensures forall a :: a != principal ==> multiset(Candidates(activos, principal))[a] == multiset(activos)[a]
  {
    if activos != [] {
      var front, rest := [activos[0]], activos[1..];
      assert activos == front + rest;
      CandidatesCount(rest, principal);
      CandidatesAppend(front, rest, principal);
      CandidatesSingle(activos[0], principal);
      assert multiset(activos) == multiset(front) + multiset(rest);
    }
  }

  /** One asset is offered exactly when it is not the principal. */
  lemma CandidatesSingle(a: string, principal: string)
    ensures Candidates([a], principal) == if a == principal then [] else [a]
  {
    assert [a][1..] == [];
  }

  /**
   * The filter keeps list order: the candidates of a concatenation are those
   * of the front followed by those of the back.
   */
  lemma {:induction false} CandidatesAppend(xs: seq<string>, ys: seq<string>, principal: string)
    ensures Candidates(xs + ys, principal) == Candidates(xs, principal) + Candidates(ys, principal)
  {
    if xs == [] {
      assert xs + ys == ys;
    } else {
      var zs := xs + ys;
      assert zs[0] == xs[0] && zs[1..] == xs[1..] + ys;
      CandidatesAppend(xs[1..], ys, principal);
    }
  }

  /** When the principal is not in the list, every asset is offered, in list order. */
  lemma {:induction false} CandidatesWithoutPrincipal(activos: seq<string>, principal: string)
    requires principal !in activos
    ensures Candidates(activos, principal) == activos
  {
    if activos != [] {
      CandidatesWithoutPrincipal(activos[1..], principal);
    }
  }

  /** One impact select: the asset it is for (`data-activo`) and its value, "" for "Sin efecto". */
  datatype ImpactSelect = ImpactSelect(activo: string, valor: string)

  /** The badge next to the principal: green when the direction is "Sube", red otherwise. */
  datatype Resumen = Resumen(principal: string, tipo: string, verde: bool)

  /** What the form shows: the two selects, the impact selects, the panel and the badge. */
  datatype FormState = FormState(principal: string, tipo: string, selects: seq<ImpactSelect>,
                                 panelVisible: bool, resumen: Option<Resumen>)

  /** Fresh impact selects for the given assets, each on "Sin efecto". */
  function BlankSelects(activos: seq<string>): (r: seq<ImpactSelect>)
    ensures |r| == |activos|
    ensures forall i :: 0 <= i < |activos| ==> r[i] == ImpactSelect(activos[i], "")
  {
    if activos == [] then [] else [ImpactSelect(activos[0], "")] + BlankSelects(activos[1..])
  }

  /**
   * A direction is chosen: mostrarImpactos rebuilds the panel (shown with one
   * blank select per candidate only when both direction and principal are
   * set) and the badge is redrawn.
   */
  function OnTipoChange(activos: seq<string>, s: FormState, tipo: string): (r: FormState)
    ensures r.principal == s.principal && r.tipo == tipo
    ensures r.panelVisible <==> tipo != "" && s.principal != ""
    ensures r.panelVisible ==> r.selects == BlankSelects(Candidates(activos, s.principal))
    ensures !r.panelVisible ==> r.selects == [] && r.resumen == None
    ensures r.panelVisible ==> r.resumen == Some(Resumen(s.principal, tipo, tipo == "Sube"))
  {
    if tipo != "" && s.principal != "" then
      FormState(s.principal, tipo, BlankSelects(Candidates(activos, s.principal)), true,
                Some(Resumen(s.principal, tipo, tipo == "Sube")))
    else
      FormState(s.principal, tipo, [], false, None)
  }

  /** A principal is chosen: the direction, the impact selects, the panel and the badge are cleared. */
  function OnPrincipalChange(s: FormState, principal: string): (r: FormState)
    ensures r.principal == principal && r.tipo == "" && r.selects == [] && !r.panelVisible && r.resumen == None
  {
    FormState(principal, "", [], false, None)
  }

  /** The submit handler's `impactos`: a `forEach` over the selects keeping those not on "Sin efecto". */
  function Impactos(selects: seq<ImpactSelect>): (r: Dict<Json>)
    ensures forall e :: e in r ==> exists i :: 0 <= i < |selects| && selects[i].valor != ""
                                               && e == (selects[i].activo, Str(selects[i].valor))
  {
    if selects == [] then []
    else
      var p := Impactos(selects[..|selects| - 1]);
      var sel := selects[|selects| - 1];
      if sel.valor != "" then
        var r := Put(p, sel.activo, Str(sel.valor));
        assert forall e :: e in r ==> e == (sel.activo, Str(sel.valor)) || e in p by {
          forall e | e in r ensures e == (sel.activo, Str(sel.valor)) || e in p {
            PutElements(p, sel.activo, Str(sel.valor), e);
          }
        }
        r
      else p
  }

  /** Reference reading: the value of the last select for `activo` that is not on "Sin efecto". */
  function LastChoice(selects: seq<ImpactSelect>, activo: string): (r: Option<string>)
    ensures r.Some? ==> r.value != "" && ImpactSelect(activo, r.value) in selects
    ensures r.None? ==> forall i :: 0 <= i < |selects| && selects[i].activo == activo ==> selects[i].valor == ""
  {
    if selects == [] then None
    else
      var sel := selects[|selects| - 1];
      if sel.activo == activo && sel.valor != "" then Some(sel.valor)
      else LastChoice(selects[..|selects| - 1], activo)
  }

  /**
   * `impactos` holds exactly the assets with an effect chosen, each with the
   * effect chosen last for it; "Sin efecto" leaves an asset out.
   */
  lemma {:induction false} ImpactosReads(selects: seq<ImpactSelect>, activo: string)
    ensures Get(Impactos(selects), activo) == if LastChoice(selects, activo).Some?
                                             then Some(Str(LastChoice(selects, activo).value)) else None
  {
    if selects != [] {
      ImpactosReads(selects[..|selects| - 1], activo);
    }
  }

  /** Filling `impactos` from the selects, one `impactos[sel.dataset.activo] = sel.value` at a time. */
  method BuildImpactos(selects: seq<ImpactSelect>) returns (impactos: Dict<Json>)
    ensures impactos == Impactos(selects)
  {
    impactos := [];
    var i := 0;
    while i < |selects|
      invariant 0 <= i <= |selects| && impactos == Impactos(selects[..i])
    {
      assert selects[..i + 1][..i] == selects[..i];
      var sel := selects[i];
      if sel.valor != "" {
        impactos := Put(impactos, sel.activo, Str(sel.valor));
      }
      i := i + 1;
    }
    assert selects[..i] == selects;
  }

  /** The posted body `{evento, datos: {[activoPrincipal]: {[tipoCambio]: impactos}}}`. */
  function Payload(evento: string, principal: string, tipo: string, impactos: Dict<Json>): Json {
    Obj([("evento", Str(Trim(evento))), ("datos", Obj([(principal, Obj([(tipo, Obj(impactos))]))]))])
  }

  /**
   * The body carries the trimmed event name, and `datos` has exactly one key,
   * the principal, mapping to exactly one key, the direction, which maps to
   * `impactos`.
   */
  lemma PayloadShape(evento: string, principal: string, tipo: string, impactos: Dict<Json>)
    ensures var j := Payload(evento, principal, tipo, impactos);
            && Member(j, "evento") == Some(Str(Trim(evento)))
            && Member(j, "datos").Some? && Member(j, "datos").value.Obj?
            && Keys(Member(j, "datos").value.fields) == [principal]
            && OptMember(Member(j, "datos"), principal).Some?
            && OptMember(Member(j, "datos"), principal).value.Obj?
            && Keys(OptMember(Member(j, "datos"), principal).value.fields) == [tipo]
            && OptMember(OptMember(Member(j, "datos"), principal), tipo) == Some(Obj(impactos))
  {
    var fs := [("evento", Str(Trim(evento))), ("datos", Obj([(principal, Obj([(tipo, Obj(impactos))]))]))];
    assert "evento" != "datos" by { assert "evento"[0] != "datos"[0]; }
    assert Get(fs, "evento") == Some(Str(Trim(evento)));
    assert Get(fs, "datos") == Get(fs[1..], "datos");
  }

  /**
   * The submit handler up to the request: the trimmed event name, the
   * principal, its direction and the impacts chosen on the form.
   */
  method Submit(evento: string, s: FormState) returns (body: Json)
    ensures body == Payload(evento, s.principal, s.tipo, Impactos(s.selects))
  {
    var nombre := Trim(evento);
    var impactos := BuildImpactos(s.selects);
    body := Obj([("evento", Str(nombre)), ("datos", Obj([(s.principal, Obj([(s.tipo, Obj(impactos))]))]))]);
  }

  /**
   * After the principal changes, no earlier choice of effect survives into
   * the payload: neither right away nor once a direction is chosen again,
   * since the panel is rebuilt with every select on "Sin efecto".
   */
  lemma PrincipalChangeForgetsImpacts(activos: seq<string>, s: FormState, principal: string, tipo: string,
                                      evento: string)
    ensures var r := OnPrincipalChange(s, principal);
            Payload(evento, r.principal, r.tipo, Impactos(r.selects))
            == Payload(evento, principal, "", [])
    ensures var r := OnTipoChange(activos, OnPrincipalChange(s, principal), tipo);
            Payload(evento, r.principal, r.tipo, Impactos(r.selects))
            == Payload(evento, principal, tipo, [])
  {
    FreshPanelSendsNoImpacts(Candidates(activos, principal));
  }

  /** Right after a direction is chosen every select is on "Sin efecto", so no impact is sent. */
  lemma {:induction false} FreshPanelSendsNoImpacts(activos: seq<string>)
    ensures Impactos(BlankSelects(activos)) == []
  {
    if activos != [] {
      var b := BlankSelects(activos);
      assert b[..|b| - 1] == BlankSelects(activos[..|activos| - 1]);
      FreshPanelSendsNoImpacts(activos[..|activos| - 1]);
    }
  }
}

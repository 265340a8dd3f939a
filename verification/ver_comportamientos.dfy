/**
 * The behaviour list page: for each principal asset of an event, the arrow
 * of its main direction and the lists of assets that go up and that go down.
 */
module VerComportamientos {
  import opened Options
  import opened JsObject
  import opened JsString
  import opened Json
  import opened HalfHourBoard

  /**
   * flechaTipo: nothing for an empty type, the up arrow when the type is
   * "sube" in any letter case, and the down arrow for every other type.
   */
  function FlechaTipo(tipo: string): (g: Glyph)
    ensures g == Blank <==> tipo == ""
    ensures g == Up <==> IsSubeIgnoringCase(tipo)
    ensures g == Down <==> tipo != "" && !IsSubeIgnoringCase(tipo)
  {
    if tipo == "" then Blank else if IsSubeIgnoringCase(tipo) then Up else Down
  }

  /**
   * `efectos.tipoPrincipal || ''` as `flechaTipo` goes on to use it: the text
   * of a string type, "" for a missing or falsy one, and `None` where the
   * page throws (`efectos` is `null`, or a truthy type that is not a string
   * has no `toLowerCase`).
   */
  function TipoPrincipal(efectos: Json): (r: Option<string>)
    ensures r.None? <==> efectos.Null? || (Member(efectos, "tipoPrincipal").Some?
                                           && Truthy(Member(efectos, "tipoPrincipal").value)
                                           && !Member(efectos, "tipoPrincipal").value.Str?)
    ensures Member(efectos, "tipoPrincipal").None? && !efectos.Null? ==> r == Some("")
    ensures r.Some? && r.value != "" ==> Member(efectos, "tipoPrincipal") == Some(Str(r.value))
    ensures forall s :: s != "" && Member(efectos, "tipoPrincipal") == Some(Str(s)) ==> r == Some(s)
    ensures forall v :: Member(efectos, "tipoPrincipal") == Some(v) && !Truthy(v) ==> r == Some("")
  {
    if efectos.Null? then None
    else
      match Member(efectos, "tipoPrincipal")
      case None => Some("")
      case Some(v) => if !Truthy(v) then Some("") else if v.Str? then Some(v.s) else None
  }

  /** A missing `tipoPrincipal` shows no arrow. */
  lemma MissingTipoShowsNoArrow(efectos: Json)
    requires efectos.Obj? && !HasKey(efectos.fields, "tipoPrincipal")
    ensures TipoPrincipal(efectos) == Some("") && FlechaTipo(TipoPrincipal(efectos).value) == Blank
  {
  }

  /** The pieces of the list markup: a section heading, an item, a section end. */
  datatype Piece = Heading(dir: Glyph) | Item(dir: Glyph, activo: string) | Close

  /** `datos[dir] && Object.keys(datos[dir]).length`: the section for `dir` is emitted. */
  predicate Shown(datos: Json, dir: string) {
    var v := Member(datos, dir);
    v.Some? && Truthy(v.value) && |ObjectKeys(v.value)| > 0
  }

  /** The keys listed in the section for `dir`, none when it is not emitted. */
  function SectionKeys(datos: Json, dir: string): (ks: seq<string>)
    ensures Shown(datos, dir) <==> |ks| > 0
  {
    if Shown(datos, dir) then ObjectKeys(Member(datos, dir).value) else []
  }

  /** One item per key, in key order. */
  function ItemPieces(dir: Glyph, keys: seq<string>): (ps: seq<Piece>)
    ensures |ps| == |keys|
    ensures forall i :: 0 <= i < |keys| ==> ps[i] == Item(dir, keys[i])
  {
    if keys == [] then [] else ItemPieces(dir, keys[..|keys| - 1]) + [Item(dir, keys[|keys| - 1])]
  }

  /** A section: its heading, its items, its end. */
  function SectionPieces(dir: Glyph, keys: seq<string>): seq<Piece> {
    [Heading(dir)] + ItemPieces(dir, keys) + [Close]
  }

  /** generarListaActivos: the "Suben" section when emitted, then the "Bajan" section when emitted. */
  function ListaActivos(datos: Json): seq<Piece> {
    (if Shown(datos, "Sube") then SectionPieces(Up, SectionKeys(datos, "Sube")) else [])
    + (if Shown(datos, "Baja") then SectionPieces(Down, SectionKeys(datos, "Baja")) else [])
  }

  /** Appending one section, its items added by a `forEach` over the keys. */
  method AppendSection(html: seq<Piece>, dir: Glyph, keys: seq<string>) returns (out: seq<Piece>)
    ensures out == html + SectionPieces(dir, keys)
  {
    out := html + [Heading(dir)];
    var i := 0;
    while i < |keys|
      invariant 0 <= i <= |keys|
      invariant out == html + [Heading(dir)] + ItemPieces(dir, keys[..i])
    {
      assert keys[..i + 1][..i] == keys[..i];
      out := out + [Item(dir, keys[i])];
      i := i + 1;
    }
    assert keys[..i] == keys;
    out := out + [Close];
  }

  /** generarListaActivos, accumulating the markup section by section. */
  method GenerarListaActivos(datos: Json) returns (html: seq<Piece>)
    ensures html == ListaActivos(datos)
  {
    ghost var suben := if Shown(datos, "Sube") then SectionPieces(Up, SectionKeys(datos, "Sube")) else [];
    ghost var bajan := if Shown(datos, "Baja") then SectionPieces(Down, SectionKeys(datos, "Baja")) else [];
    html := [];
    if Shown(datos, "Sube") {
      html := AppendSection(html, Up, ObjectKeys(Member(datos, "Sube").value));
    }
    assert html == suben;
    if Shown(datos, "Baja") {
      html := AppendSection(html, Down, ObjectKeys(Member(datos, "Baja").value));
    }
    assert html == suben + bajan;
  }

  /** The assets listed with arrow `dir`, in order. */
  function ItemsOf(ps: seq<Piece>, dir: Glyph): seq<string> {
    if ps == [] then []
    else
      var last := ps[|ps| - 1];
      ItemsOf(ps[..|ps| - 1], dir) + (if last.Item? && last.dir == dir then [last.activo] else [])
  }

  lemma {:induction false} ItemsOfAppend(a: seq<Piece>, b: seq<Piece>, dir: Glyph)
    ensures ItemsOf(a + b, dir) == ItemsOf(a, dir) + ItemsOf(b, dir)
  {
    if b == [] {
      assert a + b == a;
    } else {
      var init := b[..|b| - 1];
      assert (a + b)[..|a + b| - 1] == a + init;
      assert (a + b)[|a + b| - 1] == b[|b| - 1];
      ItemsOfAppend(a, init, dir);
    }
  }

  lemma {:induction false} ItemsOfItems(d: Glyph, keys: seq<string>, dir: Glyph)
    ensures ItemsOf(ItemPieces(d, keys), dir) == if d == dir then keys else []
  {
    if keys != [] {
      var init := keys[..|keys| - 1];
      var ps := ItemPieces(d, keys);
      assert ps[..|ps| - 1] == ItemPieces(d, init);
      ItemsOfItems(d, init, dir);
      assert init + [keys[|keys| - 1]] == keys;
    }
  }

  lemma ItemsOfSection(d: Glyph, keys: seq<string>, dir: Glyph)
    ensures ItemsOf(SectionPieces(d, keys), dir) == if d == dir then keys else []
  {
    var items := ItemPieces(d, keys);
    var front := [Heading(d)] + items;
    assert ItemsOf(SectionPieces(d, keys), dir) == ItemsOf(front, dir) by {
      var s := SectionPieces(d, keys);
      assert s[..|s| - 1] == front;
    }
    assert ItemsOf(front, dir) == ItemsOf(items, dir) by {
      ItemsOfAppend([Heading(d)], items, dir);
      assert [Heading(d)][..0] == [];
    }
    ItemsOfItems(d, keys, dir);
  }

  /**
   * The up items are exactly the keys of `Sube`, in key order, and the down
   * items exactly the keys of `Baja`; the directions stored under those keys
   * are not shown.
   */
  lemma ListaItems(datos: Json)
    ensures ItemsOf(ListaActivos(datos), Up) == SectionKeys(datos, "Sube")
    ensures ItemsOf(ListaActivos(datos), Down) == SectionKeys(datos, "Baja")
  {
    var a := if Shown(datos, "Sube") then SectionPieces(Up, SectionKeys(datos, "Sube")) else [];
    var b := if Shown(datos, "Baja") then SectionPieces(Down, SectionKeys(datos, "Baja")) else [];
    ItemsOfAppend(a, b, Up);
    ItemsOfAppend(a, b, Down);
    ItemsOfSection(Up, SectionKeys(datos, "Sube"), Up);
    ItemsOfSection(Up, SectionKeys(datos, "Sube"), Down);
    ItemsOfSection(Down, SectionKeys(datos, "Baja"), Up);
    ItemsOfSection(Down, SectionKeys(datos, "Baja"), Down);
  }

  /** With neither sub-object non-empty the list is empty, and only then. */
  lemma ListaEmpty(datos: Json)
    ensures ListaActivos(datos) == [] <==> !Shown(datos, "Sube") && !Shown(datos, "Baja")
  {
  }

  /** Every piece of a section but its end carries the section's direction. */
  lemma SectionDirs(d: Glyph, keys: seq<string>, k: nat)
    requires k < |SectionPieces(d, keys)|
    ensures SectionPieces(d, keys)[k].Close? || SectionPieces(d, keys)[k].dir == d
  {
    var s := SectionPieces(d, keys);
    if 0 < k < |s| - 1 {
      assert s[k] == ItemPieces(d, keys)[k - 1];
    }
  }

  /** The ordering argument on the two sections themselves. */
  lemma SectionsOrdered(su: bool, ks1: seq<string>, ba: bool, ks2: seq<string>, i: nat, j: nat)
    requires var l := (if su then SectionPieces(Up, ks1) else []) + (if ba then SectionPieces(Down, ks2) else []);
             && i < |l| && j < |l| && l[i].Item? && l[i].dir == Down && l[j].Item? && l[j].dir == Up
    ensures j < i
  {
    var a := if su then SectionPieces(Up, ks1) else [];
    var b := if ba then SectionPieces(Down, ks2) else [];
    var l := a + b;
    if i < |a| {
      assert l[i] == a[i];
      SectionDirs(Up, ks1, i);
    } else if j >= |a| {
      assert l[j] == b[j - |a|];
      SectionDirs(Down, ks2, j - |a|);
    }
  }

  /** Every asset listed as going up comes before every asset listed as going down. */
  lemma SubenFirst(datos: Json, i: nat, j: nat)
    requires i < |ListaActivos(datos)| && j < |ListaActivos(datos)|
    requires ListaActivos(datos)[i].Item? && ListaActivos(datos)[i].dir == Down
    requires ListaActivos(datos)[j].Item? && ListaActivos(datos)[j].dir == Up
    ensures j < i
  {
    SectionsOrdered(Shown(datos, "Sube"), SectionKeys(datos, "Sube"), Shown(datos, "Baja"), SectionKeys(datos, "Baja"), i, j);
  }
}

/**
 * The asset store behind GET and POST /api/activos: the `activos` collection
 * holds documents `{nombre}` in insertion order, and the listing is their
 * names in that order.
 */
module ActivosController {
  import opened Options
  import opened Api

  /** A document of the `activos` collection. */
  datatype AssetDoc = AssetDoc(nombre: string)

  /** `activosDocs.map(a => a.nombre)`. */
  function Nombres(docs: seq<AssetDoc>): (ns: seq<string>)
    ensures |ns| == |docs|
    ensures forall i :: 0 <= i < |docs| ==> ns[i] == docs[i].nombre
  {
    if docs == [] then [] else [docs[0].nombre] + Nombres(docs[1..])
  }

  /** The 400 message of createActivo. */
  const MissingName := "Falta el nombre"

  /**
   * Listing after an insertion: the earlier names in the same order, then
   * the new one.
   */
  lemma {:induction false} NombresAfterInsert(docs: seq<AssetDoc>, nombre: string)
    ensures Nombres(docs + [AssetDoc(nombre)]) == Nombres(docs) + [nombre]
  {
    if docs != [] {
      assert (docs + [AssetDoc(nombre)])[1..] == docs[1..] + [AssetDoc(nombre)];
      NombresAfterInsert(docs[1..], nombre);
    }
  }

  /** The `activos` collection, as the controller sees it. */
  class ActivosCollection {
    var docs: seq<AssetDoc>

    constructor ()
      ensures docs == []
    {
      docs := [];
    }

    /** GET /api/activos: the names of all documents, in scan order. */
    method GetActivos() returns (activos: seq<string>)
      ensures |activos| == |docs|
      ensures forall i :: 0 <= i < |docs| ==> activos[i] == docs[i].nombre
    {
      activos := Nombres(docs);
    }

    /**
     * POST /api/activos with body `{nombre}`: a missing or empty name is a
     * 400 and inserts nothing; otherwise one document is appended. Nothing
     * rules out a second document with the same name.
     */
    method CreateActivo(nombre: Option<string>) returns (status: Status)
      modifies this
      ensures (nombre.None? || nombre.value == "") ==> status == BadRequest(MissingName) && docs == old(docs)
      ensures (nombre.Some? && nombre.value != "") ==> status == Created && docs == old(docs) + [AssetDoc(nombre.value)]
    {
      if nombre.None? || nombre.value == "" {
        return BadRequest(MissingName);
      }
      docs := docs + [AssetDoc(nombre.value)];
      status := Created;
    }
  }
}

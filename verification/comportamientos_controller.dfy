/**
 * The event catalog behind GET and POST /api/comportamientos: the
 * `comportamientos` collection holds documents `{evento, datos}` in
 * insertion order, and the listing is one object keyed by event name.
 */
module ComportamientosController {
  import opened Options
  import opened JsObject
  import opened Json
  import opened Api

  /** A document of the `comportamientos` collection. */
  datatype BehaviorDoc = BehaviorDoc(evento: string, datos: Json)

  /**
   * The object the `forEach` builds: `comportamientos[doc.evento] = doc.datos`
   * for each document in scan order.
   */
  function Catalog(docs: seq<BehaviorDoc>): (c: Dict<Json>)
    ensures DistinctKeys(c)
  {
    if docs == [] then []
    else
      var prev := Catalog(docs[..|docs| - 1]);
      var d := docs[|docs| - 1];
      PutDistinct(prev, d.evento, d.datos);
      Put(prev, d.evento, d.datos)
  }

  /** Scanning one more document assigns its `datos` under its event name. */
  lemma CatalogSnoc(docs: seq<BehaviorDoc>, doc: BehaviorDoc)
    ensures Catalog(docs + [doc]) == Put(Catalog(docs), doc.evento, doc.datos)
  {
    assert (docs + [doc])[..|docs|] == docs;
  }

  /** Reference reading: the `datos` of the last document named `evento`. */
  function LastDatos(docs: seq<BehaviorDoc>, evento: string): (r: Option<Json>)
    ensures r.Some? ==> BehaviorDoc(evento, r.value) in docs
    ensures r.None? ==> forall i :: 0 <= i < |docs| ==> docs[i].evento != evento
  {
    if docs == [] then None
    else if docs[|docs| - 1].evento == evento then Some(docs[|docs| - 1].datos)
    else LastDatos(docs[..|docs| - 1], evento)
  }

  /**
   * When two documents share an event name the later one wins: the catalog
   * holds, under each name, the `datos` of the last document with that name,
   * and holds no other names.
   */
  lemma {:induction false} CatalogIsLastDocument(docs: seq<BehaviorDoc>, evento: string)
    ensures Get(Catalog(docs), evento) == LastDatos(docs, evento)
  {
    if docs != [] {
      CatalogIsLastDocument(docs[..|docs| - 1], evento);
    }
  }

  /** The 400 message of createComportamiento. */
  const MissingFields := "Faltan campos"

  /**
   * Creating then listing: the new event reads as the `datos` just sent,
   * every other event reads as before, and the event's key is appended only
   * when it is new.
   */
  lemma CatalogAfterInsert(docs: seq<BehaviorDoc>, evento: string, datos: Json)
    ensures var c := Catalog(docs + [BehaviorDoc(evento, datos)]);
            && Get(c, evento) == Some(datos)
            && (forall e :: e != evento ==> Get(c, e) == Get(Catalog(docs), e))
            && Keys(c) == if HasKey(Catalog(docs), evento) then Keys(Catalog(docs))
                          else Keys(Catalog(docs)) + [evento]
  {
    var ds := docs + [BehaviorDoc(evento, datos)];
    assert ds[..|ds| - 1] == docs;
    PutKeys(Catalog(docs), evento, datos);
  }

  /** The `comportamientos` collection, as the controller sees it. */
  class ComportamientosCollection {
    var docs: seq<BehaviorDoc>

    constructor ()
      ensures docs == []
    {
      docs := [];
    }

    /** GET /api/comportamientos: the catalog of every document, keyed by event name. */
    method GetComportamientos() returns (comportamientos: Dict<Json>)
      ensures comportamientos == Catalog(docs)
    {
      comportamientos := [];
      var i := 0;
      while i < |docs|
        invariant 0 <= i <= |docs|
        invariant comportamientos == Catalog(docs[..i])
      {
        assert docs[..i + 1][..i] == docs[..i];
        comportamientos := Put(comportamientos, docs[i].evento, docs[i].datos);
        i := i + 1;
      }
      assert docs[..i] == docs;
    }

    /**
     * POST /api/comportamientos with body `{evento, datos}`: a missing or
     * empty `evento` or a missing or falsy `datos` is a 400 and inserts
     * nothing; otherwise one document is appended.
     */
    method CreateComportamiento(evento: Option<string>, datos: Option<Json>) returns (status: Status)
      modifies this
      ensures (evento.None? || evento.value == "" || datos.None? || !Truthy(datos.value))
              ==> status == BadRequest(MissingFields) && docs == old(docs)
      ensures (evento.Some? && evento.value != "" && datos.Some? && Truthy(datos.value))
              ==> status == Created && docs == old(docs) + [BehaviorDoc(evento.value, datos.value)]
    {
      if evento.None? || evento.value == "" || datos.None? || !Truthy(datos.value) {
        return BadRequest(MissingFields);
      }
      docs := docs + [BehaviorDoc(evento.value, datos.value)];
      status := Created;
    }
  }
}

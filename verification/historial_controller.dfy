/**
 * The history store behind GET /api/historial and POST
 * /api/historial/registro: the `historial` collection is a sequence of
 * documents `{hora, activo, cambio}` in natural order; a read regroups all of
 * them into hora → activo → cambio, and a batch does one keyed upsert per
 * entry of `cambios`.
 */
module HistorialController {
  import opened Options
  import opened JsObject
  import opened Json
  import opened Api

  /** A document of the `historial` collection. */
  datatype Record = Record(hora: string, activo: string, cambio: Json)

  /** The upsert filter `{hora, activo}` of a document. */
  function KeyOf(r: Record): (string, string) {
    (r.hora, r.activo)
  }

  /** No two documents share a `(hora, activo)` pair. */
  ghost predicate UniqueKeys(rs: seq<Record>) {
    forall i, j :: 0 <= i < j < |rs| ==> KeyOf(rs[i]) != KeyOf(rs[j])
  }

  // ---------------------------------------------------------------------
  // Reading: the grouping fold of getHistorial and registrarCambio
  // ---------------------------------------------------------------------

  /**
   * One step of the `forEach`: create the bucket object when it is missing,
   * then assign `cambio` under the asset.
   */
  function AddRecord(t: Table, r: Record): Table {
    var t1 := if HasKey(t, r.hora) then t else Put(t, r.hora, []);
    var row := Get(t1, r.hora).value;
    Put(t1, r.hora, Put(row, r.activo, r.cambio))
  }

  /** The table the fold builds from the documents in scan order. */
  function Group(rs: seq<Record>): Table {
    if rs == [] then [] else AddRecord(Group(rs[..|rs| - 1]), rs[|rs| - 1])
  }

  /** Scanning one more document adds it to the table built so far. */
  lemma GroupStep(rs: seq<Record>, i: nat)
    requires i < |rs|
    ensures Group(rs[..i + 1]) == AddRecord(Group(rs[..i]), rs[i])
  {
    assert rs[..i + 1][..i] == rs[..i];
  }

  /** Reference reading: the `cambio` of the last document scanned for `(hora, activo)`. */
  function Latest(rs: seq<Record>, hora: string, activo: string): Option<Json> {
    if rs == [] then None
    else
      match Latest(rs[1..], hora, activo)
      case Some(c) => Some(c)
      case None => if KeyOf(rs[0]) == (hora, activo) then Some(rs[0].cambio) else None
  }

  /**
   * `Latest` is what its name says: undefined exactly when no document has the
   * key, and otherwise the `cambio` of the last document that has it.
   */
  lemma {:induction false} LatestIsLastMatch(rs: seq<Record>, hora: string, activo: string)
    ensures Latest(rs, hora, activo).None? <==> forall i :: 0 <= i < |rs| ==> KeyOf(rs[i]) != (hora, activo)
    ensures forall i :: 0 <= i < |rs| && KeyOf(rs[i]) == (hora, activo)
                        && (forall j :: i < j < |rs| ==> KeyOf(rs[j]) != (hora, activo))
                        ==> Latest(rs, hora, activo) == Some(rs[i].cambio)
  {
    if rs != [] {
      LatestIsLastMatch(rs[1..], hora, activo);
      forall i | 0 <= i < |rs| && KeyOf(rs[i]) == (hora, activo)
                 && (forall j :: i < j < |rs| ==> KeyOf(rs[j]) != (hora, activo))
        ensures Latest(rs, hora, activo) == Some(rs[i].cambio)
      {
        if i > 0 {
          assert rs[1..][i - 1] == rs[i];
          assert forall j :: i - 1 < j < |rs[1..]| ==> KeyOf(rs[1..][j]) != (hora, activo) by {
            forall j | i - 1 < j < |rs[1..]| ensures KeyOf(rs[1..][j]) != (hora, activo) {
              assert rs[1..][j] == rs[j + 1];
            }
          }
        } else {
          assert forall j :: 0 <= j < |rs[1..]| ==> KeyOf(rs[1..][j]) != (hora, activo) by {
            forall j | 0 <= j < |rs[1..]| ensures KeyOf(rs[1..][j]) != (hora, activo) {
              assert rs[1..][j] == rs[j + 1];
            }
          }
        }
      }
      if Latest(rs, hora, activo).None? {
        forall i | 0 <= i < |rs| ensures KeyOf(rs[i]) != (hora, activo) {
          if i > 0 { assert rs[1..][i - 1] == rs[i]; }
        }
      }
    }
  }

  /** Scanning one more document: it wins for its own key and changes nothing else. */
  lemma {:induction false} LatestSnoc(rs: seq<Record>, r: Record, hora: string, activo: string)
    ensures Latest(rs + [r], hora, activo)
            == if KeyOf(r) == (hora, activo) then Some(r.cambio) else Latest(rs, hora, activo)
  {
    if rs != [] {
      assert (rs + [r])[1..] == rs[1..] + [r];
      LatestSnoc(rs[1..], r, hora, activo);
    }
  }

  /**
   * The table read out of the collection has a bucket for `hora` exactly when
   * some document has that `hora`.
   */
  lemma {:induction false} GroupHoras(rs: seq<Record>, hora: string)
    ensures HasKey(Group(rs), hora) <==> exists i :: 0 <= i < |rs| && rs[i].hora == hora
  {
    if rs != [] {
      var p := rs[..|rs| - 1];
      var r := rs[|rs| - 1];
      assert rs == p + [r];
      HoraInSnoc(p, r, hora);
      GroupHoras(p, hora);
      AddRecordBuckets(Group(p), r, hora);
    }
  }

  /** Some document of `p + [r]` has `hora` iff some document of `p` has it or `r` has it. */
  lemma HoraInSnoc(p: seq<Record>, r: Record, hora: string)
    ensures (exists i :: 0 <= i < |p + [r]| && (p + [r])[i].hora == hora)
            <==> (exists i :: 0 <= i < |p| && p[i].hora == hora) || r.hora == hora
  {
    var rs := p + [r];
    if exists i :: 0 <= i < |rs| && rs[i].hora == hora {
      var i :| 0 <= i < |rs| && rs[i].hora == hora;
      if i < |p| { assert p[i] == rs[i]; }
    }
    if exists i :: 0 <= i < |p| && p[i].hora == hora {
      var i :| 0 <= i < |p| && p[i].hora == hora;
      assert rs[i] == p[i];
    }
    if r.hora == hora {
      assert rs[|p|] == r;
    }
  }

  /** One step of the fold adds the document's bucket and no other. */
  lemma AddRecordBuckets(t: Table, r: Record, hora: string)
    ensures HasKey(AddRecord(t, r), hora) <==> HasKey(t, hora) || hora == r.hora
  {
    var t1 := if HasKey(t, r.hora) then t else Put(t, r.hora, []);
    assert Get(t1, hora).Some? <==> Get(t, hora).Some? || hora == r.hora;
  }

  /**
   * Reading the grouped table at `[hora][activo]` gives the `cambio` of the
   * last document scanned for that pair, and undefined when there is none.
   */
  lemma {:induction false} GroupLookup(rs: seq<Record>, hora: string, activo: string)
    ensures Lookup(Group(rs), hora, activo) == Latest(rs, hora, activo)
  {
    if rs != [] {
      var p := rs[..|rs| - 1];
      var r := rs[|rs| - 1];
      assert rs == p + [r];
      AddRecordLookup(Group(p), r, hora, activo);
      GroupLookup(p, hora, activo);
      LatestSnoc(p, r, hora, activo);
    }
  }

  /** One step of the fold sets the document's own cell and leaves every other cell alone. */
  lemma AddRecordLookup(t: Table, r: Record, hora: string, activo: string)
    ensures Lookup(AddRecord(t, r), hora, activo)
            == if KeyOf(r) == (hora, activo) then Some(r.cambio) else Lookup(t, hora, activo)
  {
  }

  // ---------------------------------------------------------------------
  // Writing: updateOne({hora, activo}, {$set: {cambio}}, {upsert: true})
  // ---------------------------------------------------------------------

  /** The position of the first document matching the filter, or `|rs|` when none does. */
  function FirstMatch(rs: seq<Record>, hora: string, activo: string): (i: nat)
    ensures i <= |rs|
    ensures forall j :: 0 <= j < i ==> KeyOf(rs[j]) != (hora, activo)
    ensures i < |rs| ==> KeyOf(rs[i]) == (hora, activo)
  {
    if rs == [] then 0
    else if KeyOf(rs[0]) == (hora, activo) then 0
    else 1 + FirstMatch(rs[1..], hora, activo)
  }

  /**
   * An upsert: `$set` the `cambio` of the first document matching
   * `{hora, activo}` in place, or insert `{hora, activo, cambio}` at the end
   * when none matches.
   */
  function Upsert(rs: seq<Record>, hora: string, activo: string, cambio: Json): seq<Record> {
    var i := FirstMatch(rs, hora, activo);
    if i < |rs| then rs[i := Record(hora, activo, cambio)] else rs + [Record(hora, activo, cambio)]
  }

  /**
   * An upsert touches only the document matching its filter: every document
   * with another `(hora, activo)` keeps its place and its contents, and
   * afterwards the collection holds `{hora, activo, cambio}`.
   */
  lemma UpsertFrame(rs: seq<Record>, hora: string, activo: string, cambio: Json)
    ensures var r := Upsert(rs, hora, activo, cambio);
      && |rs| <= |r| <= |rs| + 1
      && (forall i :: 0 <= i < |rs| && KeyOf(rs[i]) != (hora, activo) ==> r[i] == rs[i])
      && (forall i :: 0 <= i < |rs| ==> KeyOf(r[i]) == KeyOf(rs[i]))
      && Record(hora, activo, cambio) in r
  {
  }

  /** Upserts never create a second document for a `(hora, activo)` pair. */
  lemma UpsertKeepsUnique(rs: seq<Record>, hora: string, activo: string, cambio: Json)
    requires UniqueKeys(rs)
    ensures UniqueKeys(Upsert(rs, hora, activo, cambio))
  {
  }

  /**
   * Two collections that agree position by position on which documents match
   * `(hora, activo)` and on their `cambio` read the same.
   */
  lemma {:induction false} LatestCongruent(rs: seq<Record>, ss: seq<Record>, hora: string, activo: string)
    requires |rs| == |ss|
    requires forall i :: 0 <= i < |rs| ==> (KeyOf(rs[i]) == (hora, activo) <==> KeyOf(ss[i]) == (hora, activo))
    requires forall i :: 0 <= i < |rs| && KeyOf(rs[i]) == (hora, activo) ==> rs[i].cambio == ss[i].cambio
    ensures Latest(rs, hora, activo) == Latest(ss, hora, activo)
  {
    if rs != [] {
      assert forall i :: 0 <= i < |rs[1..]| ==> rs[1..][i] == rs[i + 1] && ss[1..][i] == ss[i + 1];
      LatestCongruent(rs[1..], ss[1..], hora, activo);
    }
  }

  /**
   * Read-after-write for one upsert on a collection with unique keys: the
   * pair written reads back `cambio`, every other pair reads as before.
   */
  lemma UpsertLatest(rs: seq<Record>, hora: string, activo: string, cambio: Json, h: string, a: string)
    requires UniqueKeys(rs)
    ensures Latest(Upsert(rs, hora, activo, cambio), h, a)
            == if (h, a) == (hora, activo) then Some(cambio) else Latest(rs, h, a)
  {
    var r := Upsert(rs, hora, activo, cambio);
    var i := FirstMatch(rs, hora, activo);
    if i < |rs| {
      if (h, a) == (hora, activo) {
        assert r[i] == Record(h, a, cambio);
        assert forall j :: i < j < |r| ==> KeyOf(r[j]) != (h, a) by {
          forall j | i < j < |r| ensures KeyOf(r[j]) != (h, a) {
            assert r[j] == rs[j] && KeyOf(rs[j]) != KeyOf(rs[i]);
          }
        }
        LatestIsLastMatch(r, h, a);
      } else {
        LatestCongruent(rs, r, h, a);
      }
    } else {
      LatestSnoc(rs, Record(hora, activo, cambio), h, a);
    }
  }

  /** An upsert that finds its document already holding `cambio` changes nothing. */
  lemma UpsertNoop(rs: seq<Record>, hora: string, activo: string, cambio: Json)
    requires UniqueKeys(rs) && Record(hora, activo, cambio) in rs
    ensures Upsert(rs, hora, activo, cambio) == rs
  {
    var k :| 0 <= k < |rs| && rs[k] == Record(hora, activo, cambio);
    var i := FirstMatch(rs, hora, activo);
    assert i == k;
  }

  // ---------------------------------------------------------------------
  // The batch: Object.entries(cambios).map(...) then bulkWrite
  // ---------------------------------------------------------------------

  /** `bulkWrite` of the upserts built from `ops`, applied one after the other in entry order. */
  function ApplyBatch(rs: seq<Record>, hora: string, ops: Dict<Json>): seq<Record> {
    if ops == [] then rs
    else
      var n := |ops| - 1;
      Upsert(ApplyBatch(rs, hora, ops[..n]), hora, ops[n].0, ops[n].1)
  }

  /** A batch keeps at most one document per `(hora, activo)`. */
  lemma {:induction false} BatchKeepsUnique(rs: seq<Record>, hora: string, ops: Dict<Json>)
    requires UniqueKeys(rs)
    ensures UniqueKeys(ApplyBatch(rs, hora, ops))
  {
    if ops != [] {
      var n := |ops| - 1;
      BatchKeepsUnique(rs, hora, ops[..n]);
      UpsertKeepsUnique(ApplyBatch(rs, hora, ops[..n]), hora, ops[n].0, ops[n].1);
    }
  }

  /**
   * Read-after-write for a whole batch with distinct asset keys: at `hora`
   * every asset of the batch reads its entry, and every other `(h, a)` reads
   * as before the batch.
   */
  lemma {:induction false} BatchLatest(rs: seq<Record>, hora: string, ops: Dict<Json>, h: string, a: string)
    requires UniqueKeys(rs) && DistinctKeys(ops)
    ensures Latest(ApplyBatch(rs, hora, ops), h, a)
            == if h == hora && HasKey(ops, a) then Get(ops, a) else Latest(rs, h, a)
  {
    if ops != [] {
      var n := |ops| - 1;
      var p := ops[..n];
      assert ops == p + [ops[n]];
      DistinctPrefix(ops, n);
      BatchLatest(rs, hora, p, h, a);
      BatchKeepsUnique(rs, hora, p);
      UpsertLatest(ApplyBatch(rs, hora, p), hora, ops[n].0, ops[n].1, h, a);
      GetSnoc(p, ops[n].0, ops[n].1, a);
    }
  }

  /** A batch all of whose entries are already stored changes nothing. */
  lemma {:induction false} BatchNoop(rs: seq<Record>, hora: string, ops: Dict<Json>)
    requires UniqueKeys(rs)
    requires forall k :: 0 <= k < |ops| ==> Record(hora, ops[k].0, ops[k].1) in rs
    ensures ApplyBatch(rs, hora, ops) == rs
  {
    if ops != [] {
      var n := |ops| - 1;
      BatchNoop(rs, hora, ops[..n]);
      UpsertNoop(rs, hora, ops[n].0, ops[n].1);
    }
  }

  /**
   * Applying the same batch twice leaves the same collection as applying it
   * once: after the first pass every entry is stored, so each upsert of the
   * second pass finds its document already holding its value.
   */
  lemma BatchIdempotent(rs: seq<Record>, hora: string, ops: Dict<Json>)
    requires UniqueKeys(rs) && DistinctKeys(ops)
    ensures ApplyBatch(ApplyBatch(rs, hora, ops), hora, ops) == ApplyBatch(rs, hora, ops)
  {
    var s := ApplyBatch(rs, hora, ops);
    BatchKeepsUnique(rs, hora, ops);
    forall k | 0 <= k < |ops| ensures Record(hora, ops[k].0, ops[k].1) in s {
      GetAt(ops, k);
      KeysIndex(ops, k);
      BatchLatest(rs, hora, ops, hora, ops[k].0);
      LatestIsLastMatch(s, hora, ops[k].0);
      var i := FindLast(s, hora, ops[k].0);
    }
    BatchNoop(s, hora, ops);
  }

  /** The position of the last document with `(hora, activo)`, which `Latest` reports. */
  lemma FindLast(rs: seq<Record>, hora: string, activo: string) returns (i: nat)
    requires Latest(rs, hora, activo).Some?
    ensures i < |rs| && rs[i] == Record(hora, activo, Latest(rs, hora, activo).value)
  {
    LatestIsLastMatch(rs, hora, activo);
    var m :| 0 <= m < |rs| && KeyOf(rs[m]) == (hora, activo);
    i := m;
    while exists j :: i < j < |rs| && KeyOf(rs[j]) == (hora, activo)
      invariant i < |rs| && KeyOf(rs[i]) == (hora, activo)
      decreases |rs| - i
    {
      var j :| i < j < |rs| && KeyOf(rs[j]) == (hora, activo);
      i := j;
    }
  }

  /**
   * Why the store relies on unique keys: when two documents already share a
   * `(hora, activo)`, the upsert rewrites the first one while the read-out
   * still shows the second, so the value just written is not read back.
   */
  lemma DuplicateHidesUpsert()
    ensures var rs := [Record("2024-08-29T14:00", "Bitcoin", Str("Baja")),
                       Record("2024-08-29T14:00", "Bitcoin", Str("Baja"))];
            Lookup(Group(Upsert(rs, "2024-08-29T14:00", "Bitcoin", Str("Sube"))),
                   "2024-08-29T14:00", "Bitcoin") == Some(Str("Baja"))
  {
    var rs := [Record("2024-08-29T14:00", "Bitcoin", Str("Baja")),
               Record("2024-08-29T14:00", "Bitcoin", Str("Baja"))];
    var r := Upsert(rs, "2024-08-29T14:00", "Bitcoin", Str("Sube"));
    assert r == [Record("2024-08-29T14:00", "Bitcoin", Str("Sube")),
                 Record("2024-08-29T14:00", "Bitcoin", Str("Baja"))];
    GroupLookup(r, "2024-08-29T14:00", "Bitcoin");
    assert r[1..] == [Record("2024-08-29T14:00", "Bitcoin", Str("Baja"))];
  }

  // ---------------------------------------------------------------------
  // POST /api/historial/registro
  // ---------------------------------------------------------------------

  /** The 400 message of registrarCambio. */
  const MissingFields := "Faltan campos hora o cambios"

  /**
   * The validation `!hora || !cambios || typeof cambios !== 'object'` lets
   * the request through: a non-empty `hora` and a truthy object or array
   * `cambios` (`null` is excluded by the truthiness test).
   */
  predicate RequestIsComplete(hora: Option<string>, cambios: Option<Json>) {
    hora.Some? && hora.value != ""
    && cambios.Some? && Truthy(cambios.value) && (cambios.value.Obj? || cambios.value.Arr?)
  }

  /** `{ok: true, historial}` or a 400 with `{error}`. */
  datatype RegistroResponse = Registered(historial: Table) | Rejected(error: string)

  /** The collection after a request, with the reply sent. */
  datatype Registro = Registro(store: seq<Record>, response: RegistroResponse)

  /**
   * registrarCambio: validate, upsert one document per entry of `cambios`
   * (skipping `bulkWrite` for an empty batch), then re-read and regroup the
   * whole collection.
   */
  function Registrar(rs: seq<Record>, hora: Option<string>, cambios: Option<Json>): Registro {
    if !RequestIsComplete(hora, cambios) then Registro(rs, Rejected(MissingFields))
    else
      var ops := ObjectEntries(cambios.value);
      var store := if |ops| > 0 then ApplyBatch(rs, hora.value, ops) else rs;
      Registro(store, Registered(Group(store)))
  }

  /**
   * A missing or empty `hora`, or a missing, falsy or non-object `cambios`,
   * is answered with a 400 and writes nothing.
   */
  lemma RegistrarRejectsIncomplete(rs: seq<Record>, hora: Option<string>, cambios: Option<Json>)
    requires hora.None? || hora == Some("") || cambios.None?
             || (cambios.Some? && !(cambios.value.Obj? || cambios.value.Arr?))
             || cambios == Some(Null)
    ensures Registrar(rs, hora, cambios) == Registro(rs, Rejected(MissingFields))
  {
  }

  /** An empty `cambios` writes nothing and returns the current table. */
  lemma RegistrarEmptyBatch(rs: seq<Record>, hora: string, cambios: Json)
    requires hora != "" && (cambios == Obj([]) || cambios == Arr([]))
    ensures Registrar(rs, Some(hora), Some(cambios)) == Registro(rs, Registered(Group(rs)))
  {
  }

  /**
   * Read-after-write for a request: the returned table has
   * `historial[hora][activo] == cambio` for every entry of `cambios`, and
   * every other `(h, a)` reads as it did before the request.
   */
  lemma RegistrarReadAfterWrite(rs: seq<Record>, hora: Option<string>, cambios: Option<Json>, h: string, a: string)
    requires UniqueKeys(rs) && RequestIsComplete(hora, cambios)
    requires (cambios.value.Obj? ==> DistinctKeys(cambios.value.fields))
    ensures var r := Registrar(rs, hora, cambios);
            var ops := ObjectEntries(cambios.value);
            && r.response.Registered?
            && Lookup(r.response.historial, h, a)
               == if h == hora.value && HasKey(ops, a) then Get(ops, a) else Lookup(Group(rs), h, a)
  {
    var ops := ObjectEntries(cambios.value);
    ObjectEntriesDistinct(cambios.value);
    var r := Registrar(rs, hora, cambios);
    GroupLookup(r.store, h, a);
    GroupLookup(rs, h, a);
    if |ops| > 0 {
      BatchLatest(rs, hora.value, ops, h, a);
    }
  }

  /** Sending the same request twice leaves the store and the reply as after sending it once. */
  lemma RegistrarIdempotent(rs: seq<Record>, hora: Option<string>, cambios: Option<Json>)
    requires RequestIsComplete(hora, cambios)
    requires UniqueKeys(rs) && (cambios.value.Obj? ==> DistinctKeys(cambios.value.fields))
    ensures var once := Registrar(rs, hora, cambios);
            Registrar(once.store, hora, cambios) == once
  {
    var ops := ObjectEntries(cambios.value);
    ObjectEntriesDistinct(cambios.value);
    if |ops| > 0 {
      BatchIdempotent(rs, hora.value, ops);
    }
  }

  /**
   * The entries of `cambios` have distinct keys, so the order in which they
   * are applied does not change the table returned.
   */
  lemma RegistrarOrderIndependent(rs: seq<Record>, hora: Option<string>, c1: Option<Json>, c2: Option<Json>,
                                  h: string, a: string)
    requires UniqueKeys(rs) && RequestIsComplete(hora, c1) && RequestIsComplete(hora, c2)
    requires (c1.value.Obj? ==> DistinctKeys(c1.value.fields)) && (c2.value.Obj? ==> DistinctKeys(c2.value.fields))
    requires multiset(ObjectEntries(c1.value)) == multiset(ObjectEntries(c2.value))
    ensures Lookup(Registrar(rs, hora, c1).response.historial, h, a)
            == Lookup(Registrar(rs, hora, c2).response.historial, h, a)
  {
    RegistrarReadAfterWrite(rs, hora, c1, h, a);
    RegistrarReadAfterWrite(rs, hora, c2, h, a);
    ObjectEntriesDistinct(c1.value);
    ObjectEntriesDistinct(c2.value);
    SameEntriesSameReads(ObjectEntries(c1.value), ObjectEntries(c2.value), a);
  }

  /** The `historial` collection, as the controller sees it. */
  class HistorialCollection {
    var records: seq<Record>

    /** The store keeps one document per `(hora, activo)`. */
    ghost predicate Valid()
      reads this
    {
      UniqueKeys(records)
    }

    constructor ()
      ensures Valid() && records == []
    {
      records := [];
    }

    /** GET /api/historial: scan every document and group it by `hora`, then by `activo`. */
    method GetHistorial() returns (historial: Table)
      ensures historial == Group(records)
    {
      historial := [];
      var i := 0;
      while i < |records|
        invariant 0 <= i <= |records|
        invariant historial == Group(records[..i])
      {
        var doc := records[i];
        ghost var before := historial;
        if !HasKey(historial, doc.hora) {
          historial := Put(historial, doc.hora, []);
        }
        var row := Get(historial, doc.hora).value;
        historial := Put(historial, doc.hora, Put(row, doc.activo, doc.cambio));
        assert historial == AddRecord(before, doc);
        GroupStep(records, i);
        i := i + 1;
      }
      assert records[..i] == records;
    }

    /** `updateOne({hora, activo}, {$set: {cambio}}, {upsert: true})`. */
    method UpdateOne(hora: string, activo: string, cambio: Json)
      requires Valid()
      modifies this
      ensures Valid()
      ensures records == Upsert(old(records), hora, activo, cambio)
    {
      var i := 0;
      while i < |records| && KeyOf(records[i]) != (hora, activo)
        invariant 0 <= i <= |records|
        invariant forall j :: 0 <= j < i ==> KeyOf(records[j]) != (hora, activo)
      {
        i := i + 1;
      }
      assert i == FirstMatch(records, hora, activo);
      UpsertKeepsUnique(records, hora, activo, cambio);
      if i < |records| {
        records := records[i := Record(hora, activo, cambio)];
      } else {
        records := records + [Record(hora, activo, cambio)];
      }
    }

    /** `bulkWrite(bulkOps)`: the upserts one after the other, in entry order. */
    method BulkWrite(hora: string, ops: Dict<Json>)
      requires Valid()
      modifies this
      ensures Valid()
      ensures records == ApplyBatch(old(records), hora, ops)
    {
      var i := 0;
      while i < |ops|
        invariant 0 <= i <= |ops|
        invariant Valid()
        invariant records == ApplyBatch(old(records), hora, ops[..i])
      {
        assert ops[..i + 1][..i] == ops[..i];
        UpdateOne(hora, ops[i].0, ops[i].1);
        i := i + 1;
      }
      assert ops[..i] == ops;
    }

    /** POST /api/historial/registro with body `{hora, cambios}`. */
    method RegistrarCambio(hora: Option<string>, cambios: Option<Json>) returns (response: RegistroResponse)
      requires Valid()
      modifies this
      ensures Valid()
      ensures Registro(records, response) == Registrar(old(records), hora, cambios)
    {
      if hora.None? || hora.value == "" || cambios.None? || !Truthy(cambios.value)
         || !(cambios.value.Obj? || cambios.value.Arr?) {
        return Rejected(MissingFields);
      }
      var bulkOps := ObjectEntries(cambios.value);
      if |bulkOps| > 0 {
        BulkWrite(hora.value, bulkOps);
      }
      var historial := GetHistorial();
      response := Registered(historial);
    }
  }
}

/**
 * The catalog the seed loader writes, used as a concrete fixture: it shows
 * that the listing gives the seed object back and what the pages make of it.
 */
module SeedData {
  import opened Options
  import opened JsObject
  import opened Json
  import opened HalfHourBoard
  import opened ComportamientosController
  import opened SimuladorPage
  import opened VerComportamientos

  /** `{"Sube": ..., "Baja": ...}` for one principal asset. */
  function Branches(sube: Dict<Json>, baja: Dict<Json>): Json {
    Obj([("Sube", Obj(sube)), ("Baja", Obj(baja))])
  }

  /** The seed's `comportamientos` object. */
  function Seed(): Dict<Json> {
    [ ("Bitcoin", Obj([("Bitcoin (BTC)", Branches(
          [("Ethereum (ETH)", Str("Sube")), ("Cardano (ADA)", Str("Sube")), ("Ripple (XRP)", Str("Baja"))],
          [("Ethereum (ETH)", Str("Baja")), ("Dogecoin (DOGE)", Str("Baja")), ("Shiba Inu (SHIB)", Str("Baja"))]))])),
      ("Ethereum", Obj([("Ethereum (ETH)", Branches(
          [("Polygon (MATIC)", Str("Sube")), ("Avalanche (AVAX)", Str("Sube")), ("Cardano (ADA)", Str("Sube"))],
          [("Polygon (MATIC)", Str("Baja")), ("Solana (SOL)", Str("Baja"))]))])),
      ("Regulaci\U{00F3}n", Obj([("Bitcoin (BTC)", Branches(
          [("Ripple (XRP)", Str("Sube"))],
          [("Bitcoin (BTC)", Str("Baja")), ("Ethereum (ETH)", Str("Baja")), ("Cardano (ADA)", Str("Baja"))]))])),
      ("Hackeo", Obj([("Solana (SOL)", Branches(
          [("Bitcoin (BTC)", Str("Baja"))],
          [("Solana (SOL)", Str("Baja")), ("Ethereum (ETH)", Str("Baja"))]))])),
      ("ETF aprobado", Obj([("Bitcoin (BTC)", Obj([("Sube", Obj(
          [("Bitcoin (BTC)", Str("Sube")), ("Ethereum (ETH)", Str("Sube"))]))]))])),
      ("Halving", Obj([("Bitcoin (BTC)", Obj([("Sube", Obj(
          [("Bitcoin (BTC)", Str("Sube")), ("Aave (AAVE)", Str("Sube"))]))]))]))
    ]
  }

  /** `Object.entries(comportamientos).map(([evento, datos]) => ({evento, datos}))`. */
  function SeedDocs(d: Dict<Json>): (docs: seq<BehaviorDoc>)
    ensures |docs| == |d|
    ensures forall i :: 0 <= i < |d| ==> docs[i] == BehaviorDoc(d[i].0, d[i].1)
  {
    if d == [] then [] else SeedDocs(d[..|d| - 1]) + [BehaviorDoc(d[|d| - 1].0, d[|d| - 1].1)]
  }

  /** Listing a catalog seeded from an object gives that object back, keys in the same order. */
  lemma {:induction false} SeedRoundTrip(d: Dict<Json>)
    requires DistinctKeys(d)
    ensures Catalog(SeedDocs(d)) == d
  {
    if d != [] {
      var init := d[..|d| - 1];
      var last := d[|d| - 1];
      var docs := SeedDocs(init) + [BehaviorDoc(last.0, last.1)];
      assert SeedDocs(d) == docs;
      assert Catalog(SeedDocs(init)) == init by {
        DistinctPrefix(d, |d| - 1);
        SeedRoundTrip(init);
      }
      assert Catalog(docs) == Put(init, last.0, last.1) by {
        CatalogSnoc(SeedDocs(init), BehaviorDoc(last.0, last.1));
      }
      assert Put(init, last.0, last.1) == d by {
        LastKeyFresh(d);
        PutFresh(init, last.0, last.1);
        assert init + [last] == d;
      }
    }
  }

  /** A "Sube" branch may lower other assets: Bitcoin rising lowers Ripple. */
  lemma SubeBranchLowersRipple()
    ensures Member(ImpactLookup(Seed(), "Bitcoin", "Bitcoin (BTC)", "Sube"), "Ripple (XRP)") == Some(Str("Baja"))
  {
    var sube := [("Ethereum (ETH)", Str("Sube")), ("Cardano (ADA)", Str("Sube")), ("Ripple (XRP)", Str("Baja"))];
    var baja := [("Ethereum (ETH)", Str("Baja")), ("Dogecoin (DOGE)", Str("Baja")), ("Shiba Inu (SHIB)", Str("Baja"))];
    var porActivo := [("Bitcoin (BTC)", Branches(sube, baja))];
    assert Get(Seed(), "Bitcoin") == Some(Obj(porActivo)) by {
      assert Seed()[0] == ("Bitcoin", Obj(porActivo));
    }
    assert Get(Branches(sube, baja).fields, "Sube") == Some(Obj(sube));
    assert ImpactLookup(Seed(), "Bitcoin", "Bitcoin (BTC)", "Sube") == Obj(sube) by {
      ImpactLookupFound(Seed(), "Bitcoin", "Bitcoin (BTC)", "Sube", porActivo, Branches(sube, baja).fields, sube);
    }
    assert Get(sube, "Ripple (XRP)") == Some(Str("Baja")) by {
      assert "Ripple (XRP)" != "Ethereum (ETH)" && "Ripple (XRP)" != "Cardano (ADA)";
    }
  }

  /** A branch the seed does not define ("Baja" for Halving) gives no impacts. */
  lemma HalvingHasNoBajaBranch()
    ensures ImpactLookup(Seed(), "Halving", "Bitcoin (BTC)", "Baja") == Null
  {
    var porCambio := [("Sube", Obj([("Bitcoin (BTC)", Str("Sube")), ("Aave (AAVE)", Str("Sube"))]))];
    var porActivo := [("Bitcoin (BTC)", Obj(porCambio))];
    assert Get(Seed(), "Halving") == Some(Obj(porActivo));
    assert Get(porActivo, "Bitcoin (BTC)") == Some(Obj(porCambio));
    assert "Baja" != "Sube";
  }

  /**
   * The Regulación card lists Ripple as rising and Bitcoin, Ethereum and
   * Cardano as falling; `efectos` is the seed's Bitcoin branch of that event.
   */
  lemma RegulacionLists(efectos: Json)
    requires efectos == Branches([("Ripple (XRP)", Str("Sube"))],
               [("Bitcoin (BTC)", Str("Baja")), ("Ethereum (ETH)", Str("Baja")), ("Cardano (ADA)", Str("Baja"))])
    ensures Get(Seed(), "Regulaci\U{00F3}n") == Some(Obj([("Bitcoin (BTC)", efectos)]))
    ensures ItemsOf(ListaActivos(efectos), Up) == ["Ripple (XRP)"]
    ensures ItemsOf(ListaActivos(efectos), Down) == ["Bitcoin (BTC)", "Ethereum (ETH)", "Cardano (ADA)"]
    ensures TipoPrincipal(efectos) == Some("")
  {
    var sube := [("Ripple (XRP)", Str("Sube"))];
    var baja := [("Bitcoin (BTC)", Str("Baja")), ("Ethereum (ETH)", Str("Baja")), ("Cardano (ADA)", Str("Baja"))];
    assert Member(efectos, "Sube") == Some(Obj(sube));
    assert Member(efectos, "Baja") == Some(Obj(baja)) by {
      assert "Baja" != "Sube";
    }
    assert SectionKeys(efectos, "Sube") == ["Ripple (XRP)"];
    assert SectionKeys(efectos, "Baja") == ["Bitcoin (BTC)", "Ethereum (ETH)", "Cardano (ADA)"];
    ListaItems(efectos);
    assert Member(efectos, "tipoPrincipal") == None by {
      assert "tipoPrincipal" != "Sube" && "tipoPrincipal" != "Baja";
    }
    RegulacionBranch(efectos);
  }

  /** The seed's Regulación event holds one principal, Bitcoin, with exactly these branches. */
  lemma RegulacionBranch(efectos: Json)
    requires efectos == Branches([("Ripple (XRP)", Str("Sube"))],
               [("Bitcoin (BTC)", Str("Baja")), ("Ethereum (ETH)", Str("Baja")), ("Cardano (ADA)", Str("Baja"))])
    ensures Get(Seed(), "Regulaci\U{00F3}n") == Some(Obj([("Bitcoin (BTC)", efectos)]))
  {
    var sd := Seed();
    assert |"Bitcoin"| == 7 && |"Ethereum"| == 8 && |"Regulaci\U{00F3}n"| == 10;
    assert Get(sd, "Regulaci\U{00F3}n") == Get(sd[1..], "Regulaci\U{00F3}n");
    assert Get(sd[1..], "Regulaci\U{00F3}n") == Get(sd[2..], "Regulaci\U{00F3}n") by {
      assert sd[1..][1..] == sd[2..];
    }
  }
}

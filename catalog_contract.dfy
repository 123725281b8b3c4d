/**
 * The contract between the two routes: the options the install creates are
 * exactly the names the quotation engine can resolve, and each of them, when
 * a checkout declares it, passes the filter and is looked up once.
 */
module CatalogContract {
  import opened Wrappers
  import opened JsBuiltins
  import Provisioning
  import Quotation

  /** The catalog's names and the alias map's keys are the same five names. */
  lemma CatalogNamesAreAliases()
    ensures forall e :: e in Provisioning.Catalog ==> e.name in Quotation.SheetMap
    ensures forall name :: name in Quotation.SheetMap ==>
      exists e :: e in Provisioning.Catalog && e.name == name
  {
    var c := Provisioning.Catalog;
    assert forall name :: name in Quotation.SheetMap ==> name in {c[0].name, c[1].name, c[2].name, c[3].name, c[4].name};
  }

  /** Upper case, no white space at the ends, and no occurrence of the pickup marker. */
  ghost predicate PlainName(s: string) {
    && (forall k :: 0 <= k < |s| ==> !IsLowerCase(s[k]))
    && Trimmed(s) && s != []
    && !exists i :: OccursAt(s, Quotation.Marker, i)
  }

  lemma NoMarkerIn(s: string)
    requires s in {"ANDREANI A DOMICILIO", "CORREO ARGENTINO A DOMICILIO", "OCA A DOMICILIO",
                   "URBANO A DOMICILIO", "ANDREANI BIGGER A DOM"}
    ensures !exists i :: OccursAt(s, Quotation.Marker, i)
  {
    forall i | 0 <= i <= |s| - |Quotation.Marker|
      ensures !OccursAt(s, Quotation.Marker, i)
    {
      assert s[i..i + 8][0] == s[i];
      assert s[i..i + 8][1] == s[i + 1];
    }
  }

  lemma UpperAndTrimmed(s: string)
    requires s in {"ANDREANI A DOMICILIO", "CORREO ARGENTINO A DOMICILIO", "OCA A DOMICILIO",
                   "URBANO A DOMICILIO", "ANDREANI BIGGER A DOM"}
    ensures forall k :: 0 <= k < |s| ==> !IsLowerCase(s[k])
    ensures Trimmed(s) && s != []
  {
  }

  lemma CatalogNamePlain(i: nat)
    requires i < |Provisioning.Catalog|
    ensures PlainName(Provisioning.Catalog[i].name)
  {
    var s := Provisioning.Catalog[i].name;
    assert s in {"ANDREANI A DOMICILIO", "CORREO ARGENTINO A DOMICILIO", "OCA A DOMICILIO",
                 "URBANO A DOMICILIO", "ANDREANI BIGGER A DOM"};
    NoMarkerIn(s);
    UpperAndTrimmed(s);
  }

  /**
   * Every catalog name survives the quotation engine's normalisation and
   * filter unchanged: upper-casing and trimming give the name back, and it
   * does not include the pickup marker.
   */
  lemma CatalogNamesPassFilter(e: Provisioning.CatalogEntry)
    requires e in Provisioning.Catalog
    ensures Quotation.Normalize(e.name) == e.name
    ensures !Includes(ToUpperCase(e.name), Quotation.Marker)
  {
    var i :| 0 <= i < |Provisioning.Catalog| && Provisioning.Catalog[i] == e;
    CatalogNamePlain(i);
    UpperCaseFixed(e.name);
    IncludesAt(e.name, Quotation.Marker);
    TrimStrips([], e.name, []);
    assert [] + e.name + [] == e.name;
  }

  /**
   * An option created by the install and declared at checkout under its
   * catalog name passes the filter and costs exactly one rate-table call, for
   * its own alias; when that call answers rows, the rate (if any) is built
   * from the first row whose trimmed, upper-cased name is the catalog name.
   */
  lemma CatalogOptionLookedUp(e: Provisioning.CatalogEntry, o: Quotation.ShippingOption,
                              grams: int, postal: string, now: int, table: Quotation.RateTable)
    requires e in Provisioning.Catalog && o.name == Some(e.name)
    ensures Quotation.OptionsToProcess([Quotation.Entry(o)]) == Success([o])
    ensures Quotation.Run([o], grams, postal, now, table).lookups
         == [Quotation.Lookup(Quotation.SheetMap[e.name], grams, postal)]
    ensures var answer := table(Quotation.Lookup(Quotation.SheetMap[e.name], grams, postal));
      answer.Success? && Quotation.FindRow(answer.value, e.name).Found? ==>
        Quotation.Run([o], grams, postal, now, table).rates
          == [Quotation.BuildRate(o, answer.value[Quotation.FindRow(answer.value, e.name).index].cost, now)]
  {
    var name := e.name;
    CatalogNamesAreAliases();
    assert name in Quotation.SheetMap;
    CatalogNamesPassFilter(e);
    assert Quotation.Kept(o);
    assert Quotation.Offered([Quotation.Entry(o)]) == [o] by {
      assert [Quotation.Entry(o)][1..] == [];
    }
    var step := Quotation.Step(o, grams, postal, now, table);
    assert Quotation.Run([o], grams, postal, now, table) == Quotation.Then(step, Quotation.Progress([], [], false)) by {
      assert [o][1..] == [];
    }
    assert Quotation.SheetFor(name) == Some(Quotation.SheetMap[name]);
  }

  lemma LowerOcaUpperCased()
    ensures ToUpperCase("oca a domicilio") == "OCA A DOMICILIO"
  {
  }

  /** A row named "oca a domicilio" with any white space around it matches the catalog name. */
  lemma PaddedRowNameMatches(before: string, after: string)
    requires AllWhiteSpace(before) && AllWhiteSpace(after)
    ensures Quotation.Normalize(before + "oca a domicilio" + after) == "OCA A DOMICILIO"
  {
    TrimStrips(before, "oca a domicilio", after);
    LowerOcaUpperCased();
  }

  function ExampleBody(o: Quotation.ShippingOption): Quotation.Body {
    Quotation.Body(
      0, Some(Quotation.Address(None, Some("1406"))), None, Some([Quotation.Item(1000, 2)]),
      Some(Quotation.CarrierField(Some([Quotation.Entry(o)]))))
  }

  lemma ExampleBodyFields(o: Quotation.ShippingOption)
    ensures var body := ExampleBody(o);
      && !Quotation.NoData(Some(body)) && Quotation.PostalCode(body) == Some("1406")
      && Quotation.AllOptions(body) == [Quotation.Entry(o)]
      && Quotation.WeightSum(Quotation.ItemsOf(body)) == 2000
  {
    var items := [Quotation.Item(1000, 2)];
    assert items[..0] == [];
  }

  /** A body whose only declared option passes the filter is answered with that option's run. */
  lemma SingleOptionQuote(body: Quotation.Body, o: Quotation.ShippingOption, now: int, table: Quotation.RateTable)
    requires !Quotation.NoData(Some(body)) && Quotation.PostalCode(body).Some?
    requires Quotation.AllOptions(body) == [Quotation.Entry(o)] && Quotation.Kept(o)
    ensures var run := Quotation.Run([o], Quotation.WeightSum(Quotation.ItemsOf(body)), Quotation.PostalCode(body).value, now, table);
      Quotation.Quotation(Some(body), now, table)
        == if run.failed then Quotation.Quote(Quotation.QuoteResponse(200, [], Some(Quotation.InternalError)), run.lookups)
           else Quotation.Quote(Quotation.QuoteResponse(200, run.rates, None), run.lookups)
  {
    assert Quotation.Offered([Quotation.Entry(o)]) == [o] by {
      assert [Quotation.Entry(o)][1..] == [];
    }
  }

  lemma OcaAlias()
    ensures "OCA A DOMICILIO" in Quotation.SheetMap && Quotation.SheetMap["OCA A DOMICILIO"] == "OCA DOM"
  {
  }

  /**
   * A catalog option whose rate table answers a single row, named like the
   * option up to case and surrounding white space, is quoted at that row's
   * cost after exactly one call.
   */
  lemma CatalogOptionRate(e: Provisioning.CatalogEntry, o: Quotation.ShippingOption, grams: int, postal: string,
                          now: int, table: Quotation.RateTable, rowName: string, cost: int)
    requires e in Provisioning.Catalog && o.name == Some(e.name)
    requires table(Quotation.Lookup(Quotation.SheetMap[e.name], grams, postal))
          == Success([Quotation.Row(Some(rowName), cost)])
    requires Quotation.Normalize(rowName) == e.name
    ensures Quotation.Run([o], grams, postal, now, table)
         == Quotation.Progress([Quotation.BuildRate(o, cost, now)], [Quotation.Lookup(Quotation.SheetMap[e.name], grams, postal)], false)
  {
    var rows := [Quotation.Row(Some(rowName), cost)];
    assert Quotation.FindRow(rows, e.name) == Quotation.Found(0);
    CatalogOptionLookedUp(e, o, grams, postal, now, table);
  }

  /**
   * A worked checkout: postal code "1406", one item of 1000 g times 2, one
   * declared option "OCA A DOMICILIO", and a rate table "OCA DOM" whose only
   * row is "oca a domicilio" with any white space around it, at cost 1500.
   * The answer is exactly one rate at price 1500 in ARS, delivered between
   * now and seven days later, after exactly one rate-table call.
   */
  lemma CheckoutExample(now: int, table: Quotation.RateTable, before: string, after: string)
    requires AllWhiteSpace(before) && AllWhiteSpace(after)
    requires table(Quotation.Lookup("OCA DOM", 2000, "1406"))
          == Success([Quotation.Row(Some(before + "oca a domicilio" + after), 1500)])
    ensures Quotation.Quotation(Some(ExampleBody(Quotation.ShippingOption(7, Some("OCA A DOMICILIO"), "OCA_DOM"))), now, table)
         == Quotation.Quote(
              Quotation.QuoteResponse(200, [Quotation.Rate(7, "OCA A DOMICILIO", "OCA_DOM", 1500, 1500, "ARS", "ship",
                                                          now, now + 7 * Quotation.DayMillis, false, "ref123")], None),
              [Quotation.Lookup("OCA DOM", 2000, "1406")])
  {
    var o := Quotation.ShippingOption(7, Some("OCA A DOMICILIO"), "OCA_DOM");
    ExampleBodyFields(o);
    OcaAlias();
    CatalogNamesAreAliases();
    var e :| e in Provisioning.Catalog && e.name == "OCA A DOMICILIO";
    CatalogNamesPassFilter(e);
    PaddedRowNameMatches(before, after);
    CatalogOptionRate(e, o, 2000, "1406", now, table, before + "oca a domicilio" + after, 1500);
    SingleOptionQuote(ExampleBody(o), o, now, table);
  }
}

/**
 * The rate quotation engine of src/routes/shippingRoutes.js (`/shipping_rates`):
 * reject an empty body, pick the postal code, add up the weight, drop the
 * pickup ("SUCURSAL") options, and for every remaining option resolve its
 * rate table through the alias map, ask the rate-table service for rows and
 * turn the first row whose normalised name matches into a rate. Anything
 * thrown inside the processing block becomes an empty list with an error.
 * Every answer has status 200.
 *
 * The rate-table service is a function parameter; a `Failure` is what its
 * awaited call threw. Weights are integer grams.
 */
module Quotation {
  import opened Wrappers
  import opened JsBuiltins

  datatype Address = Address(zipcode: Option<string>, postalCode: Option<string>)

  datatype Item = Item(grams: int, quantity: int)

  /** A declared carrier option; `name` is `None` when it is not a string. */
  datatype ShippingOption = ShippingOption(id: int, name: Option<string>, code: string)

  /** An option whose name is a string, as the filter guarantees. */
  type NamedOption = o: ShippingOption | o.name.Some? witness ShippingOption(0, Some(""), "")

  /** An element of `carrier.options`: `Null` stands for a `null` entry. */
  datatype OptionEntry = Null | Entry(option: ShippingOption)

  datatype CarrierField = CarrierField(options: Option<seq<OptionEntry>>)

  /**
   * The request body. `otherKeys` counts the keys the handler never reads;
   * a `None` field is a key that is absent.
   */
  datatype Body = Body(
    otherKeys: nat,
    destination: Option<Address>, origin: Option<Address>,
    items: Option<seq<Item>>, carrier: Option<CarrierField>)

  /** A row of a rate table; `name` is `None` when it is not a string. */
  datatype Row = Row(name: Option<string>, cost: int)

  /** One call to the rate-table service. */
  datatype Lookup = Lookup(sheet: string, grams: int, postalCode: string)

  type RateTable = Lookup -> Result<seq<Row>, string>

  datatype Rate = Rate(
    id: int, name: string, code: string,
    price: int, priceMerchant: int, currency: string, shippingType: string,
    minDeliveryDate: int, maxDeliveryDate: int,
    phoneRequired: bool, reference: string)

  datatype QuoteResponse = QuoteResponse(status: int, rates: seq<Rate>, error: Option<string>)

  /** The response together with the rate-table calls made to produce it. */
  datatype Quote = Quote(response: QuoteResponse, lookups: seq<Lookup>)

  const Marker := "SUCURSAL"
  const InternalError := "Error interno al calcular el envío."
  const DayMillis := 86400000

  /** Option display name to rate-table name. */
  const SheetMap: map<string, string> := map[
    "ANDREANI A DOMICILIO" := "ANDREANI DOM",
    "CORREO ARGENTINO A DOMICILIO" := "CA DOM",
    "OCA A DOMICILIO" := "OCA DOM",
    "URBANO A DOMICILIO" := "URBANO",
    "ANDREANI BIGGER A DOM" := "ANDREANI BIGGER A DOM"
  ]

  // ------------------------------------------------------------ the body

  function KeyCount(b: Body): nat {
    b.otherKeys
    + (if b.destination.Some? then 1 else 0) + (if b.origin.Some? then 1 else 0)
    + (if b.items.Some? then 1 else 0) + (if b.carrier.Some? then 1 else 0)
  }

  /** `!data || Object.keys(data).length === 0` */
  predicate NoData(body: Option<Body>) {
    body.None? || KeyCount(body.value) == 0
  }

  function DestinationZip(b: Body): Option<string> {
    if b.destination.Some? then b.destination.value.zipcode else None
  }

  function DestinationPostal(b: Body): Option<string> {
    if b.destination.Some? then b.destination.value.postalCode else None
  }

  function OriginPostal(b: Body): Option<string> {
    if b.origin.Some? then b.origin.value.postalCode else None
  }

  /**
   * The postal code: the first truthy of the destination zip code, the
   * destination postal code and the origin postal code; `None` when none is.
   */
  function PostalCode(b: Body): (r: Option<string>)
    ensures r.Some? ==> r.value != ""
    ensures r.None? <==> !Truthy(DestinationZip(b)) && !Truthy(DestinationPostal(b)) && !Truthy(OriginPostal(b))
    ensures Truthy(DestinationZip(b)) ==> r == DestinationZip(b)
    ensures !Truthy(DestinationZip(b)) && Truthy(DestinationPostal(b)) ==> r == DestinationPostal(b)
    ensures !Truthy(DestinationZip(b)) && !Truthy(DestinationPostal(b)) ==> r.None? || r == OriginPostal(b)
  {
    var code := Or(Or(DestinationZip(b), DestinationPostal(b)), OriginPostal(b));
    if Truthy(code) then code else None
  }

  function ItemsOf(b: Body): seq<Item> {
    if b.items.Some? then b.items.value else []
  }

  function AllOptions(b: Body): seq<OptionEntry> {
    if b.carrier.Some? && b.carrier.value.options.Some? then b.carrier.value.options.value else []
  }

  // ------------------------------------------------------------ weight

  /** Total weight in grams: the sum of grams times quantity. */
  function WeightSum(items: seq<Item>): int {
    if items == [] then 0
    else WeightSum(items[..|items| - 1]) + items[|items| - 1].grams * items[|items| - 1].quantity
  }

  /** The weight of a concatenation is the sum of the weights. */
  lemma {:induction false} WeightSumAppend(a: seq<Item>, b: seq<Item>)
    ensures WeightSum(a + b) == WeightSum(a) + WeightSum(b)
    decreases |b|
  {
    if b == [] {
      assert a + b == a;
    } else {
      assert (a + b)[..|a + b| - 1] == a + b[..|b| - 1];
      assert (a + b)[|a + b| - 1] == b[|b| - 1];
      WeightSumAppend(a, b[..|b| - 1]);
    }
  }

  /** The accumulator loop over the items. */
  method TotalWeight(items: seq<Item>) returns (grams: int)
    ensures grams == WeightSum(items)
  {
    grams := 0;
    var i := 0;
    while i < |items|
      invariant 0 <= i <= |items|
      invariant grams == WeightSum(items[..i])
    {
      assert items[..i + 1][..i] == items[..i];
      grams := grams + items[i].grams * items[i].quantity;
      i := i + 1;
    }
    assert items[..i] == items;
  }

  // ------------------------------------------------------------ filtering

  /** Kept by the filter: a string name whose upper case does not include the pickup marker. */
  predicate Kept(o: ShippingOption) {
    o.name.Some? && !Includes(ToUpperCase(o.name.value), Marker)
  }

  /** The offered options among `entries`, in their order. */
  function Offered(entries: seq<OptionEntry>): (r: seq<NamedOption>)
    ensures |r| <= |entries|
    ensures forall o: ShippingOption :: o in r <==> Entry(o) in entries && Kept(o)
  {
    if entries == [] then []
    else
      assert forall e :: e in entries <==> e == entries[0] || e in entries[1..];
      (if entries[0].Entry? && Kept(entries[0].option) then [entries[0].option] else [])
      + Offered(entries[1..])
  }

  /** The filter works entry by entry. */
  lemma {:induction false} OfferedAppend(a: seq<OptionEntry>, b: seq<OptionEntry>)
    ensures Offered(a + b) == Offered(a) + Offered(b)
  {
    if a == [] {
      assert a + b == b;
    } else {
      assert (a + b)[0] == a[0];
      assert (a + b)[1..] == a[1..] + b;
      OfferedAppend(a[1..], b);
    }
  }

  /**
   * `allOptions.filter(...)`: the offered options; a `null` entry makes the
   * filter throw.
   */
  function OptionsToProcess(entries: seq<OptionEntry>): (r: Result<seq<NamedOption>, string>)
    ensures r.Failure? <==> Null in entries
    ensures r.Success? ==> r.value == Offered(entries)
  {
    if Null in entries then Failure("TypeError") else Success(Offered(entries))
  }

  // ------------------------------------------------------- alias lookup

  /** The table name for an option name: only the map's own keys are aliases. */
  function SheetFor(name: string): (r: Option<string>)
    ensures r.Some? <==> name in SheetMap
    ensures r.Some? ==> r.value == SheetMap[name] && r.value != ""
  {
    if name in SheetMap then Some(SheetMap[name]) else None
  }

  /** What `sheetMap[name]` evaluates to on the object literal. */
  datatype PropertyValue = Undefined | Own(value: string) | InheritedMember(key: string)

  /** The names `Object.prototype` supplies to every object literal. */
  const PrototypeMembers: set<string> := {
    "constructor", "hasOwnProperty", "isPrototypeOf", "propertyIsEnumerable",
    "toLocaleString", "toString", "valueOf", "__proto__",
    "__defineGetter__", "__defineSetter__", "__lookupGetter__", "__lookupSetter__"
  }

  /** `sheetMap[name]` as written: own keys first, then the inherited members. */
  function SheetLookupAsWritten(name: string): (v: PropertyValue)
    ensures v.Own? <==> name in SheetMap
    ensures v.Undefined? <==> name !in SheetMap && name !in PrototypeMembers
  {
    if name in SheetMap then Own(SheetMap[name])
    else if name in PrototypeMembers then InheritedMember(name)
    else Undefined
  }

  /**
   * As written, the `if (sheetName)` test lets an option named "toString"
   * through to the rate-table call with a function in place of a table name,
   * although "toString" is not an alias.
   */
  lemma InheritedNameReachesLookup()
    ensures "toString" !in SheetMap
    ensures !SheetLookupAsWritten("toString").Undefined?
    ensures SheetFor("toString").None?
  {
  }

  // --------------------------------------------------------- row matching

  /** `s.trim().toUpperCase()` */
  function Normalize(s: string): string {
    ToUpperCase(Trim(s))
  }

  /** A row the search passes over: its name is a string and does not match. */
  predicate Unmatched(row: Row, target: string) {
    row.name.Some? && Normalize(row.name.value) != target
  }

  datatype RowMatch = Found(index: nat) | NoMatch | NameNotString(index: nat)

  /**
   * `rows.find(...)` with the normalised option name `target`: the first
   * matching row, or none; a row reached whose name is not a string makes
   * the search throw.
   */
  function FindRow(rows: seq<Row>, target: string): (m: RowMatch)
    ensures m.Found? ==>
      m.index < |rows| && rows[m.index].name.Some? && Normalize(rows[m.index].name.value) == target
    ensures m.NameNotString? ==> m.index < |rows| && rows[m.index].name.None?
    ensures !m.NoMatch? ==> forall k :: 0 <= k < m.index ==> Unmatched(rows[k], target)
    ensures m.NoMatch? <==> forall k :: 0 <= k < |rows| ==> Unmatched(rows[k], target)
  {
    if rows == [] then NoMatch
    else if rows[0].name.None? then NameNotString(0)
    else if Normalize(rows[0].name.value) == target then Found(0)
    else
      match FindRow(rows[1..], target)
      case Found(i) => UnmatchedPrefix(rows, target, i); Found(i + 1)
      case NoMatch => UnmatchedPrefix(rows, target, |rows| - 1); NoMatch
      case NameNotString(i) => UnmatchedPrefix(rows, target, i); NameNotString(i + 1)
  }

  /** The rows before `n + 1` are passed over when the first is and the `n` after it are. */
  lemma UnmatchedPrefix(rows: seq<Row>, target: string, n: nat)
    requires n < |rows| && Unmatched(rows[0], target)
    requires forall k :: 0 <= k < n ==> Unmatched(rows[1..][k], target)
    ensures forall k :: 0 <= k < n + 1 ==> Unmatched(rows[k], target)
  {
    forall k | 0 <= k < n + 1
      ensures Unmatched(rows[k], target)
    {
      if k > 0 {
        assert rows[k] == rows[1..][k - 1];
      }
    }
  }

  // ------------------------------------------------------------ rates

  /** The `baseRate` record: it echoes the option, is priced at `cost` and has the fixed fields. */
  function BuildRate(o: NamedOption, cost: int, now: int): (r: Rate)
    ensures r.id == o.id && r.name == o.name.value && r.code == o.code && r.price == cost
    ensures FixedFields(r, now)
  {
    Rate(o.id, o.name.value, o.code, cost, cost, "ARS", "ship", now, now + 7 * DayMillis, false, "ref123")
  }

  /** Rates built so far, the calls made so far, and whether something threw. */
  datatype Progress = Progress(rates: seq<Rate>, lookups: seq<Lookup>, failed: bool)

  /** Run `q` after `p`, unless `p` threw. */
  function Then(p: Progress, q: Progress): Progress {
    if p.failed then p else Progress(p.rates + q.rates, p.lookups + q.lookups, q.failed)
  }

  lemma ThenAssociative(p: Progress, q: Progress, r: Progress)
    ensures Then(Then(p, q), r) == Then(p, Then(q, r))
  {
  }

  /**
   * An option that gets a rate: its name is an alias, the rate-table service
   * answers rows for that alias, and one of them matches the option's name.
   */
  predicate Quotable(o: ShippingOption, grams: int, postal: string, table: RateTable) {
    && o.name.Some? && o.name.value in SheetMap
    && var answer := table(Lookup(SheetMap[o.name.value], grams, postal));
       answer.Success? && FindRow(answer.value, Normalize(o.name.value)).Found?
  }

  /** The rate a quotable option gets: the cost of the first matching row. */
  function QuotedRate(o: ShippingOption, grams: int, postal: string, now: int, table: RateTable): Rate
    requires Quotable(o, grams, postal, table)
  {
    var answer := table(Lookup(SheetMap[o.name.value], grams, postal));
    BuildRate(o, answer.value[FindRow(answer.value, Normalize(o.name.value)).index].cost, now)
  }

  /**
   * The body of the loop for one option: one rate-table call exactly when the
   * name is an alias; a rate exactly when the option is quotable; a throw
   * exactly when the call throws or the search reaches a row whose name is
   * not a string. A table without a matching row is passed over quietly.
   */
  function Step(o: NamedOption, grams: int, postal: string, now: int, table: RateTable): (s: Progress)
    ensures s.lookups == if o.name.value in SheetMap then [Lookup(SheetMap[o.name.value], grams, postal)] else []
    ensures s.failed <==>
      && o.name.value in SheetMap
      && var answer := table(Lookup(SheetMap[o.name.value], grams, postal));
         answer.Failure? || FindRow(answer.value, Normalize(o.name.value)).NameNotString?
    ensures s.rates == if Quotable(o, grams, postal, table) then [QuotedRate(o, grams, postal, now, table)] else []
  {
    match SheetFor(o.name.value)
    case None => Progress([], [], false)
    case Some(sheet) =>
      var call := Lookup(sheet, grams, postal);
      match table(call)
      case Failure(_) => Progress([], [call], true)
      case Success(rows) =>
        match FindRow(rows, Normalize(o.name.value))
        case Found(i) => Progress([BuildRate(o, rows[i].cost, now)], [call], false)
        case NoMatch => Progress([], [call], false)
        case NameNotString(_) => Progress([], [call], true)
  }

  /** The loop over the options to process. */
  function Run(opts: seq<NamedOption>, grams: int, postal: string, now: int, table: RateTable): Progress {
    if opts == [] then Progress([], [], false)
    else Then(Step(opts[0], grams, postal, now, table), Run(opts[1..], grams, postal, now, table))
  }

  // ------------------------------------------------------------ properties

  /** The fixed fields of every rate. */
  predicate FixedFields(r: Rate, now: int) {
    && r.price == r.priceMerchant && r.currency == "ARS" && r.shippingType == "ship"
    && r.minDeliveryDate == now && r.maxDeliveryDate == now + 7 * DayMillis
    && !r.phoneRequired && r.reference == "ref123"
  }

  /**
   * `r` is the rate for option `o`: it echoes the option, the option's name
   * is an alias, and the price is the cost of the first matching row the
   * rate-table service returned for that alias.
   */
  predicate QuotedFrom(r: Rate, o: NamedOption, grams: int, postal: string, now: int, table: RateTable) {
    && o.name.value in SheetMap
    && r.id == o.id && r.name == o.name.value && r.code == o.code
    && FixedFields(r, now)
    && var answer := table(Lookup(SheetMap[o.name.value], grams, postal));
       && answer.Success?
       && var m := FindRow(answer.value, Normalize(r.name));
          m.Found? && r.price == answer.value[m.index].cost
  }

  /** The loop over a concatenation is the loop over the first part, then over the second. */
  lemma {:induction false} RunAppend(a: seq<NamedOption>, b: seq<NamedOption>,
                                     grams: int, postal: string, now: int, table: RateTable)
    ensures Run(a + b, grams, postal, now, table)
         == Then(Run(a, grams, postal, now, table), Run(b, grams, postal, now, table))
  {
    if a == [] {
      assert a + b == b;
    } else {
      assert (a + b)[0] == a[0];
      assert (a + b)[1..] == a[1..] + b;
      RunAppend(a[1..], b, grams, postal, now, table);
      ThenAssociative(Step(a[0], grams, postal, now, table), Run(a[1..], grams, postal, now, table),
                      Run(b, grams, postal, now, table));
    }
  }

  /** At most one rate and one rate-table call per option. */
  lemma {:induction false} RunAtMostOnePerOption(opts: seq<NamedOption>, grams: int, postal: string, now: int, table: RateTable)
    ensures |Run(opts, grams, postal, now, table).rates| <= |opts|
    ensures |Run(opts, grams, postal, now, table).lookups| <= |opts|
  {
    if opts != [] {
      RunAtMostOnePerOption(opts[1..], grams, postal, now, table);
    }
  }

  /** Every rate the loop builds is the rate of one of its options. */
  lemma {:induction false} RunRatesQuoted(opts: seq<NamedOption>, grams: int, postal: string, now: int, table: RateTable)
    ensures forall r :: r in Run(opts, grams, postal, now, table).rates ==>
      exists o :: o in opts && QuotedFrom(r, o, grams, postal, now, table)
  {
    if opts != [] {
      RunRatesQuoted(opts[1..], grams, postal, now, table);
      var o := opts[0];
      var step := Step(o, grams, postal, now, table);
      var rest := Run(opts[1..], grams, postal, now, table);
      var all := Run(opts, grams, postal, now, table).rates;
      assert all == step.rates || all == step.rates + rest.rates;
      forall r | r in all
        ensures exists x :: x in opts && QuotedFrom(r, x, grams, postal, now, table)
      {
        if r in step.rates {
          assert QuotedFrom(r, o, grams, postal, now, table);
        } else {
          var x :| x in opts[1..] && QuotedFrom(r, x, grams, postal, now, table);
          assert x in opts;
        }
      }
    }
  }

  /** Every rate-table call is for the alias of one of the options, with the request's weight and postal code. */
  lemma {:induction false} RunLookupsAliased(opts: seq<NamedOption>, grams: int, postal: string, now: int, table: RateTable)
    ensures forall l :: l in Run(opts, grams, postal, now, table).lookups ==>
      l.grams == grams && l.postalCode == postal &&
      exists o :: o in opts && o.name.value in SheetMap && l.sheet == SheetMap[o.name.value]
  {
    if opts != [] {
      RunLookupsAliased(opts[1..], grams, postal, now, table);
      var o := opts[0];
      var step := Step(o, grams, postal, now, table);
      forall l | l in step.lookups
        ensures l == Lookup(SheetMap[o.name.value], grams, postal) && o.name.value in SheetMap
      {
      }
      assert forall x :: x in opts[1..] ==> x in opts;
    }
  }

  /** An option whose name is not an alias changes nothing, wherever it stands. */
  lemma UnaliasedOptionIgnored(a: seq<NamedOption>, o: NamedOption, b: seq<NamedOption>,
                               grams: int, postal: string, now: int, table: RateTable)
    requires o.name.value !in SheetMap
    ensures Run(a + [o] + b, grams, postal, now, table) == Run(a + b, grams, postal, now, table)
  {
    RunAppend(a, [o] + b, grams, postal, now, table);
    RunAppend([o], b, grams, postal, now, table);
    var none := Progress([], [], false);
    assert Step(o, grams, postal, now, table) == none;
    assert Run([o], grams, postal, now, table) == none by {
      assert [o][1..] == [];
    }
    var rest := Run(b, grams, postal, now, table);
    assert Then(none, rest) == rest by {
      assert [] + rest.rates == rest.rates && [] + rest.lookups == rest.lookups;
    }
    RunAppend(a, b, grams, postal, now, table);
    assert a + [o] + b == a + ([o] + b);
  }

  /** The loop throws exactly when the step of one of its options throws. */
  lemma {:induction false} RunFailsExactly(opts: seq<NamedOption>, grams: int, postal: string, now: int, table: RateTable)
    ensures Run(opts, grams, postal, now, table).failed <==>
      exists o :: o in opts && Step(o, grams, postal, now, table).failed
  {
    if opts != [] {
      RunFailsExactly(opts[1..], grams, postal, now, table);
      assert forall x :: x in opts <==> x == opts[0] || x in opts[1..];
    }
  }

  /** Unless the loop throws, every quotable option gets its rate. */
  lemma {:induction false} RunRatesComplete(opts: seq<NamedOption>, grams: int, postal: string, now: int, table: RateTable)
    requires !Run(opts, grams, postal, now, table).failed
    ensures forall o :: o in opts && Quotable(o, grams, postal, table) ==>
      QuotedRate(o, grams, postal, now, table) in Run(opts, grams, postal, now, table).rates
  {
    if opts != [] {
      var rest := Run(opts[1..], grams, postal, now, table);
      RunRatesComplete(opts[1..], grams, postal, now, table);
      assert Run(opts, grams, postal, now, table).rates == Step(opts[0], grams, postal, now, table).rates + rest.rates;
      assert forall x :: x in opts <==> x == opts[0] || x in opts[1..];
    }
  }

  lemma OfferedSkips(a: seq<OptionEntry>, e: OptionEntry, b: seq<OptionEntry>)
    requires Offered([e]) == []
    ensures Offered(a + [e] + b) == Offered(a + b)
  {
    OfferedAppend(a + [e], b);
    OfferedAppend(a, [e]);
    OfferedAppend(a, b);
  }

  /** A pickup option, or one whose name is not a string, is dropped wherever it stands. */
  lemma PickupOptionDropped(a: seq<OptionEntry>, o: ShippingOption, b: seq<OptionEntry>)
    requires !Kept(o)
    ensures OptionsToProcess(a + [Entry(o)] + b) == OptionsToProcess(a + b)
  {
    assert Offered([Entry(o)]) == [] by {
      assert [Entry(o)][1..] == [];
    }
    OfferedSkips(a, Entry(o), b);
    assert Null in a + [Entry(o)] + b <==> Null in a + b;
  }

  /**
   * What a response holds: at most one rate per declared option, each the
   * rate of a declared option that passed the filter and has an alias; every
   * rate-table call made for such an option; and, without an error, the rate
   * of every declared option that passed the filter and is quotable.
   */
  lemma QuotationRates(body: Option<Body>, now: int, table: RateTable)
    ensures var q := Quotation(body, now, table);
      && (q.response.rates != [] || q.lookups != [] ==> !NoData(body) && PostalCode(body.value).Some?)
      && (!NoData(body) ==> |q.response.rates| <= |AllOptions(body.value)|)
      && (forall r :: r in q.response.rates ==>
            exists o :: Entry(o) in AllOptions(body.value) && Kept(o) &&
              QuotedFrom(r, o, WeightSum(ItemsOf(body.value)), PostalCode(body.value).value, now, table))
      && (forall l :: l in q.lookups ==>
            exists o :: Entry(o) in AllOptions(body.value) && Kept(o) && o.name.value in SheetMap &&
              l == Lookup(SheetMap[o.name.value], WeightSum(ItemsOf(body.value)), PostalCode(body.value).value))
      && (!NoData(body) && PostalCode(body.value).Some? && q.response.error.None? ==>
            forall o :: Entry(o) in AllOptions(body.value) && Kept(o) &&
                        Quotable(o, WeightSum(ItemsOf(body.value)), PostalCode(body.value).value, table) ==>
              QuotedRate(o, WeightSum(ItemsOf(body.value)), PostalCode(body.value).value, now, table) in q.response.rates)
  {
    if !NoData(body) && PostalCode(body.value).Some? && Null !in AllOptions(body.value) {
      var b := body.value;
      var opts := Offered(AllOptions(b));
      var grams, postal := WeightSum(ItemsOf(b)), PostalCode(b).value;
      RunAtMostOnePerOption(opts, grams, postal, now, table);
      RunRatesQuoted(opts, grams, postal, now, table);
      RunLookupsAliased(opts, grams, postal, now, table);
      if !Run(opts, grams, postal, now, table).failed {
        RunRatesComplete(opts, grams, postal, now, table);
      }
    }
  }

  /** `/shipping_rates` as a function of the body, the clock and the rate-table service. */
  function Quotation(body: Option<Body>, now: int, table: RateTable): (q: Quote)
    ensures q.response.status == 200
    ensures NoData(body) ==> q == Quote(QuoteResponse(200, [], None), [])
    ensures !NoData(body) && PostalCode(body.value).None? ==> q == Quote(QuoteResponse(200, [], None), [])
    ensures q.response.error.Some? ==> q.response.rates == [] && q.response.error == Some(InternalError)
    ensures !NoData(body) && Null in AllOptions(body.value) ==> q.lookups == []
    // With data and a postal code: an error exactly on a null entry or a throw
    // in the loop; otherwise the loop's rates; the loop's calls in any case.
    ensures !NoData(body) && PostalCode(body.value).Some? ==>
      var b := body.value;
      var run := Run(Offered(AllOptions(b)), WeightSum(ItemsOf(b)), PostalCode(b).value, now, table);
      && (q.response.error.Some? <==> Null in AllOptions(b) || run.failed)
      && (q.response.error.None? ==> q.response.rates == run.rates)
      && (Null !in AllOptions(b) ==> q.lookups == run.lookups)
  {
    if NoData(body) then Quote(QuoteResponse(200, [], None), [])
    else
      var b := body.value;
      match PostalCode(b)
      case None => Quote(QuoteResponse(200, [], None), [])
      case Some(postal) =>
        match OptionsToProcess(AllOptions(b))
        case Failure(_) => Quote(QuoteResponse(200, [], Some(InternalError)), [])
        case Success(opts) =>
          var p := Run(opts, WeightSum(ItemsOf(b)), postal, now, table);
          if p.failed then Quote(QuoteResponse(200, [], Some(InternalError)), p.lookups)
          else Quote(QuoteResponse(200, p.rates, None), p.lookups)
  }

  /**
   * One pass of the loop body: resolve the alias, ask the rate-table service,
   * find the matching row and build the rate.
   */
  method QuoteOption(o: NamedOption, grams: int, postal: string, now: int, table: RateTable)
    returns (step: Progress)
    ensures step == Step(o, grams, postal, now, table)
    ensures step.lookups == if o.name.value in SheetMap then [Lookup(SheetMap[o.name.value], grams, postal)] else []
    ensures step.failed <==>
      && o.name.value in SheetMap
      && var answer := table(Lookup(SheetMap[o.name.value], grams, postal));
         answer.Failure? || FindRow(answer.value, Normalize(o.name.value)).NameNotString?
    ensures step.rates == if Quotable(o, grams, postal, table) then [QuotedRate(o, grams, postal, now, table)] else []
  {
    step := Progress([], [], false);
    var sheet := SheetFor(o.name.value);
    if sheet.Some? {
      var call := Lookup(sheet.value, grams, postal);
      var answer := table(call);
      if answer.Failure? {
        step := Progress([], [call], true);
      } else {
        var m := FindRow(answer.value, Normalize(o.name.value));
        if m.Found? {
          step := Progress([BuildRate(o, answer.value[m.index].cost, now)], [call], false);
        } else {
          step := Progress([], [call], m.NameNotString?);
        }
      }
    }
  }

  /**
   * The `for` loop over the options to process: one step per option, in
   * order, leaving the loop at the first one that throws.
   */
  method ProcessOptions(opts: seq<NamedOption>, grams: int, postal: string, now: int, table: RateTable)
    returns (p: Progress)
    ensures p == Run(opts, grams, postal, now, table)
  {
    var rates: seq<Rate> := [];
    var lookups: seq<Lookup> := [];
    var failed := false;
    var i := 0;
    while i < |opts| && !failed
      invariant 0 <= i <= |opts|
      invariant Then(Progress(rates, lookups, failed), Run(opts[i..], grams, postal, now, table))
                == Run(opts, grams, postal, now, table)
    {
      var o := opts[i];
      ghost var before := Progress(rates, lookups, failed);
      var step := QuoteOption(o, grams, postal, now, table);
      rates, lookups, failed := rates + step.rates, lookups + step.lookups, step.failed;
      assert opts[i..][1..] == opts[i + 1..];
      ThenAssociative(before, Step(o, grams, postal, now, table), Run(opts[i + 1..], grams, postal, now, table));
      i := i + 1;
    }
    if !failed {
      assert opts[i..] == [];
    }
    p := Progress(rates, lookups, failed);
  }

  /** The handler: the same answer and the same calls as `Quotation`. */
  method ShippingRates(body: Option<Body>, now: int, table: RateTable)
    returns (response: QuoteResponse, lookups: seq<Lookup>)
    ensures Quote(response, lookups) == Quotation(body, now, table)
  {
    lookups := [];
    if NoData(body) {
      response := QuoteResponse(200, [], None);
      return;
    }
    var b := body.value;
    var postal := PostalCode(b);
    var grams := TotalWeight(ItemsOf(b));
    if postal.None? {
      response := QuoteResponse(200, [], None);
      return;
    }
    var filtered := OptionsToProcess(AllOptions(b));
    if filtered.Failure? {
      response := QuoteResponse(200, [], Some(InternalError));
      return;
    }
    var p := ProcessOptions(filtered.value, grams, postal.value, now, table);
    lookups := p.lookups;
    if p.failed {
      response := QuoteResponse(200, [], Some(InternalError));
    } else {
      response := QuoteResponse(200, p.rates, None);
    }
  }
}

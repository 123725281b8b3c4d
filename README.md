# Mobapp Domicilio shipping carrier — Dafny model

This project models the two route handlers of a home-delivery shipping-carrier
integration for the Tienda Nube e-commerce platform:

- **Provisioning** (`src/routes/authRoutes.js`):
  - `/install` stores a random OAuth state in the session and redirects the
    merchant to the platform's authorization page.
  - `/oauth_callback` runs a three-step guard: upstream error, state, code.
    It then exchanges the code for a token, writes the access token and the
    store id into the session, and registers the carrier "Mobapp Domicilio".
    Finally it creates the five home-delivery options of a fixed catalog, one
    at a time. A failure to create one option is swallowed.
- **Quotation** (`src/routes/shippingRoutes.js`): `/shipping_rates` works as follows.
  - It answers an empty body with no rates.
  - It picks the postal code and adds up the weight.
  - It drops every option whose upper-cased name contains "SUCURSAL" (pickup).
  - For each remaining option, it resolves the option's rate table through a
    fixed alias map and asks the rate-table service for rows.
  - It turns the first row whose trimmed, upper-cased name equals the option's
    into a rate.
  - Anything thrown while processing the options becomes an empty rate list
    with an error message. Every answer has status 200.
- **CatalogContract** ties the two together. Every option the install creates
  has an alias, survives the quotation filter unchanged and costs exactly one
  rate-table call. A worked checkout is proved to produce exactly one rate.
- **JsBuiltins** holds the JavaScript built-ins the handlers rely on:
  - truthiness and `||`
  - `String.prototype.trim`, `toUpperCase` and `includes`
  - `Buffer.toString('hex')`

Every outside service is an input of the model:

- the token exchange and the carrier registration are `Result`s; a `Failure`
  is what the awaited call threw;
- option creation is a function from the request to its outcome;
- the rate-table service is a function from a `Lookup` to rows or a failure;
- the 16 random bytes of `/install` and the clock (`now`, in milliseconds)
  are parameters.

The handlers are written twice:

- as pure functions (`Provisioning.Callback`, `Quotation.Quotation`) that
  return the reply together with the sequence of outside calls made;
- as imperative methods with loops, each proved equal to its function:
  `Provisioning.OAuthCallback` updates a `Session` object, and
  `Quotation.ShippingRates` runs the option loop over the request body.

Three behaviours of the code, which the model keeps:

- The callback never clears `oauth_state` after use, so the model keeps it.
- The state check is a strict comparison of two possibly-absent values. A
  callback without a state therefore passes when the session has none either
  (`Provisioning.AbsentStateAccepted`).
- When processing throws half-way, the rates already built are discarded.
  The rate-table calls made up to that point are still recorded in `lookups`.

One behaviour of the code is deliberately not kept: the alias lookup
`sheetMap[option.name]` also finds the names every JavaScript object inherits.
The handler model resolves own keys only (see "## Findings" and the
`Quotation.Step` line under "## Left out").

## Model

| member | source | states |
|---|---|---|
| Provisioning.AuthorizeUrl | src/routes/authRoutes.js:17 | the authorization URL is the platform prefix, then the client id, then "/authorize" |
| Provisioning.Install | src/routes/authRoutes.js:13-20 | the session state becomes the 32-character hex encoding of the 16 random bytes; token and store id are unchanged; the reply is a redirect to the authorization URL |
| JsBuiltins.HexEncode | src/routes/authRoutes.js:14 | two lower-case hex digits per byte |
| JsBuiltins.HexRoundTrip | src/routes/authRoutes.js:14 | decoding the hex state gives the random bytes back |
| JsBuiltins.HexInjective | src/routes/authRoutes.js:14 | distinct random bytes give distinct states |
| Provisioning.CatalogDistinct | src/routes/authRoutes.js:75-81 | the catalog has five entries with pairwise distinct codes and names |
| Provisioning.Guard | src/routes/authRoutes.js:24-39 | the request passes exactly when there is no truthy error, the state equals the session's and the code is truthy; every rejection is a 400; the checks run in order: a truthy error answers with the error description if truthy, else the error; then a state mismatch with the state message; then a falsy code with the missing-code message |
| Provisioning.OptionCalls | src/routes/authRoutes.js:83-98 | one creation call per catalog entry, in order, with that entry's code, name and types, zero extra days and cost, free shipping allowed and active |
| Provisioning.FailedOptions | src/routes/authRoutes.js:99-102 | an option name is in the logged failure set exactly when its creation threw; the reply does not report this set |
| Provisioning.CatalogNames | src/routes/authRoutes.js:105-110 | the confirmation lists every catalog name in catalog order |
| Provisioning.Registered | src/routes/authRoutes.js:64-110 | the carrier is registered with the credential; a registration failure answers 500 with its message and creates nothing; otherwise it answers 200 after the catalog's creation calls |
| Provisioning.Provisioned | src/routes/authRoutes.js:41-114 | the code is exchanged first; a failed exchange or an unusable token answers 500 after that single call; a credential exists exactly when the token has both fields, and then the second call registers the carrier with it; 200 exactly when the registration succeeded, and then the body is the confirmation and the remaining calls are the catalog's creations |
| Provisioning.UsableToken | src/routes/authRoutes.js:49-55 | reference definition of the token test: usable exactly when both the access token and the user id are truthy; `Provisioned`, `Callback` and `CallbackCallOrder` state the credential and the 500 path in terms of it |
| Provisioning.Callback | src/routes/authRoutes.js:22-115 | a rejected guard calls nothing and writes no credential; the credential exists exactly when the guard passes and the token is usable; the three 500 paths and their messages; 200 exactly with a credential and a registered carrier; the status is 200, 400 or 500 |
| Provisioning.CallbackCallOrder | src/routes/authRoutes.js:41-110 | past the guard the exchange is the first call; with a usable token the carrier is registered exactly once, as the second call, and never otherwise; on success the remaining calls are the catalog's creations in order, and the reply names every option |
| Provisioning.OptionOutcomesIgnored | src/routes/authRoutes.js:83-110 | whatever each option creation answers, the reply, the calls and the credential are the same |
| Provisioning.AbsentStateAccepted | src/routes/authRoutes.js:31-34 | a callback without a state, against a session without one, reaches the token exchange |
| Provisioning.CreateCatalogOptions | src/routes/authRoutes.js:83-103 | the loop makes exactly the catalog's creation calls and collects exactly the failed names |
| Provisioning.Register | src/routes/authRoutes.js:64-110 | registration and option creation give the reply, calls and failures of `Registered` |
| Provisioning.Provision | src/routes/authRoutes.js:41-114 | the reply and calls are those of `Provisioned`; the session's token and store id are written exactly when the token is usable |
| Provisioning.OAuthCallback | src/routes/authRoutes.js:22-115 | the reply and calls are those of `Callback` for the session's state; the credential is written exactly when `Callback` obtains one; the OAuth state is kept |
| Quotation.NoData | src/routes/shippingRoutes.js:18-22 | reference definition of the empty-body test: no body, or a body with no keys at all; `Quotation.Quotation` states its empty answer for such a body, and its other clauses, in terms of it |
| Quotation.PostalCode | src/routes/shippingRoutes.js:26 | the first truthy of destination zip code, destination postal code and origin postal code; absent exactly when none is truthy |
| Quotation.WeightSumAppend | src/routes/shippingRoutes.js:29-32 | the weight of concatenated item lists is the sum of their weights |
| Quotation.TotalWeight | src/routes/shippingRoutes.js:29-32 | the accumulator loop computes the sum of grams times quantity |
| Quotation.Offered | src/routes/shippingRoutes.js:46-48 | an option is kept exactly when it is declared, its name is a string, and its upper case does not include "SUCURSAL" |
| Quotation.OfferedAppend | src/routes/shippingRoutes.js:46-48 | the filter works entry by entry and keeps the order |
| Quotation.OptionsToProcess | src/routes/shippingRoutes.js:43-48 | the filter throws exactly when an entry is null; otherwise it yields the kept options |
| Quotation.PickupOptionDropped | src/routes/shippingRoutes.js:46-48 | a pickup option, or one whose name is not a string, can be removed from anywhere in the list without changing the result |
| Quotation.SheetFor | src/routes/shippingRoutes.js:50-60 | a name has a rate table exactly when it is one of the five aliases, and that table name is non-empty |
| Quotation.SheetLookupAsWritten | src/routes/shippingRoutes.js:50-60 | the object-literal lookup finds an own value exactly for the aliases, and is undefined only for names that are neither aliases nor inherited members |
| Quotation.InheritedNameReachesLookup | src/routes/shippingRoutes.js:59-61 | "toString" is not an alias, yet the lookup as written is not undefined for it |
| JsBuiltins.Trim | src/routes/shippingRoutes.js:64-65 | the trimmed string is a contiguous slice of the input with no white space at either end |
| JsBuiltins.TrimStrips | src/routes/shippingRoutes.js:64-65 | trim removes exactly the surrounding white space |
| JsBuiltins.TrimIdempotent | src/routes/shippingRoutes.js:64-65 | trimming twice is trimming once |
| JsBuiltins.ToUpperCase | src/routes/shippingRoutes.js:47 | same length, no lower-case letter left, every lower-case letter mapped to its capital, every other character unchanged |
| JsBuiltins.UpperCaseFixed | src/routes/shippingRoutes.js:47 | a string without lower-case letters is its own upper case |
| JsBuiltins.IncludesAt | src/routes/shippingRoutes.js:47 | `includes` holds exactly when the pattern occurs at some position |
| Quotation.FindRow | src/routes/shippingRoutes.js:63-67 | the first row whose normalised name equals the option's is found, and every earlier row does not match; no match exactly when no row matches; the search throws at the first earlier row whose name is not a string |
| Quotation.Step | src/routes/shippingRoutes.js:59-91 | one rate-table call exactly when the name is an alias; a rate, at the first matching row's cost, exactly when the option is quotable; a throw exactly when the call throws or the search reaches a row whose name is not a string; no matching row is passed over without error |
| Quotation.BuildRate | src/routes/shippingRoutes.js:69-86 | the rate echoes the option's id, name and code, is priced at the row's cost, and has the fixed merchant price, currency "ARS", type "ship", seven-day delivery window, no phone and reference "ref123"; `QuotedRate`, `Step` and `RunRatesQuoted` rely on it |
| Quotation.Run | src/routes/shippingRoutes.js:58-92 | reference definition of the option loop: each option's step in order, stopping at the first throw; `ProcessOptions`, `Quotation` and the `Run…` lemmas are stated in terms of it |
| Quotation.QuoteOption | src/routes/shippingRoutes.js:59-91 | the loop body gives `Step`'s outcome: the same call, rate and throw conditions, stated on the inputs |
| Quotation.RunAppend | src/routes/shippingRoutes.js:58-92 | the loop over concatenated option lists is the loop over the first list followed by the loop over the second, unless the first threw |
| Quotation.RunAtMostOnePerOption | src/routes/shippingRoutes.js:58-92 | at most one rate and one rate-table call per option |
| Quotation.RunRatesQuoted | src/routes/shippingRoutes.js:61-86 | every rate echoes one of the options and has the fixed currency, type, dates and reference; its price is the cost of the first matching row the service returned for that option's alias |
| Quotation.RunLookupsAliased | src/routes/shippingRoutes.js:59-61 | every rate-table call names the table of one option's alias, with the request's weight and postal code |
| Quotation.RunFailsExactly | src/routes/shippingRoutes.js:58-92 | the loop throws exactly when the step of one of its options throws |
| Quotation.RunRatesComplete | src/routes/shippingRoutes.js:58-92 | unless the loop throws, every quotable option gets its rate |
| Quotation.UnaliasedOptionIgnored | src/routes/shippingRoutes.js:59-60 | an option without an alias changes neither the rates nor the calls, wherever it stands |
| Quotation.ProcessOptions | src/routes/shippingRoutes.js:58-92 | the `for` loop computes the rates, the calls and the throw flag of `Run`, leaving at the first throw |
| Quotation.Quotation | src/routes/shippingRoutes.js:15-105 | always status 200; an empty body or a missing postal code gives no rates and no calls; with data and a postal code the error occurs exactly on a null option entry or a throw in the loop; an error comes with no rates and the fixed message; without one the rates are the loop's; the calls are the loop's, or none on a null entry |
| Quotation.QuotationRates | src/routes/shippingRoutes.js:15-105 | rates or calls only with data and a postal code; at most one rate per declared option; every rate is quoted from a declared, kept, aliased option; every call is for such an option's alias with the total weight and the postal code; without an error, every declared, kept, quotable option gets its rate |
| Quotation.ShippingRates | src/routes/shippingRoutes.js:15-105 | the handler gives the response and calls of `Quotation` |
| CatalogContract.CatalogNamesAreAliases | src/routes/authRoutes.js:75-81 | the names the install creates are exactly the keys of the quotation's alias map |
| CatalogContract.CatalogNamesPassFilter | src/routes/shippingRoutes.js:46-48 | every catalog name is unchanged by trimming and upper-casing, and does not contain "SUCURSAL" |
| CatalogContract.CatalogOptionLookedUp | src/routes/shippingRoutes.js:43-69 | a declared catalog option passes the filter and costs exactly one call, for its alias; if a row matches, its cost becomes the rate |
| CatalogContract.CatalogOptionRate | src/routes/shippingRoutes.js:58-86 | a catalog option whose table answers one row with the same normalised name is quoted at that row's cost after one call |
| CatalogContract.PaddedRowNameMatches | src/routes/shippingRoutes.js:63-67 | a row named "oca a domicilio" with any white space around it matches "OCA A DOMICILIO" |
| CatalogContract.CheckoutExample | src/routes/shippingRoutes.js:15-105 | the worked checkout (postal code 1406, 2 × 1000 g, option "OCA A DOMICILIO", one padded lower-case row at 1500) answers exactly one rate at 1500 ARS for the next seven days, after exactly one call |

## Left out

- The HTTP framework is not modelled: the Express router, `req`/`res` objects, the logger, the user-agent warning middleware (`src/routes/shippingRoutes.js:7-13`) and the root greeting (`src/routes/authRoutes.js:9-11`). None of them affect a reply.
- `crypto.randomBytes` is replaced by its 16 output bytes, taken as input.
- The 5-second wait before the carrier registration is left out, because time is not modelled.
- `process.env` is the `Env` value.
- The OAuth client, the platform service and the rate-table service are not part of this model; their results are inputs.
- Of the carrier registration's answer, only the carrier id is modelled, as a string. A carrier id that is not a string is not modelled. That includes `undefined`, which an answer without an `id` field gives; the handler would then create the five options with an undefined carrier id and answer 200. A `null` or `undefined` answer throws on `.id` inside the `try` block, and that is modelled as a failed registration.
- Concurrent requests sharing a session are not modelled; each handler run is sequential.
- Quotation.Step: the handler resolves aliases through the alias map's own keys only (`Quotation.SheetFor`). As written, a name inherited from `Object.prototype` (such as "toString") also reaches the rate-table service, with a function as the table name (see "## Findings"). So `Quotation.Step`, `Quotation.Quotation`, `Quotation.UnaliasedOptionIgnored`, `Quotation.RunLookupsAliased` and `Quotation.QuotationRates` describe the corrected handler for those twelve names. The as-written lookup is modelled only as `Quotation.SheetLookupAsWritten`.
- Quotation.TotalWeight: weights are integer grams. The source sums `grams / 1000 * quantity` as floating point kilograms and passes that to the rate-table service; rounding and the kg unit are not modelled.
- Quotation.BuildRate: dates are milliseconds since the epoch, not ISO strings. The maximum date is exactly seven days of 86 400 000 ms later; a calendar `setDate` across a daylight-saving change can differ.
- JsBuiltins.ToUpperCase: only Basic Latin and Latin-1 letters are mapped. `ß` (which becomes "SS"), `ÿ`, `µ` and letters of other scripts are left unchanged; the exact JavaScript mapping is not modelled.
- JsBuiltins.Trim: the white-space set is the ECMAScript WhiteSpace and LineTerminator code points. Characters outside the Basic Multilingual Plane do not occur among them.
- Values of unexpected JSON types are not modelled:
  - query parameters given as arrays;
  - a numeric postal code or user id;
  - `options` or `items` that are not arrays;
  - `null` items, which throw before the `try` block;
  - rows that are `null`.
  Option entries that are `null` and row or option names that are not strings are modelled, as throws or as the filter's exclusion.
- Session persistence across requests is not modelled. A `Session` is one object that both handlers are given.
- The HTML markup of the confirmation page is not modelled. `Installed` keeps its three variable parts: the carrier name, the option names and the rates endpoint.

## Findings

| source | as written | input that shows it | evidently intended | confidence | as-written member | corrected member |
|---|---|---|---|---|---|---|
| src/routes/shippingRoutes.js:59-61 | `sheetMap[option.name]` reads the object literal. Names inherited from `Object.prototype` resolve to functions, which are truthy, so the `if (sheetName)` test passes | an option named "toString": it passes the SUCURSAL filter, and the rate-table service is called with a function as the table name | only the five own keys of the alias map have a rate table; any other name is skipped | not executed | Quotation.InheritedNameReachesLookup | Quotation.SheetFor |

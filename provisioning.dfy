/**
 * The install workflow of src/routes/authRoutes.js: `/install` stores a fresh
 * OAuth state in the session and redirects to the platform, and
 * `/oauth_callback` runs the guard chain, exchanges the code for a token,
 * writes the credential into the session, registers the carrier once and
 * then creates every option of a fixed catalog, swallowing per-option errors.
 *
 * The outside services are inputs: the awaited token response and carrier
 * response are `Result`s (a `Failure` is what the call threw), and option
 * creation is a function from the request to its outcome.
 */
module Provisioning {
  import opened Wrappers
  import opened JsBuiltins

  /** The `process.env` values the handlers read. */
  datatype Env = Env(clientId: string, clientSecret: string, publicApiUrl: string)

  /** What a handler answers. */
  datatype Body =
    | Text(message: string)
    | Redirect(location: string)
      /** The HTML confirmation: carrier name, the option names listed, the rates endpoint. */
    | Installed(carrier: string, options: seq<string>, ratesEndpoint: string)

  datatype Reply = Reply(status: int, body: Body)

  /** The query string of `/oauth_callback`; `None` is an absent parameter. */
  datatype CallbackQuery = CallbackQuery(
    code: Option<string>, state: Option<string>,
    error: Option<string>, errorDescription: Option<string>)

  /** The identity provider's answer. */
  datatype TokenData = TokenData(accessToken: Option<string>, userId: Option<string>)

  /** The merchant credential the callback writes into the session. */
  datatype Credential = Credential(accessToken: string, storeId: string)

  /** One entry of the option catalog. */
  datatype CatalogEntry = CatalogEntry(code: string, name: string, types: string)

  /** The option object sent to the platform. */
  datatype OptionSpec = OptionSpec(
    code: string, name: string, types: string,
    additionalDays: int, additionalCost: int, allowFreeShipping: bool, active: bool)

  datatype OptionRequest = OptionRequest(storeId: string, accessToken: string, carrierId: string, spec: OptionSpec)

  /** A call to an outside service, in the order the handler makes it. */
  datatype Call =
    | ExchangeCode(clientId: string, clientSecret: string, code: string, redirectBase: string)
    | RegisterCarrier(storeId: string, accessToken: string, baseUrl: string, name: string)
    | CreateOption(request: OptionRequest)

  /** Everything one run of `/oauth_callback` produces. */
  datatype CallbackRun = CallbackRun(
    reply: Reply,
    trace: seq<Call>,
    credential: Option<Credential>,  // written into the session, if at all
    failures: seq<string>)           // names of the options whose creation threw, as logged

  const AuthorizeBase := "https://www.tiendanube.com/apps/"
  const AuthorizeSuffix := "/authorize"
  const MainCarrierName := "Mobapp Domicilio"
  const RatesPath := "/api/shipping_rates"

  const UpstreamErrorPrefix := "Error de Tienda Nube: "
  const StateMismatchMessage := "Error de seguridad: estado inválido."
  const MissingCodeMessage := "Falta el código de autorización."
  const BadTokenMessage := "Error al obtener token o ID de tienda."
  const InstallErrorPrefix := "Error durante la instalación: "

  /** The options created on every install, in creation order. */
  const Catalog: seq<CatalogEntry> := [
    CatalogEntry("ANDREANI_DOM", "ANDREANI A DOMICILIO", "ship"),
    CatalogEntry("CA_DOM", "CORREO ARGENTINO A DOMICILIO", "ship"),
    CatalogEntry("OCA_DOM", "OCA A DOMICILIO", "ship"),
    CatalogEntry("URBANO_DOM", "URBANO A DOMICILIO", "ship"),
    CatalogEntry("ANDREANI_BIGGER_DOM", "ANDREANI BIGGER A DOM", "ship")
  ]

  /** No two catalog entries share a code or a name. */
  lemma CatalogDistinct()
    ensures |Catalog| == 5
    ensures forall i, j :: 0 <= i < j < |Catalog| ==> Catalog[i].code != Catalog[j].code
    ensures forall i, j :: 0 <= i < j < |Catalog| ==> Catalog[i].name != Catalog[j].name
  {
  }

  // ------------------------------------------------------------ /install

  class Session {
    var oauthState: Option<string>
    var accessToken: Option<string>
    var storeId: Option<string>

    constructor ()
      ensures oauthState == None && accessToken == None && storeId == None
    {
      oauthState, accessToken, storeId := None, None, None;
    }
  }

  /** The platform's authorization page for the integration `clientId`. */
  function AuthorizeUrl(clientId: string): (url: string)
    ensures |url| == |AuthorizeBase| + |clientId| + |AuthorizeSuffix|
    ensures url[..|AuthorizeBase|] == AuthorizeBase
    ensures url[|AuthorizeBase|..|AuthorizeBase| + |clientId|] == clientId
    ensures url[|AuthorizeBase| + |clientId|..] == AuthorizeSuffix
  {
    AuthorizeBase + clientId + AuthorizeSuffix
  }

  /**
   * `/install`: `random` stands for the 16 bytes `crypto.randomBytes` returns.
   * The session's OAuth state becomes their hex encoding (32 characters, from
   * which the bytes can be recovered, see `HexRoundTrip`); nothing else in the
   * session changes, and the reply redirects to the authorization page.
   */
  method Install(session: Session, env: Env, random: seq<Byte>) returns (reply: Reply)
    requires |random| == 16
    modifies session`oauthState
    ensures session.oauthState == Some(HexEncode(random))
    ensures |session.oauthState.value| == 32
    ensures session.accessToken == old(session.accessToken) && session.storeId == old(session.storeId)
    ensures reply == Reply(302, Redirect(AuthorizeUrl(env.clientId)))
  {
    var state := HexEncode(random);
    session.oauthState := Some(state);
    reply := Reply(302, Redirect(AuthorizeUrl(env.clientId)));
  }

  // ------------------------------------------------------ /oauth_callback

  /**
   * The callback's guard chain: upstream error, then state, then code. It
   * answers (always 400) exactly when one of the three checks fails, and lets
   * the request through otherwise. The state check is strict equality of two
   * possibly-absent values, so an absent state matches an absent session state.
   */
  function Guard(q: CallbackQuery, stored: Option<string>): (r: Option<Reply>)
    ensures r.None? <==> !Truthy(q.error) && q.state == stored && Truthy(q.code)
    ensures r.Some? ==> r.value.status == 400
    // The checks run in order, each with its own message.
    ensures Truthy(q.error) ==>
      r == Some(Reply(400, Text(UpstreamErrorPrefix +
                                (if Truthy(q.errorDescription) then q.errorDescription.value else q.error.value))))
    ensures !Truthy(q.error) && q.state != stored ==> r == Some(Reply(400, Text(StateMismatchMessage)))
    ensures !Truthy(q.error) && q.state == stored && !Truthy(q.code) ==> r == Some(Reply(400, Text(MissingCodeMessage)))
  {
    if Truthy(q.error) then
      Some(Reply(400, Text(UpstreamErrorPrefix + Or(q.errorDescription, q.error).value)))
    else if q.state != stored then
      Some(Reply(400, Text(StateMismatchMessage)))
    else if !Truthy(q.code) then
      Some(Reply(400, Text(MissingCodeMessage)))
    else
      None
  }

  /** A token response is usable when both the access token and the user id are truthy. */
  predicate UsableToken(token: TokenData) {
    Truthy(token.accessToken) && Truthy(token.userId)
  }

  function SpecFor(entry: CatalogEntry): OptionSpec {
    OptionSpec(entry.code, entry.name, entry.types, 0, 0, true, true)
  }

  function RequestFor(cred: Credential, carrierId: string, entry: CatalogEntry): OptionRequest {
    OptionRequest(cred.storeId, cred.accessToken, carrierId, SpecFor(entry))
  }

  /** The option-creation calls for `entries`, one per entry, in order. */
  function OptionCalls(cred: Credential, carrierId: string, entries: seq<CatalogEntry>): (calls: seq<Call>)
    ensures |calls| == |entries|
    ensures forall i :: 0 <= i < |entries| ==> calls[i] == CreateOption(RequestFor(cred, carrierId, entries[i]))
  {
    if entries == [] then []
    else OptionCalls(cred, carrierId, entries[..|entries| - 1])
         + [CreateOption(RequestFor(cred, carrierId, entries[|entries| - 1]))]
  }

  /**
   * Names of the entries whose creation threw, in catalog order: the options
   * the handler logs an error for. The reply does not report them.
   */
  function FailedOptions(cred: Credential, carrierId: string, entries: seq<CatalogEntry>,
                         createOption: OptionRequest -> Outcome<string>): (names: seq<string>)
    ensures |names| <= |entries|
    ensures forall n :: n in names ==>
      exists e :: e in entries && e.name == n && createOption(RequestFor(cred, carrierId, e)).Fail?
    ensures forall e :: e in entries && createOption(RequestFor(cred, carrierId, e)).Fail? ==> e.name in names
  {
    if entries == [] then []
    else
      var last := entries[|entries| - 1];
      var earlier := entries[..|entries| - 1];
      assert forall e :: e in entries <==> e in earlier || e == last;
      FailedOptions(cred, carrierId, earlier, createOption)
      + (if createOption(RequestFor(cred, carrierId, last)).Fail? then [last.name] else [])
  }

  function CatalogNames(): (names: seq<string>)
    ensures |names| == |Catalog|
    ensures forall i :: 0 <= i < |Catalog| ==> names[i] == Catalog[i].name
  {
    seq(|Catalog|, i requires 0 <= i < |Catalog| => Catalog[i].name)
  }

  /**
   * The callback once the credential is known: register the carrier, then,
   * if that succeeded, create one option per catalog entry.
   */
  function Registered(env: Env, cred: Credential, register: Result<string, string>,
                      createOption: OptionRequest -> Outcome<string>): (run: CallbackRun)
    ensures run.credential == Some(cred)
    ensures |run.trace| >= 1 &&
      run.trace[0] == RegisterCarrier(cred.storeId, cred.accessToken, env.publicApiUrl, MainCarrierName)
    ensures register.Failure? ==>
      run.reply == Reply(500, Text(InstallErrorPrefix + register.error)) && |run.trace| == 1 && run.failures == []
    ensures register.Success? ==>
      && run.reply == Reply(200, Installed(MainCarrierName, CatalogNames(), env.publicApiUrl + RatesPath))
      && run.trace[1..] == OptionCalls(cred, register.value, Catalog)
      && run.failures == FailedOptions(cred, register.value, Catalog, createOption)
  {
    var registerCall := RegisterCarrier(cred.storeId, cred.accessToken, env.publicApiUrl, MainCarrierName);
    match register
    case Failure(message) =>
      CallbackRun(Reply(500, Text(InstallErrorPrefix + message)), [registerCall], Some(cred), [])
    case Success(carrierId) =>
      CallbackRun(
        Reply(200, Installed(MainCarrierName, CatalogNames(), env.publicApiUrl + RatesPath)),
        [registerCall] + OptionCalls(cred, carrierId, Catalog),
        Some(cred),
        FailedOptions(cred, carrierId, Catalog, createOption))
  }

  /**
   * The callback past its guard, for the query's code: exchange the code,
   * check the token, register the carrier, then create the catalog's options.
   */
  function Provisioned(env: Env, code: string, exchange: Result<TokenData, string>,
                       register: Result<string, string>,
                       createOption: OptionRequest -> Outcome<string>): (run: CallbackRun)
    ensures |run.trace| >= 1 && run.trace[0] == ExchangeCode(env.clientId, env.clientSecret, code, env.publicApiUrl)
    ensures run.credential.Some? <==> exchange.Success? && UsableToken(exchange.value)
    ensures run.credential.Some? ==>
      run.credential.value == Credential(exchange.value.accessToken.value, exchange.value.userId.value)
    ensures exchange.Failure? ==>
      run.reply == Reply(500, Text(InstallErrorPrefix + exchange.error)) && |run.trace| == 1
    ensures exchange.Success? && !UsableToken(exchange.value) ==>
      run.reply == Reply(500, Text(BadTokenMessage)) && |run.trace| == 1
    ensures run.credential.Some? && register.Failure? ==>
      run.reply == Reply(500, Text(InstallErrorPrefix + register.error)) && |run.trace| == 2
    ensures run.reply.status == 200 <==> run.credential.Some? && register.Success?
    ensures run.reply.status in {200, 500}
    // With a usable token the carrier is registered, as the second call.
    ensures run.credential.Some? ==>
      |run.trace| >= 2 &&
      run.trace[1] == RegisterCarrier(run.credential.value.storeId, run.credential.value.accessToken,
                                      env.publicApiUrl, MainCarrierName)
    ensures run.reply.status == 200 ==>
      && run.reply.body == Installed(MainCarrierName, CatalogNames(), env.publicApiUrl + RatesPath)
      && run.trace[2..] == OptionCalls(run.credential.value, register.value, Catalog)
      && run.failures == FailedOptions(run.credential.value, register.value, Catalog, createOption)
  {
    var exchangeCall := ExchangeCode(env.clientId, env.clientSecret, code, env.publicApiUrl);
    match exchange
    case Failure(message) =>
      CallbackRun(Reply(500, Text(InstallErrorPrefix + message)), [exchangeCall], None, [])
    case Success(token) =>
      if !UsableToken(token) then
        CallbackRun(Reply(500, Text(BadTokenMessage)), [exchangeCall], None, [])
      else
        var cred := Credential(token.accessToken.value, token.userId.value);
        var rest := Registered(env, cred, register, createOption);
        var trace := [exchangeCall] + rest.trace;
        assert trace[1..] == rest.trace && trace[2..] == rest.trace[1..];
        rest.(trace := trace)
  }

  /**
   * `/oauth_callback` as a function of the query, the session's stored state
   * and the outside services' answers.
   */
  function Callback(env: Env, q: CallbackQuery, stored: Option<string>,
                    exchange: Result<TokenData, string>, register: Result<string, string>,
                    createOption: OptionRequest -> Outcome<string>): (run: CallbackRun)
    // A rejected guard answers 400 and calls nothing.
    ensures Guard(q, stored).Some? ==>
      run.reply == Guard(q, stored).value && run.trace == [] && run.credential == None
    ensures run.credential.Some? <==>
      Guard(q, stored).None? && exchange.Success? && UsableToken(exchange.value)
    ensures run.credential.Some? ==>
      run.credential.value == Credential(exchange.value.accessToken.value, exchange.value.userId.value)
    // The three 500 paths.
    ensures Guard(q, stored).None? && exchange.Failure? ==>
      run.reply == Reply(500, Text(InstallErrorPrefix + exchange.error)) && |run.trace| == 1
    ensures Guard(q, stored).None? && exchange.Success? && !UsableToken(exchange.value) ==>
      run.reply == Reply(500, Text(BadTokenMessage)) && |run.trace| == 1
    ensures run.credential.Some? && register.Failure? ==>
      run.reply == Reply(500, Text(InstallErrorPrefix + register.error)) && |run.trace| == 2
    // Success needs a usable token and a registered carrier.
    ensures run.reply.status == 200 <==> run.credential.Some? && register.Success?
    ensures run.reply.status in {200, 400, 500}
  {
    match Guard(q, stored)
    case Some(reply) => CallbackRun(reply, [], None, [])
    case None => Provisioned(env, q.code.value, exchange, register, createOption)
  }

  /**
   * The calls `/oauth_callback` makes: past the guard, the exchange comes
   * first and uses the query's code; the carrier is registered exactly once
   * when the token is usable, as the second call, and never otherwise; on success the remaining
   * calls are one creation per catalog entry, in catalog order, and the reply
   * lists every catalog name.
   */
  lemma CallbackCallOrder(env: Env, q: CallbackQuery, stored: Option<string>,
                          exchange: Result<TokenData, string>, register: Result<string, string>,
                          createOption: OptionRequest -> Outcome<string>)
    ensures var run := Callback(env, q, stored, exchange, register, createOption);
      && (Guard(q, stored).None? ==>
            |run.trace| >= 1 && run.trace[0] == ExchangeCode(env.clientId, env.clientSecret, q.code.value, env.publicApiUrl))
      && (run.credential.Some? ==>
            |run.trace| >= 2 &&
            run.trace[1] == RegisterCarrier(run.credential.value.storeId, run.credential.value.accessToken,
                                            env.publicApiUrl, MainCarrierName))
      && (forall k :: 0 <= k < |run.trace| && run.trace[k].RegisterCarrier? ==>
            k == 1 && run.credential.Some? &&
            run.trace[k] == RegisterCarrier(run.credential.value.storeId, run.credential.value.accessToken,
                                            env.publicApiUrl, MainCarrierName))
      && (run.reply.status == 200 ==>
            && |run.trace| == 2 + |Catalog|
            && (forall i :: 0 <= i < |Catalog| ==>
                  run.trace[2 + i] == CreateOption(RequestFor(run.credential.value, register.value, Catalog[i])))
            && run.reply.body == Installed(MainCarrierName, CatalogNames(), env.publicApiUrl + RatesPath))
  {
    var run := Callback(env, q, stored, exchange, register, createOption);
    if run.reply.status == 200 {
      var calls := OptionCalls(run.credential.value, register.value, Catalog);
      assert run.trace[2..] == calls;
      assert forall k :: 2 <= k < |run.trace| ==> run.trace[k] == calls[k - 2];
    }
  }

  /**
   * Option failures are swallowed: whatever the platform answers to each
   * creation, the reply, the calls made and the credential are the same.
   */
  lemma OptionOutcomesIgnored(env: Env, q: CallbackQuery, stored: Option<string>,
                              exchange: Result<TokenData, string>, register: Result<string, string>,
                              f: OptionRequest -> Outcome<string>, g: OptionRequest -> Outcome<string>)
    ensures Callback(env, q, stored, exchange, register, f).reply == Callback(env, q, stored, exchange, register, g).reply
    ensures Callback(env, q, stored, exchange, register, f).trace == Callback(env, q, stored, exchange, register, g).trace
    ensures Callback(env, q, stored, exchange, register, f).credential == Callback(env, q, stored, exchange, register, g).credential
  {
  }

  /**
   * The state check does not reject a callback that carries no state when the
   * session holds none either: such a request reaches the token exchange.
   */
  lemma AbsentStateAccepted(env: Env, q: CallbackQuery,
                            exchange: Result<TokenData, string>, register: Result<string, string>,
                            createOption: OptionRequest -> Outcome<string>)
    requires q.state == None && !Truthy(q.error) && Truthy(q.code)
    ensures Callback(env, q, None, exchange, register, createOption).trace[0].ExchangeCode?
  {
  }

  /**
   * The best-effort loop: one awaited creation per catalog entry, in catalog
   * order; a creation that throws is recorded and the loop goes on.
   */
  method CreateCatalogOptions(cred: Credential, carrierId: string, createOption: OptionRequest -> Outcome<string>)
    returns (calls: seq<Call>, failures: seq<string>)
    ensures calls == OptionCalls(cred, carrierId, Catalog)
    ensures failures == FailedOptions(cred, carrierId, Catalog, createOption)
  {
    calls, failures := [], [];
    var i := 0;
    while i < |Catalog|
      invariant 0 <= i <= |Catalog|
      invariant calls == OptionCalls(cred, carrierId, Catalog[..i])
      invariant failures == FailedOptions(cred, carrierId, Catalog[..i], createOption)
    {
      var request := RequestFor(cred, carrierId, Catalog[i]);
      var outcome := createOption(request);
      calls := calls + [CreateOption(request)];
      if outcome.Fail? {
        failures := failures + [Catalog[i].name];
      }
      assert Catalog[..i + 1][..i] == Catalog[..i];
      i := i + 1;
    }
    assert Catalog[..i] == Catalog;
  }

  /**
   * `/oauth_callback` over the session object. The reply, the calls made and
   * the failed options are those of `Callback`; the session's token and store
   * id are written exactly when `Callback` says a credential was obtained.
   */
  method OAuthCallback(session: Session, env: Env, q: CallbackQuery,
                       exchange: Result<TokenData, string>, register: Result<string, string>,
                       createOption: OptionRequest -> Outcome<string>)
    returns (reply: Reply, trace: seq<Call>, failures: seq<string>)
    modifies session`accessToken, session`storeId
    ensures var run := Callback(env, q, old(session.oauthState), exchange, register, createOption);
      && reply == run.reply && trace == run.trace && failures == run.failures
      && (run.credential.Some? ==>
            session.accessToken == Some(run.credential.value.accessToken) &&
            session.storeId == Some(run.credential.value.storeId))
      && (run.credential.None? ==>
            session.accessToken == old(session.accessToken) && session.storeId == old(session.storeId))
    ensures session.oauthState == old(session.oauthState)
  {
    trace, failures := [], [];
    if Truthy(q.error) {
      reply := Reply(400, Text(UpstreamErrorPrefix + Or(q.errorDescription, q.error).value));
      return;
    }
    if q.state != session.oauthState {
      reply := Reply(400, Text(StateMismatchMessage));
      return;
    }
    if !Truthy(q.code) {
      reply := Reply(400, Text(MissingCodeMessage));
      return;
    }
    reply, trace, failures := Provision(session, env, q.code.value, exchange, register, createOption);
  }

  /**
   * The callback past its guard over the session object: the token and store
   * id are written as soon as the token is known to be usable, before the
   * carrier is registered.
   */
  method Provision(session: Session, env: Env, code: string,
                   exchange: Result<TokenData, string>, register: Result<string, string>,
                   createOption: OptionRequest -> Outcome<string>)
    returns (reply: Reply, trace: seq<Call>, failures: seq<string>)
    modifies session`accessToken, session`storeId
    ensures var run := Provisioned(env, code, exchange, register, createOption);
      && reply == run.reply && trace == run.trace && failures == run.failures
      && (run.credential.Some? ==>
            session.accessToken == Some(run.credential.value.accessToken) &&
            session.storeId == Some(run.credential.value.storeId))
      && (run.credential.None? ==>
            session.accessToken == old(session.accessToken) && session.storeId == old(session.storeId))
  {
    failures := [];
    trace := [ExchangeCode(env.clientId, env.clientSecret, code, env.publicApiUrl)];
    if exchange.Failure? {
      reply := Reply(500, Text(InstallErrorPrefix + exchange.error));
      return;
    }
    var token := exchange.value;
    if !Truthy(token.accessToken) || !Truthy(token.userId) {
      reply := Reply(500, Text(BadTokenMessage));
      return;
    }
    session.accessToken := token.accessToken;
    session.storeId := token.userId;
    var cred := Credential(token.accessToken.value, token.userId.value);
    var rest;
    reply, rest, failures := Register(env, cred, register, createOption);
    trace := trace + rest;
  }

  /** Carrier registration and option creation, as `Registered` describes them. */
  method Register(env: Env, cred: Credential, register: Result<string, string>,
                  createOption: OptionRequest -> Outcome<string>)
    returns (reply: Reply, trace: seq<Call>, failures: seq<string>)
    ensures CallbackRun(reply, trace, Some(cred), failures) == Registered(env, cred, register, createOption)
  {
    trace, failures := [RegisterCarrier(cred.storeId, cred.accessToken, env.publicApiUrl, MainCarrierName)], [];
    if register.Failure? {
      reply := Reply(500, Text(InstallErrorPrefix + register.error));
      return;
    }
    var calls;
    calls, failures := CreateCatalogOptions(cred, register.value, createOption);
    trace := trace + calls;
    reply := Reply(200, Installed(MainCarrierName, CatalogNames(), env.publicApiUrl + RatesPath));
  }
}

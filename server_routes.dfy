/**
 * The backend's routes as functions from a request (and the provider's
 * answer, given as an input) to what the backend sends to the provider and
 * what it answers. The derivations inside the handlers (order amount, payment
 * description, session id fallback), the base URL table, the error handler's
 * message and the start-up configuration are modelled here too.
 */
module ServerRoutes {
  import opened Wrappers
  import opened JsValues
  import opened Text
  import opened ServerValidation

  // ---------------------------------------------------------------------------
  // Start-up configuration.

  /** What the server holds once it is listening. */
  datatype ServerConfig = ServerConfig(
    accountCode: string,
    publicKey: string,
    privateKey: string,
    nodeEnv: string,
    port: JsValue,
    apiUrl: string,
    customerId: JsValue)

  datatype Startup = Exited(code: int) | Listening(config: ServerConfig)

  /** `process.env[name]`: a string, or undefined when the variable is not set. */
  function EnvValue(env: map<string, string>, name: string): JsValue {
    if name in env then Str(env[name]) else Undefined
  }

  function EnvText(env: map<string, string>, name: string, fallback: string): (r: string)
    ensures name in env && env[name] != "" ==> r == env[name]
    ensures name !in env || env[name] == "" ==> r == fallback
  {
    if name in env && env[name] != "" then env[name] else fallback
  }

  /**
   * The first phase of start-up: the three credentials must be set and
   * non-empty, or the process exits with status 1. Otherwise the server
   * listens, and its listen callback sets the base URL from the public key
   * before it asks the provider for the customer; until that answer arrives
   * requests are served with the customer id still undefined.
   */
  function Launch(env: map<string, string>): (r: Startup)
    ensures r.Listening? <==>
      Truthy(EnvValue(env, "ACCOUNT_CODE")) && Truthy(EnvValue(env, "PUBLIC_API_KEY"))
      && Truthy(EnvValue(env, "PRIVATE_SECRET_KEY"))
    ensures r.Exited? ==> r.code == 1
    ensures r.Listening? ==>
      && r.config.port == Or(EnvValue(env, "PORT"), Num(8080.0))
      && r.config.nodeEnv == EnvText(env, "NODE_ENV", "development")
      && r.config.apiUrl == BaseUrl(env["PUBLIC_API_KEY"])
      && r.config.customerId == Undefined
  {
    var account := EnvValue(env, "ACCOUNT_CODE");
    var publicKey := EnvValue(env, "PUBLIC_API_KEY");
    var secret := EnvValue(env, "PRIVATE_SECRET_KEY");
    if !Truthy(account) || !Truthy(publicKey) || !Truthy(secret) then Exited(1)
    else
      Listening(ServerConfig(
        account.s, publicKey.s, secret.s,
        EnvText(env, "NODE_ENV", "development"),
        Or(EnvValue(env, "PORT"), Num(8080.0)),
        BaseUrl(publicKey.s),
        Undefined))
  }

  /**
   * The second phase, once the customer answer arrives at a listening server:
   * `({ id }) => id` throws on a null or undefined answer, and the listen
   * callback's catch exits with status 1; otherwise the customer id is set.
   */
  function CustomerArrived(cfg: ServerConfig, customerAnswer: JsValue): (r: Startup)
    ensures r.Exited? <==> Nullish(customerAnswer)
    ensures r.Exited? ==> r.code == 1
    ensures r.Listening? ==> r.config == cfg.(customerId := Field(customerAnswer, "id"))
  {
    if Nullish(customerAnswer) then Exited(1)
    else Listening(cfg.(customerId := Field(customerAnswer, "id")))
  }

  /** The whole start-up, up to the state after the customer answer. */
  function StartServer(env: map<string, string>, customerAnswer: JsValue): Startup {
    match Launch(env)
    case Exited(code) => Exited(code)
    case Listening(cfg) => CustomerArrived(cfg, customerAnswer)
  }

  /**
   * The end states of start-up: the server keeps listening iff the credentials
   * are set and the customer answer is not null or undefined; it exits with
   * status 1 otherwise, and when the answer is the cause it had been listening
   * with an undefined customer id before it exits.
   */
  lemma StartupEndStates(env: map<string, string>, customerAnswer: JsValue)
    ensures var r := StartServer(env, customerAnswer);
      && (r.Listening? <==>
            Truthy(EnvValue(env, "ACCOUNT_CODE")) && Truthy(EnvValue(env, "PUBLIC_API_KEY"))
            && Truthy(EnvValue(env, "PRIVATE_SECRET_KEY")) && !Nullish(customerAnswer))
      && (r.Exited? ==> r.code == 1)
      && (r.Exited? && Launch(env).Listening? ==> Nullish(customerAnswer))
      && (r.Listening? ==>
            && r.config.port == Or(EnvValue(env, "PORT"), Num(8080.0))
            && r.config.nodeEnv == EnvText(env, "NODE_ENV", "development")
            && r.config.apiUrl == BaseUrl(env["PUBLIC_API_KEY"])
            && r.config.customerId == Field(customerAnswer, "id")
            && r.config == Launch(env).config.(customerId := Field(customerAnswer, "id")))
  {
  }

  // ---------------------------------------------------------------------------
  // The base URL of the provider's API, chosen by the public key's prefix.

  /** `key.split('_')[0]`: the text before the first underscore, or all of it. */
  function KeyPrefix(key: string): (r: string)
    ensures |r| <= |key| && r == key[..|r|]
    ensures '_' !in r
    ensures |r| == |key| || key[|r|] == '_'
    decreases |key|
  {
    if |key| == 0 || key[0] == '_' then "" else [key[0]] + KeyPrefix(key[1..])
  }

  /** The prefix table: None for a prefix it does not list (the lookup gives undefined). */
  function EnvironmentSuffix(prefix: string): Option<string> {
    if prefix == "dev" then Some("-dev")
    else if prefix == "staging" then Some("-staging")
    else if prefix == "sandbox" then Some("-sandbox")
    else if prefix == "prod" then Some("")
    else None
  }

  /** The replacement text String.prototype.replace uses: undefined becomes "undefined". */
  function SuffixText(suffix: Option<string>): string {
    match suffix
    case None => "undefined"
    case Some(t) => t
  }

  const ApiHost := "https://api"
  const Placeholder := "_ENVIRONMENT_"
  const HostTail := ".y.uno"
  /** "https://api_ENVIRONMENT_.y.uno" */
  const BaseTemplate := ApiHost + Placeholder + HostTail

  /** The first index from `i` on where `pat` occurs in `s`. */
  function Search(s: string, pat: string, i: nat): (r: Option<nat>)
    requires i <= |s|
    ensures r.Some? ==> i <= r.value && OccursAt(s, pat, r.value)
    ensures r.Some? ==> forall j :: i <= j < r.value ==> !OccursAt(s, pat, j)
    ensures r.None? ==> forall j :: i <= j <= |s| ==> !OccursAt(s, pat, j)
    decreases |s| - i
  {
    if OccursAt(s, pat, i) then Some(i)
    else if i == |s| then None
    else Search(s, pat, i + 1)
  }

  /** The search returns exactly the first occurrence at or after `i`. */
  lemma {:induction false} SearchFinds(s: string, pat: string, i: nat, k: nat)
    requires i <= k <= |s| && OccursAt(s, pat, k)
    requires forall j :: i <= j < k ==> !OccursAt(s, pat, j)
    ensures Search(s, pat, i) == Some(k)
    decreases k - i
  {
    if i < k {
      SearchFinds(s, pat, i + 1, k);
    }
  }

  /** `s.replace(pat, rep)` with a string pattern: only the first occurrence is replaced. */
  function ReplaceFirst(s: string, pat: string, rep: string): string {
    match Search(s, pat, 0)
    case None => s
    case Some(i) => s[..i] + rep + s[i + |pat|..]
  }

  /** generateBaseUrlApi. */
  function BaseUrl(publicKey: string): string {
    ReplaceFirst(BaseTemplate, Placeholder, SuffixText(EnvironmentSuffix(KeyPrefix(publicKey))))
  }

  /** The placeholder first occurs right after "https://api" in the template. */
  lemma PlaceholderInTemplate()
    ensures Search(BaseTemplate, Placeholder, 0) == Some(|ApiHost|)
  {
    assert BaseTemplate[..|ApiHost|] == ApiHost;
    forall j | 0 <= j < |ApiHost| ensures !OccursAt(BaseTemplate, Placeholder, j) {
      assert BaseTemplate[j] == ApiHost[j] != '_';
      assert BaseTemplate[j..j + |Placeholder|][0] == BaseTemplate[j];
    }
    assert BaseTemplate[|ApiHost|..|ApiHost| + |Placeholder|] == Placeholder;
    SearchFinds(BaseTemplate, Placeholder, 0, |ApiHost|);
  }

  /** The base URL splices the environment suffix (or the text "undefined") between "https://api" and ".y.uno". */
  lemma BaseUrlShape(publicKey: string)
    ensures BaseUrl(publicKey) == ApiHost + SuffixText(EnvironmentSuffix(KeyPrefix(publicKey))) + HostTail
  {
    PlaceholderInTemplate();
    assert BaseTemplate[..|ApiHost|] == ApiHost;
    assert BaseTemplate[|ApiHost| + |Placeholder|..] == HostTail;
  }

  lemma DevUrl()
    ensures ApiHost + "-dev" + HostTail == "https://api-dev.y.uno"
  {
  }

  lemma StagingUrl()
    ensures ApiHost + "-staging" + HostTail == "https://api-staging.y.uno"
  {
  }

  lemma SandboxUrl()
    ensures ApiHost + "-sandbox" + HostTail == "https://api-sandbox.y.uno"
  {
  }

  lemma ProdUrl()
    ensures ApiHost + "" + HostTail == "https://api.y.uno"
  {
  }

  lemma UnknownUrl()
    ensures ApiHost + "undefined" + HostTail == "https://apiundefined.y.uno"
  {
  }

  /** The table: dev, staging and sandbox keys reach their own hosts, prod keys the bare host, any other prefix a host named "apiundefined". */
  lemma BaseUrlTable(publicKey: string)
    ensures KeyPrefix(publicKey) == "dev" ==> BaseUrl(publicKey) == "https://api-dev.y.uno"
    ensures KeyPrefix(publicKey) == "staging" ==> BaseUrl(publicKey) == "https://api-staging.y.uno"
    ensures KeyPrefix(publicKey) == "sandbox" ==> BaseUrl(publicKey) == "https://api-sandbox.y.uno"
    ensures KeyPrefix(publicKey) == "prod" ==> BaseUrl(publicKey) == "https://api.y.uno"
    ensures EnvironmentSuffix(KeyPrefix(publicKey)).None? ==> BaseUrl(publicKey) == "https://apiundefined.y.uno"
  {
    BaseUrlShape(publicKey);
    DevUrl();
    StagingUrl();
    SandboxUrl();
    ProdUrl();
    UnknownUrl();
  }

  // ---------------------------------------------------------------------------
  // Errors.

  const ProductionMessage := "Something went wrong. Please try again later."

  /** The error-handling middleware's `message`: hidden in production, the exception's own text otherwise. */
  function ErrorHandlerMessage(nodeEnv: string, exceptionText: string): (r: string)
    ensures nodeEnv == "production" ==> r == ProductionMessage
    ensures nodeEnv != "production" ==> r == exceptionText
  {
    if nodeEnv == "production" then ProductionMessage else exceptionText
  }

  // ---------------------------------------------------------------------------
  // The two payment routes.

  /** An item of the order as the session request lists it (its category is always "general"). */
  datatype OrderLine = OrderLine(id: JsValue, name: JsValue, quantity: JsValue, unitAmount: JsValue)

  datatype ProviderRequest =
    | SessionRequest(
        url: string, accountId: string, merchantOrderId: string, description: string,
        country: JsValue, customerId: JsValue, currency: JsValue, value: int,
        lines: Option<seq<OrderLine>>)
    | PaymentRequest(
        url: string, idempotencyKey: string, accountId: string, merchantOrderId: string,
        country: JsValue, currency: JsValue, amount: real, unitAmount: real,
        session: JsValue, token: JsValue, customerId: JsValue,
        documentType: JsValue, documentNumber: JsValue)

  /** The JSON body the session route answers with. */
  datatype SessionBody = SessionBody(
    checkoutSession: JsValue, merchantOrderId: string, country: JsValue,
    description: string, customerId: JsValue, amount: int, currency: JsValue)

  datatype Reply =
    | Rejected(failure: ValidationError)            // 400 from a validator
    | ErrorHandled(message: string)                 // 500 from the error-handling middleware
    | Crashed(message: string)                      // 500 from a route's own catch
    | ProviderRefused(error: string, details: JsValue)  // 400 relaying the provider's answer
    | SessionCreated(body: SessionBody)             // 200 from the session route
    | Relayed(payload: JsValue)                     // 200 from the payment route

  function Status(r: Reply): int {
    match r
    case Rejected(_) => 400
    case ProviderRefused(_, _) => 400
    case ErrorHandled(_) => 500
    case Crashed(_) => 500
    case _ => 200
  }

  /** What one request leads to: the provider request sent, if any, and the answer. */
  datatype Exchange = Exchange(sent: Option<ProviderRequest>, reply: Reply)

  /** The provider's answer: `response.ok` and the parsed JSON payload. */
  datatype ProviderAnswer = ProviderAnswer(ok: bool, payload: JsValue)

  /** What getCountryData returns for a country. */
  datatype CountryData = CountryData(currency: JsValue, documentNumber: JsValue, documentType: JsValue)

  /** The values the handlers take from the clock and the random generators. */
  datatype Draws = Draws(now: int, pick: int, idempotencyKey: string)

  /** `${prefix}${Date.now()}_${Math.floor(Math.random() * 1000)}`. */
  function OrderId(rt: Runtime, prefix: string, d: Draws): (r: string)
    ensures |prefix| <= |r| && r[..|prefix|] == prefix
  {
    prefix + rt.numberText(d.now as real) + "_" + rt.numberText(d.pick as real)
  }

  /** Math.round: the nearest integer, halves rounded up. */
  function Round(x: real): (n: int)
    ensures n as real - 0.5 <= x < n as real + 0.5
  {
    (x + 0.5).Floor
  }

  /** `amount ? Math.round(amount) : 2000`, on an amount the validator accepted. */
  function OrderAmount(amount: JsValue): int
    requires !Truthy(amount) || amount.Num?
  {
    if Truthy(amount) then Round(amount.x) else 2000
  }

  /** An integer amount reaches the provider unchanged; a falsy one becomes 2000. */
  lemma OrderAmountExact(amount: JsValue)
    requires !Truthy(amount) || amount.Num?
    ensures !Truthy(amount) ==> OrderAmount(amount) == 2000
    ensures Truthy(amount) && amount.x == amount.x.Floor as real ==> OrderAmount(amount) == amount.x.Floor
  {
  }

  /** The validator lets a positive amount below one half through, and the order then asks for 0. */
  lemma SubHalfAmountBecomesZero(rt: Runtime, body: JsValue)
    requires body.Obj? && "amount" in body.fields && "items" !in body.fields
    requires body.fields["amount"].Num? && 0.0 < body.fields["amount"].x < 0.5
    ensures CheckoutSessionVerdict(rt, body).Next?
    ensures OrderAmount(Field(body, "amount")) == 0
  {
  }

  /** The names of the items, as `items.map(item => item.name)` reads them: the first null or undefined item throws. */
  function ItemNames(items: seq<JsValue>): (r: Result<seq<JsValue>, JsError>)
    ensures r.Success? <==> forall j :: 0 <= j < |items| ==> !Nullish(items[j])
    ensures r.Success? ==> |r.value| == |items| && forall j :: 0 <= j < |items| ==> r.value[j] == Field(items[j], "name")
    decreases |items|
  {
    if |items| == 0 then Success([])
    else if Nullish(items[0]) then Failure(ReadOfNullish(items[0], "name"))
    else
      match ItemNames(items[1..])
      case Failure(e) => Failure(e)
      case Success(rest) => Success([Field(items[0], "name")] + rest)
  }

  /** Array.prototype.join renders a null or undefined element as the empty string. */
  function JoinText(rt: Runtime, v: JsValue): string {
    if Nullish(v) then "" else ToText(rt, v)
  }

  function NameTexts(rt: Runtime, names: seq<JsValue>): (r: seq<string>)
    ensures |r| == |names| && forall j :: 0 <= j < |names| ==> r[j] == JoinText(rt, names[j])
  {
    seq(|names|, j requires 0 <= j < |names| => JoinText(rt, names[j]))
  }

  const DefaultDescription := "E-commerce Purchase"

  /** The payment description: the default for no names, else "Purchase: " and the names joined by ", ". */
  function Description(rt: Runtime, names: seq<JsValue>): string {
    if |names| == 0 then DefaultDescription else "Purchase: " + Join(NameTexts(rt, names), ", ")
  }

  /** The description names every item, in order, after the fixed "Purchase: " lead. */
  lemma DescriptionNamesItems(rt: Runtime, names: seq<JsValue>, k: nat)
    requires k < |names|
    ensures Description(rt, names)[..10] == "Purchase: "
    ensures Includes(Description(rt, names), JoinText(rt, names[k]))
  {
    var joined := Join(NameTexts(rt, names), ", ");
    JoinIncludesPart(NameTexts(rt, names), ", ", k);
    IncludesIff(joined, JoinText(rt, names[k]));
    var i :| OccursAt(joined, JoinText(rt, names[k]), i);
    var t := JoinText(rt, names[k]);
    assert ("Purchase: " + joined)[10 + i..10 + i + |t|] == joined[i..i + |t|];
    assert OccursAt("Purchase: " + joined, t, 10 + i);
    OccursAtIncludes("Purchase: " + joined, t, 10 + i);
  }

  function OrderLines(items: seq<JsValue>): seq<OrderLine>
    requires forall j :: 0 <= j < |items| ==> !Nullish(items[j])
  {
    seq(|items|, j requires 0 <= j < |items| =>
      OrderLine(Field(items[j], "id"), Field(items[j], "name"), Field(items[j], "quantity"), Field(items[j], "unit_amount")))
  }

  /** `d.checkout_session || d.id || d.session_id || d.uuid` over a payload that is not null or undefined. */
  function SessionIdOf(payload: JsValue): (r: JsValue)
    requires !Nullish(payload)
    ensures Truthy(r) <==> exists key :: key in SessionIdKeys && Truthy(Field(payload, key))
    ensures Truthy(Field(payload, "checkout_session")) ==> r == Field(payload, "checkout_session")
    ensures !Truthy(r) ==> r == Field(payload, "uuid")
  {
    Or(Or(Or(Field(payload, "checkout_session"), Field(payload, "id")), Field(payload, "session_id")), Field(payload, "uuid"))
  }

  const SessionIdKeys: set<string> := {"checkout_session", "id", "session_id", "uuid"}

  /** The session id is the first truthy of the four fields, in their order of precedence. */
  lemma SessionIdPrecedence(payload: JsValue)
    requires !Nullish(payload)
    ensures !Truthy(Field(payload, "checkout_session")) && Truthy(Field(payload, "id")) ==>
      SessionIdOf(payload) == Field(payload, "id")
    ensures (!Truthy(Field(payload, "checkout_session")) && !Truthy(Field(payload, "id"))
             && Truthy(Field(payload, "session_id"))) ==> SessionIdOf(payload) == Field(payload, "session_id")
    ensures (!Truthy(Field(payload, "checkout_session")) && !Truthy(Field(payload, "id"))
             && !Truthy(Field(payload, "session_id"))) ==> SessionIdOf(payload) == Field(payload, "uuid")
  {
  }

  /** The session handler after the validator: description, request, and the answer from the provider's reply. */
  function SessionHandler(
    rt: Runtime, cfg: ServerConfig, countryData: JsValue -> CountryData,
    queryCountry: JsValue, body: JsValue, draws: Draws, answer: ProviderAnswer): Exchange
    requires !Nullish(body) && CheckoutSessionVerdict(rt, body).Next?
  {
    var country := Or(queryCountry, Str("CO"));
    var data := countryData(country);
    var amount := Field(body, "amount");
    var items := Field(body, "items");
    var orderAmount := OrderAmount(amount);
    var orderId := OrderId(rt, "ORDER_", draws);
    if Truthy(items) && !items.Arr? then
      // the description or the line list calls items.map, which a non-array lacks
      Exchange(None, Crashed(ErrorText(NotAFunction("items.map"))))
    else
      var names := if items.Arr? && |items.elems| > 0 then ItemNames(items.elems) else Success([]);
      match names
      case Failure(e) => Exchange(None, Crashed(ErrorText(e)))
      case Success(ns) =>
        var description := Description(rt, ns);
        var currency := Or(data.currency, Str("USD"));
        var lines := if items.Arr? then Some(OrderLines(items.elems)) else None;
        var request := SessionRequest(
          cfg.apiUrl + "/v1/checkout/sessions", cfg.accountCode, orderId, description,
          country, cfg.customerId, currency, orderAmount, lines);
        if !answer.ok then
          Exchange(Some(request), ProviderRefused("Failed to create checkout session", answer.payload))
        else if Nullish(answer.payload) then
          Exchange(Some(request), Crashed(ErrorText(ReadOfNullish(answer.payload, "checkout_session"))))
        else
          Exchange(Some(request), SessionCreated(SessionBody(
            SessionIdOf(answer.payload), orderId, country, description, cfg.customerId, orderAmount, currency)))
  }

  /** POST /checkout/sessions: the validator, then the handler. */
  function CheckoutSessionsRoute(
    rt: Runtime, cfg: ServerConfig, countryData: JsValue -> CountryData,
    queryCountry: JsValue, body: JsValue, draws: Draws, answer: ProviderAnswer): (x: Exchange)
    requires !Nullish(body)
    ensures CheckoutSessionVerdict(rt, body).Reject? ==>
      x == Exchange(None, Rejected(CheckoutSessionVerdict(rt, body).failure))
    ensures CheckoutSessionVerdict(rt, body).Thrown? ==>
      x == Exchange(None, ErrorHandled(ErrorHandlerMessage(cfg.nodeEnv, ErrorText(CheckoutSessionVerdict(rt, body).exception))))
    ensures x.sent.Some? ==> CheckoutSessionVerdict(rt, body).Next?
  {
    match CheckoutSessionVerdict(rt, body)
    case Reject(e) => Exchange(None, Rejected(e))
    case Thrown(e) => Exchange(None, ErrorHandled(ErrorHandlerMessage(cfg.nodeEnv, ErrorText(e))))
    case Next => SessionHandler(rt, cfg, countryData, queryCountry, body, draws, answer)
  }

  /** What the session route promises once a request is through the validator and a provider request went out. */
  lemma SessionRouteOutcome(
    rt: Runtime, cfg: ServerConfig, countryData: JsValue -> CountryData,
    queryCountry: JsValue, body: JsValue, draws: Draws, answer: ProviderAnswer)
    requires !Nullish(body)
    requires CheckoutSessionsRoute(rt, cfg, countryData, queryCountry, body, draws, answer).sent.Some?
    ensures var x := CheckoutSessionsRoute(rt, cfg, countryData, queryCountry, body, draws, answer);
      var req := x.sent.value;
      && req.SessionRequest?
      && req.value == OrderAmount(Field(body, "amount"))
      && req.currency == Or(countryData(Or(queryCountry, Str("CO"))).currency, Str("USD"))
      && (!answer.ok ==> x.reply == ProviderRefused("Failed to create checkout session", answer.payload))
      && (answer.ok && !Nullish(answer.payload) ==>
            x.reply.SessionCreated?
            && x.reply.body.checkoutSession == SessionIdOf(answer.payload)
            && x.reply.body.amount == req.value
            && x.reply.body.currency == req.currency
            && x.reply.body.description == req.description)
  {
  }

  /** A request the session validator accepts with an array of items is never answered by a crash before the provider call. */
  lemma AcceptedItemsReachProvider(
    rt: Runtime, cfg: ServerConfig, countryData: JsValue -> CountryData,
    queryCountry: JsValue, body: JsValue, draws: Draws, answer: ProviderAnswer)
    requires !Nullish(body) && CheckoutSessionVerdict(rt, body).Next?
    requires !Truthy(Field(body, "items")) || Field(body, "items").Arr?
    ensures CheckoutSessionsRoute(rt, cfg, countryData, queryCountry, body, draws, answer).sent.Some?
  {
    if Field(body, "items").Arr? {
      AcceptedItemsNamed(rt, body);
    }
  }

  /** `items.map(item => item.name)` on items none of which is null or undefined. */
  function NameFields(items: seq<JsValue>): (r: seq<JsValue>)
    requires forall j :: 0 <= j < |items| ==> !Nullish(items[j])
    ensures |r| == |items| && forall j :: 0 <= j < |items| ==> r[j] == Field(items[j], "name")
  {
    seq(|items|, j requires 0 <= j < |items| => Field(items[j], "name"))
  }

  /** Every item of an accepted array is an object, so reading the names does not throw. */
  lemma AcceptedItemsNamed(rt: Runtime, body: JsValue)
    requires !Nullish(body) && CheckoutSessionVerdict(rt, body).Next? && Field(body, "items").Arr?
    ensures ItemNames(Field(body, "items").elems).Success?
    ensures ItemNames(Field(body, "items").elems).value == NameFields(Field(body, "items").elems)
  {
    var items := Field(body, "items");
    AcceptedSessionBody(rt, body);
    forall j | 0 <= j < |items.elems| ensures !Nullish(items.elems[j]) {
      assert ItemCheck(rt, items.elems[j]).Next?;
    }
    assert ItemNames(items.elems).value == NameFields(items.elems);
  }

  /**
   * The description sent for an accepted body: the default when `items` is
   * missing, falsy or empty, otherwise "Purchase: " and the items' names,
   * each rendered as join renders it, separated by ", ".
   */
  lemma SessionDescription(
    rt: Runtime, cfg: ServerConfig, countryData: JsValue -> CountryData,
    queryCountry: JsValue, body: JsValue, draws: Draws, answer: ProviderAnswer)
    requires !Nullish(body) && CheckoutSessionVerdict(rt, body).Next?
    requires !Truthy(Field(body, "items")) || Field(body, "items").Arr?
    ensures var x := SessionHandler(rt, cfg, countryData, queryCountry, body, draws, answer);
      var items := Field(body, "items");
      && x.sent.Some? && x.sent.value.SessionRequest?
      && ((!Truthy(items) || (items.Arr? && |items.elems| == 0)) ==> x.sent.value.description == DefaultDescription)
      && (items.Arr? && |items.elems| > 0 ==>
            ItemNames(items.elems).Success?
            && x.sent.value.description == "Purchase: " + Join(NameTexts(rt, NameFields(items.elems)), ", "))
  {
    if Field(body, "items").Arr? {
      AcceptedItemsNamed(rt, body);
    }
  }

  /** The payment handler after the validator. */
  function PaymentHandler(
    rt: Runtime, cfg: ServerConfig, countryData: JsValue -> CountryData,
    queryCountry: JsValue, body: JsValue, draws: Draws, answer: ProviderAnswer): Exchange
    requires !Nullish(body) && PaymentVerdict(rt, body).Next?
  {
    var session := Field(body, "checkoutSession");
    var token := Field(body, "oneTimeToken");
    var amount := PaymentAmount(Field(body, "amount"));
    var country := Or(queryCountry, Str("CO"));
    var data := countryData(country);
    var request := PaymentRequest(
      cfg.apiUrl + "/v1/payments", draws.idempotencyKey, cfg.accountCode, OrderId(rt, "PAYMENT_", draws),
      country, Or(data.currency, Str("USD")), amount, amount / 100.0,
      session, token, cfg.customerId, data.documentType, data.documentNumber);
    if !answer.ok then Exchange(Some(request), ProviderRefused("Payment failed", answer.payload))
    else Exchange(Some(request), Relayed(answer.payload))
  }

  /** `req.body.amount || 2000`, on an amount the validator accepted. */
  function PaymentAmount(amount: JsValue): (r: real)
    requires !Truthy(amount) || amount.Num?
    ensures Truthy(amount) ==> r == amount.x
    ensures !Truthy(amount) ==> r == 2000.0
  {
    if Truthy(amount) then amount.x else 2000.0
  }

  /** POST /payments: the validator, then the handler. */
  function PaymentsRoute(
    rt: Runtime, cfg: ServerConfig, countryData: JsValue -> CountryData,
    queryCountry: JsValue, body: JsValue, draws: Draws, answer: ProviderAnswer): (x: Exchange)
    requires !Nullish(body)
    ensures PaymentVerdict(rt, body).Reject? ==>
      x == Exchange(None, Rejected(PaymentVerdict(rt, body).failure))
    ensures x.sent.Some? <==> PaymentVerdict(rt, body).Next?
    ensures x.sent.Some? ==>
      && x.sent.value.PaymentRequest?
      && x.sent.value.amount > 0.0
      && (Truthy(Field(body, "amount")) ==> Field(body, "amount").Num? && x.sent.value.amount == Field(body, "amount").x)
      && (!Truthy(Field(body, "amount")) ==> x.sent.value.amount == 2000.0)
      && x.sent.value.unitAmount * 100.0 == x.sent.value.amount
      && x.sent.value.url == cfg.apiUrl + "/v1/payments"
      && x.sent.value.accountId == cfg.accountCode
      && x.sent.value.idempotencyKey == draws.idempotencyKey
      && x.sent.value.country == Or(queryCountry, Str("CO"))
      && x.sent.value.currency == Or(countryData(Or(queryCountry, Str("CO"))).currency, Str("USD"))
      && x.sent.value.documentType == countryData(Or(queryCountry, Str("CO"))).documentType
      && x.sent.value.documentNumber == countryData(Or(queryCountry, Str("CO"))).documentNumber
      && x.sent.value.customerId == cfg.customerId
      && x.sent.value.session == Field(body, "checkoutSession")
      && x.sent.value.token == Field(body, "oneTimeToken")
      && x.reply == (if answer.ok then Relayed(answer.payload) else ProviderRefused("Payment failed", answer.payload))
  {
    match PaymentVerdict(rt, body)
    case Reject(e) => Exchange(None, Rejected(e))
    case Thrown(e) => Exchange(None, ErrorHandled(ErrorHandlerMessage(cfg.nodeEnv, ErrorText(e))))
    case Next => PaymentHandler(rt, cfg, countryData, queryCountry, body, draws, answer)
  }

  /** A payment goes to the provider only for a UUID-shaped session and a token, whatever the provider would say. */
  lemma PaymentNeedsUuid(
    rt: Runtime, cfg: ServerConfig, countryData: JsValue -> CountryData,
    queryCountry: JsValue, body: JsValue, draws: Draws, answer: ProviderAnswer)
    requires !Nullish(body)
    requires PaymentsRoute(rt, cfg, countryData, queryCountry, body, draws, answer).sent.Some?
    ensures UuidV4Shape(ToText(rt, Field(body, "checkoutSession")))
    ensures Truthy(Field(body, "oneTimeToken"))
  {
    PaymentCheckOrder(rt, body);
  }
}

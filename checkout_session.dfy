/** The `create-checkout-session` edge function
    (supabase/functions/create-checkout-session/index.ts): the CORS headers,
    the head-count price table, and the single-pass decision from a request to
    either an early response or a Stripe subscription checkout session.

    The outside world is passed in: the three environment secrets (`Env`),
    whether the body parsed as JSON (`ParsedBody`), the `maintenance_plans`
    lookup by id (`lookup`), the configured price id for one head (`head1PriceId`,
    whose literal is not usable as written) and the outcome of the Stripe call
    (`stripe`). */
module CheckoutSession {
  import opened Wrappers
  import opened Strings
  import opened Types
  import MiniSplitPricing

  // ---------- CORS ----------

  const PagesOrigin := "https://cramerservices.github.io"
  const AllowedOrigins: set<string> :=
    {PagesOrigin, "http://localhost:5173", "http://localhost:4173"}
  const AllowedHeaders := "authorization, x-client-info, apikey, content-type"
  const AllowedMethods := "POST, OPTIONS"

  datatype CorsHeaders = CorsHeaders(
    allowOrigin: string, allowHeaders: string, allowMethods: string, vary: string)

  /** `buildCorsHeaders(origin)`: the request's origin is echoed only when it
      is allow-listed (a null or empty origin is not); otherwise the Pages
      site is named. */
  function BuildCorsHeaders(origin: Option<string>): (h: CorsHeaders)
    ensures h.allowOrigin in AllowedOrigins
    ensures origin.Some? && origin.value in AllowedOrigins ==> h.allowOrigin == origin.value
    ensures h.allowHeaders == AllowedHeaders && h.allowMethods == "POST, OPTIONS" && h.vary == "Origin"
  {
    var allowOrigin :=
      if origin.Some? && origin.value != "" && origin.value in AllowedOrigins
      then origin.value else PagesOrigin;
    CorsHeaders(allowOrigin, AllowedHeaders, AllowedMethods, "Origin")
  }

  /** The origin is echoed back if and only if it is allow-listed; any
      other origin, and a missing one, gets the Pages site. */
  lemma EchoesOriginIffAllowed(origin: Option<string>)
    ensures origin.Some? ==> (BuildCorsHeaders(origin).allowOrigin == origin.value <==> origin.value in AllowedOrigins)
    ensures (origin.None? || origin.value !in AllowedOrigins) ==> BuildCorsHeaders(origin).allowOrigin == PagesOrigin
  {
  }

  // ---------- Mini split head-count price mapping ----------

  const MaxHeads := 9
  const PricePrefix := "price_"

  /** `MINI_SPLIT_PRICE_BY_HEADS`, with the entry for one head supplied by
      configuration. */
  function MiniSplitPriceByHeads(head1PriceId: string): (m: map<int, string>)
    ensures forall h :: h in m <==> 1 <= h <= MaxHeads
    ensures m[1] == head1PriceId
  {
    map h | 1 <= h <= MaxHeads :: MappedPriceId(h, head1PriceId)
  }

  function MappedPriceId(h: int, head1PriceId: string): string
    requires 1 <= h <= MaxHeads
  {
    if h == 1 then head1PriceId else PricePrefix + PriceIdSuffix(h)
  }

  /** What follows "price_" in the table's ids for 2 to 9 heads. */
  function PriceIdSuffix(h: int): string
    requires 2 <= h <= MaxHeads
  {
    if h == 2 then "1SxZEX4lItCwxOnNRnG0JWpx"
    else if h == 3 then "1SxZHL4lItCwxOnNbr7jq9BL"
    else if h == 4 then "1SxZHb4lItCwxOnNaFhEgNOR"
    else if h == 5 then "1SxZHq4lItCwxOnNY8mtIhbM"
    else if h == 6 then "1SxZIY4lItCwxOnNCryF0YRo"
    else if h == 7 then "1SxZIn4lItCwxOnNwDOM6KJM"
    else if h == 8 then "1SxZJ14lItCwxOnNvXSBPiXr"
    else "1SxZJD4lItCwxOnNL1ViF8YA"
  }

  /** Every entry written into the table (2 to 9 heads) is a Stripe price id;
      only the configured one-head entry can fail the "price_" guard. */
  lemma ConfiguredEntriesArePriceIds(head1PriceId: string, h: int)
    requires 2 <= h <= MaxHeads
    ensures StartsWith(MiniSplitPriceByHeads(head1PriceId)[h], "price_")
  {
    assert MiniSplitPriceByHeads(head1PriceId)[h] == PricePrefix + PriceIdSuffix(h);
    StartsWithConcat(PricePrefix, PriceIdSuffix(h));
  }

  /** The table's entry for a head count from 2 to 9 is "price_" followed by its suffix. */
  lemma TableEntry(head1PriceId: string, h: int)
    requires 2 <= h <= MaxHeads
    ensures MiniSplitPriceByHeads(head1PriceId)[h] == PricePrefix + PriceIdSuffix(h)
  {
  }

  /** Every suffix has a lower-case 'l' as its eighth character ("...4lIt..."). */
  lemma SuffixSpelling(h: int)
    requires 2 <= h <= MaxHeads
    ensures PriceIdSuffix(h)[7] == 'l'
  {
  }

  /** The server's table and the storefront's tier table
      (src/lib/miniSplitPricing.ts) name different price ids for every head
      count both list (4 to 9): the server's ids spell "4lIt" where the
      storefront's spell "4Ilt". */
  lemma ServerAndStorefrontPriceIdsDiffer(head1PriceId: string, h: int)
    requires 4 <= h <= MaxHeads
    ensures MiniSplitPriceByHeads(head1PriceId)[h] != MiniSplitPricing.MiniSplitHeadTiers[h - 4].stripePriceId
  {
    MiniSplitPricing.TierIdSpelling(h - 4);
    TableEntry(head1PriceId, h);
    SuffixSpelling(h);
    assert (PricePrefix + PriceIdSuffix(h))[13] == PriceIdSuffix(h)[7];
  }

  // ---------- Request ----------

  datatype CustomerInfo = CustomerInfo(name: Option<string>, email: Option<string>, phone: Option<string>)

  datatype ServiceAddress = ServiceAddress(
    line1: Option<string>, line2: Option<string>, city: Option<string>,
    state: Option<string>, postalCode: Option<string>, country: Option<string>)

  /** The JSON body. `miniSplitHeads` is a JavaScript number, so it may be
      fractional. */
  datatype RequestBody = RequestBody(
    planId: Option<string>,
    miniSplitHeads: Option<real>,
    customer: Option<CustomerInfo>,
    serviceAddress: Option<ServiceAddress>,
    successUrl: Option<string>,
    cancelUrl: Option<string>)

  /** `req.json()` either throws (with a message) or yields a value, which
      is `None` when it is JSON `null`. */
  datatype ParsedBody = Unparsable(message: string) | Parsed(json: Option<RequestBody>)

  datatype Request = Request(httpMethod: string, origin: Option<string>, body: ParsedBody)

  datatype Env = Env(stripeSecretKey: Option<string>, supabaseUrl: Option<string>, serviceRoleKey: Option<string>)

  /** The plan query by id: a row, or an error / no row (with the error's
      message when there is one). */
  datatype PlanLookup = PlanFound(plan: MaintenancePlan) | PlanMissing(details: Option<string>)

  // ---------- Response ----------

  datatype PlanSummary = PlanSummary(id: string, name: string, stripePriceId: Option<string>)

  datatype Payload =
    | PreflightOk
    | ErrorJson(error: string, details: Option<string>, plan: Option<PlanSummary>)
    | UrlJson(url: Option<string>)

  /** A response; `json` says whether `Content-Type: application/json` is added. */
  datatype Response = Response(status: int, cors: CorsHeaders, json: bool, payload: Payload)

  // ---------- Stripe session request ----------

  datatype LineItem = LineItem(price: string, quantity: int)

  datatype SessionRequest = SessionRequest(
    mode: string,
    successUrl: string,
    cancelUrl: string,
    customerEmail: Option<string>,
    lineItems: seq<LineItem>,
    metadata: map<string, string>)

  datatype Decision = Reply(response: Response) | Checkout(session: SessionRequest)

  datatype StripeResult = SessionCreated(url: Option<string>) | StripeFailed(message: string)

  /** How a price could not be resolved. */
  datatype PriceError = InvalidHeads | UnconfiguredHeads(heads: int) | MissingPlanPrice

  // ---------- Decision logic ----------

  /** A JavaScript string value is truthy: present and not empty. */
  predicate Truthy(v: Option<string>) {
    v.Some? && v.value != ""
  }

  predicate EnvConfigured(env: Env) {
    Truthy(env.stripeSecretKey) && Truthy(env.supabaseUrl) && Truthy(env.serviceRoleKey)
  }

  /** The head counts a mini split purchase accepts: the whole numbers 1 to 9. */
  const HeadCounts: set<real> := set n | 1 <= n <= MaxHeads :: n as real

  /** The guard on `miniSplitHeads`: present, non-zero, a whole number, 1 to 9;
      that is, one of the accepted head counts. */
  predicate ValidHeads(heads: Option<real>)
    ensures ValidHeads(heads) <==> heads.Some? && heads.value in HeadCounts
  {
    assert heads.Some? && heads.value == heads.value.Floor as real && 1 <= heads.value.Floor <= MaxHeads
           ==> heads.value in HeadCounts;
    heads.Some? && heads.value != 0.0 && heads.value == heads.value.Floor as real
    && 1.0 <= heads.value && heads.value <= MaxHeads as real
  }

  /** A plan is a mini split plan when its lower-cased name contains
      "mini split" (the same test as `isMiniSplitPlan`). */
  predicate IsMiniSplit(plan: MaintenancePlan) {
    MiniSplitPricing.IsMiniSplitPlan(Some(plan.name))
  }

  /** The Stripe price for a plan. A mini split plan takes the table entry
      for a valid head count; any other plan takes its own `stripe_price_id`
      and ignores the head count. Either way the price must start with
      "price_". */
  function ResolvePrice(plan: MaintenancePlan, heads: Option<real>, head1PriceId: string): (r: Result<string, PriceError>)
    ensures r.Success? ==> StartsWith(r.value, "price_")
    ensures IsMiniSplit(plan) ==>
      (r == Failure(InvalidHeads) <==> !ValidHeads(heads))
      && (r.Success? ==> ValidHeads(heads) && r.value == MiniSplitPriceByHeads(head1PriceId)[heads.value.Floor])
      && (ValidHeads(heads) && heads.value.Floor != 1 ==> r.Success?)
    ensures !IsMiniSplit(plan) ==>
      (r.Success? <==> plan.stripePriceId.Some? && StartsWith(plan.stripePriceId.value, "price_"))
      && (r.Success? ==> plan.stripePriceId == Some(r.value))
  {
    if IsMiniSplit(plan) then
      if !ValidHeads(heads) then Failure(InvalidHeads)
      else
        var h := heads.value.Floor;
        var mapped := MiniSplitPriceByHeads(head1PriceId)[h];
        assert h != 1 ==> StartsWith(mapped, "price_") by {
          if h != 1 { ConfiguredEntriesArePriceIds(head1PriceId, h); }
        }
        if mapped == "" || !StartsWith(mapped, "price_") then Failure(UnconfiguredHeads(h))
        else Success(mapped)
    else
      var stripePriceId := plan.stripePriceId;
      if stripePriceId.None? || stripePriceId.value == "" || !StartsWith(stripePriceId.value, "price_")
      then Failure(MissingPlanPrice)
      else Success(stripePriceId.value)
  }

  function ErrorReply(cors: CorsHeaders, status: int, message: string): Response {
    Response(status, cors, true, ErrorJson(message, None, None))
  }

  /** What the `catch` block answers for a thrown error. */
  function InternalError(cors: CorsHeaders, details: string): Response {
    Response(500, cors, true, ErrorJson("Failed to create Stripe Checkout session", Some(details), None))
  }

  /** The 400 reply for a price that cannot be resolved; only a missing plan
      price echoes the plan's id, name and `stripe_price_id`. */
  function PriceErrorReply(cors: CorsHeaders, plan: MaintenancePlan, e: PriceError): (r: Response)
    ensures r.status == 400 && r.cors == cors && r.json && r.payload.ErrorJson? && r.payload.details.None?
    ensures e.InvalidHeads? ==> r.payload.error == "miniSplitHeads is required for Mini Split plans (1–9)."
    ensures e.UnconfiguredHeads? && e.heads >= 0 ==>
              r.payload.error == "No Stripe price configured for miniSplitHeads=" + NatToDecimal(e.heads) + "."
    ensures r.payload.plan.Some? <==> e.MissingPlanPrice?
    ensures e.MissingPlanPrice? ==> r.payload.plan == Some(PlanSummary(plan.id, plan.name, plan.stripePriceId))
  {
    match e
    case InvalidHeads =>
      ErrorReply(cors, 400, "miniSplitHeads is required for Mini Split plans (1–9).")
    case UnconfiguredHeads(h) =>
      ErrorReply(cors, 400, "No Stripe price configured for miniSplitHeads="
                            + (if h >= 0 then NatToDecimal(h) else "-" + NatToDecimal(-h)) + ".")
    case MissingPlanPrice =>
      Response(400, cors, true, ErrorJson(
        "This plan is missing stripe_price_id in Supabase. Set it in maintenance_plans.stripe_price_id.",
        None, Some(PlanSummary(plan.id, plan.name, plan.stripePriceId))))
  }

  const DefaultBase := "https://cramerservices.github.io/Plans/#"
  const MetadataKeys: set<string> := {
    "plan_id", "plan_name", "mini_split_heads", "customer_name", "customer_phone",
    "service_line1", "service_city", "service_state", "service_zip"}

  /** The customer's e-mail for Stripe's form: `body.customer?.email || undefined`. */
  function CustomerEmail(body: RequestBody): (e: Option<string>)
    ensures e.Some? <==> body.customer.Some? && Truthy(body.customer.value.email)
    ensures e.Some? ==> e == body.customer.value.email
  {
    if body.customer.Some? && Truthy(body.customer.value.email) then body.customer.value.email else None
  }

  function CustomerField(customer: Option<CustomerInfo>, pick: CustomerInfo -> Option<string>): string {
    if customer.Some? then pick(customer.value).GetOr("") else ""
  }

  function AddressField(address: Option<ServiceAddress>, pick: ServiceAddress -> Option<string>): string {
    if address.Some? then pick(address.value).GetOr("") else ""
  }

  /** The session metadata. `mini_split_heads` is the head count written in
      decimal for a mini split plan and "" otherwise; absent customer and
      address fields become "". */
  function SessionMetadata(body: RequestBody, plan: MaintenancePlan): (m: map<string, string>)
    requires IsMiniSplit(plan) ==> ValidHeads(body.miniSplitHeads)
    ensures m.Keys == MetadataKeys
    ensures m["plan_id"] == plan.id && m["plan_name"] == plan.name
    ensures m["mini_split_heads"] == "" <==> !IsMiniSplit(plan)
    ensures IsMiniSplit(plan) ==> DecimalValue(m["mini_split_heads"]) as real == body.miniSplitHeads.value
    ensures IsMiniSplit(plan) ==> m["mini_split_heads"] == NatToDecimal(body.miniSplitHeads.value.Floor)
    ensures m["customer_name"] == (if body.customer.Some? then body.customer.value.name.GetOr("") else "")
    ensures m["customer_phone"] == (if body.customer.Some? then body.customer.value.phone.GetOr("") else "")
    ensures m["service_line1"] == (if body.serviceAddress.Some? then body.serviceAddress.value.line1.GetOr("") else "")
    ensures m["service_city"] == (if body.serviceAddress.Some? then body.serviceAddress.value.city.GetOr("") else "")
    ensures m["service_state"] == (if body.serviceAddress.Some? then body.serviceAddress.value.state.GetOr("") else "")
    ensures m["service_zip"] == (if body.serviceAddress.Some? then body.serviceAddress.value.postalCode.GetOr("") else "")
  {
    var heads := if IsMiniSplit(plan) then
      DecimalRoundTrip(body.miniSplitHeads.value.Floor);
      NatToDecimal(body.miniSplitHeads.value.Floor)
    else "";
    map[
      "plan_id" := plan.id,
      "plan_name" := plan.name,
      "mini_split_heads" := heads,
      "customer_name" := CustomerField(body.customer, (c: CustomerInfo) => c.name),
      "customer_phone" := CustomerField(body.customer, (c: CustomerInfo) => c.phone),
      "service_line1" := AddressField(body.serviceAddress, (a: ServiceAddress) => a.line1),
      "service_city" := AddressField(body.serviceAddress, (a: ServiceAddress) => a.city),
      "service_state" := AddressField(body.serviceAddress, (a: ServiceAddress) => a.state),
      "service_zip" := AddressField(body.serviceAddress, (a: ServiceAddress) => a.postalCode)
    ]
  }

  /** The session requested once every check has passed. */
  function SessionFor(body: RequestBody, plan: MaintenancePlan, price: string): (s: SessionRequest)
    requires IsMiniSplit(plan) ==> ValidHeads(body.miniSplitHeads)
    ensures s.mode == "subscription" && s.lineItems == [LineItem(price, 1)]
    ensures body.successUrl.None? ==> s.successUrl == DefaultBase + "/success?session_id={CHECKOUT_SESSION_ID}"
    ensures body.successUrl.Some? ==> s.successUrl == body.successUrl.value
    ensures body.cancelUrl.None? ==> s.cancelUrl == DefaultBase + "/checkout/" + plan.id
    ensures body.cancelUrl.Some? ==> s.cancelUrl == body.cancelUrl.value
    ensures s.customerEmail == CustomerEmail(body) && s.metadata == SessionMetadata(body, plan)
  {
    SessionRequest(
      "subscription",
      body.successUrl.GetOr(DefaultBase + "/success?session_id={CHECKOUT_SESSION_ID}"),
      body.cancelUrl.GetOr(DefaultBase + "/checkout/" + plan.id),
      CustomerEmail(body),
      [LineItem(price, 1)],
      SessionMetadata(body, plan))
  }

  /** The body carries a non-empty `planId`. */
  predicate HasPlanId(json: Option<RequestBody>) {
    json.Some? && Truthy(json.value.planId)
  }

  /** Every check passes for this request, so a session is requested. */
  predicate ChecksPass(req: Request, env: Env, lookup: string -> PlanLookup, head1PriceId: string) {
    && req.httpMethod == "POST"
    && EnvConfigured(env)
    && req.body.Parsed? && HasPlanId(req.body.json)
    && lookup(req.body.json.value.planId.value).PlanFound?
    && lookup(req.body.json.value.planId.value).plan.isActive
    && ResolvePrice(lookup(req.body.json.value.planId.value).plan,
                    req.body.json.value.miniSplitHeads, head1PriceId).Success?
  }

  /** The handler up to the Stripe call: OPTIONS first, then the method,
      the secrets, the body, `planId`, the plan, its active flag and the
      price, each failing check returning at once. */
  function Decide(req: Request, env: Env, lookup: string -> PlanLookup, head1PriceId: string): (d: Decision)
    ensures req.httpMethod == "OPTIONS" ==>
      d == Reply(Response(200, BuildCorsHeaders(req.origin), false, PreflightOk))
    ensures req.httpMethod != "OPTIONS" && req.httpMethod != "POST" ==>
      d == Reply(ErrorReply(BuildCorsHeaders(req.origin), 405, "Method not allowed"))
    ensures d.Checkout? <==> ChecksPass(req, env, lookup, head1PriceId)
    ensures d.Checkout? ==>
              var body := req.body.json.value;
              var plan := lookup(body.planId.value).plan;
              d.session == SessionFor(body, plan, ResolvePrice(plan, body.miniSplitHeads, head1PriceId).value)
    ensures d.Reply? ==> d.response.cors == BuildCorsHeaders(req.origin)
    ensures d.Reply? ==> d.response.status in {200, 400, 404, 405, 500} && !d.response.payload.UrlJson?
  {
    var cors := BuildCorsHeaders(req.origin);
    if req.httpMethod == "OPTIONS" then Reply(Response(200, cors, false, PreflightOk))
    else if req.httpMethod != "POST" then Reply(ErrorReply(cors, 405, "Method not allowed"))
    else if !Truthy(env.stripeSecretKey) then Reply(InternalError(cors, "Missing STRIPE_SECRET_KEY secret."))
    else if !Truthy(env.supabaseUrl) then Reply(InternalError(cors, "Missing SUPABASE_URL secret."))
    else if !Truthy(env.serviceRoleKey) then Reply(InternalError(cors, "Missing SUPABASE_SERVICE_ROLE_KEY secret."))
    else match req.body
      case Unparsable(message) => Reply(InternalError(cors, message))
      case Parsed(json) =>
        if !HasPlanId(json) then Reply(ErrorReply(cors, 400, "planId is required"))
        else
          var body := json.value;
          match lookup(body.planId.value)
          case PlanMissing(details) =>
            Reply(Response(404, cors, true, ErrorJson("Plan not found", details, None)))
          case PlanFound(plan) =>
            if !plan.isActive then Reply(ErrorReply(cors, 400, "Plan is not active."))
            else match ResolvePrice(plan, body.miniSplitHeads, head1PriceId)
              case Failure(e) => Reply(PriceErrorReply(cors, plan, e))
              case Success(price) => Checkout(SessionFor(body, plan, price))
  }

  /** The whole handler: the decision, then the Stripe call, whose failure
      is caught and answered with 500. */
  function Serve(req: Request, env: Env, lookup: string -> PlanLookup, head1PriceId: string,
                 stripe: SessionRequest -> StripeResult): (resp: Response)
    ensures resp.cors == BuildCorsHeaders(req.origin)
    ensures resp.status in {200, 400, 404, 405, 500}
    ensures resp.payload.UrlJson? <==>
              Decide(req, env, lookup, head1PriceId).Checkout?
              && stripe(Decide(req, env, lookup, head1PriceId).session).SessionCreated?
    ensures Decide(req, env, lookup, head1PriceId).Reply? ==> resp == Decide(req, env, lookup, head1PriceId).response
    ensures Decide(req, env, lookup, head1PriceId).Checkout? ==>
              var result := stripe(Decide(req, env, lookup, head1PriceId).session);
              && (result.SessionCreated? ==> resp == Response(200, BuildCorsHeaders(req.origin), true, UrlJson(result.url)))
              && (result.StripeFailed? ==> resp == InternalError(BuildCorsHeaders(req.origin), result.message))
  {
    match Decide(req, env, lookup, head1PriceId)
    case Reply(response) => response
    case Checkout(session) =>
      var cors := BuildCorsHeaders(req.origin);
      match stripe(session)
      case SessionCreated(url) => Response(200, cors, true, UrlJson(url))
      case StripeFailed(message) => InternalError(cors, message)
  }

  // ---------- Properties of the decision ----------

  /** Without a `planId` the plan table is never consulted: any two lookups
      give the same 400 answer. */
  lemma MissingPlanIdSkipsLookup(req: Request, env: Env, lookup1: string -> PlanLookup,
                                 lookup2: string -> PlanLookup, head1PriceId: string)
    requires req.httpMethod == "POST" && EnvConfigured(env)
    requires req.body.Parsed? && !HasPlanId(req.body.json)
    ensures Decide(req, env, lookup1, head1PriceId) == Decide(req, env, lookup2, head1PriceId)
    ensures Decide(req, env, lookup1, head1PriceId)
              == Reply(ErrorReply(BuildCorsHeaders(req.origin), 400, "planId is required"))
  {
  }

  /** A plan that cannot be loaded gives 404 with the lookup's details; an
      inactive plan gives 400 "Plan is not active.". */
  lemma PlanChecks(req: Request, env: Env, lookup: string -> PlanLookup, head1PriceId: string)
    requires req.httpMethod == "POST" && EnvConfigured(env)
    requires req.body.Parsed? && HasPlanId(req.body.json)
    ensures lookup(req.body.json.value.planId.value).PlanMissing? ==>
      Decide(req, env, lookup, head1PriceId) == Reply(Response(404, BuildCorsHeaders(req.origin), true,
        ErrorJson("Plan not found", lookup(req.body.json.value.planId.value).details, None)))
    ensures lookup(req.body.json.value.planId.value).PlanFound? && !lookup(req.body.json.value.planId.value).plan.isActive ==>
      Decide(req, env, lookup, head1PriceId) == Reply(ErrorReply(BuildCorsHeaders(req.origin), 400, "Plan is not active."))
  {
  }

  /** The request with its head count replaced. */
  function WithHeads(req: Request, heads: Option<real>): Request
    requires req.body.Parsed? && req.body.json.Some?
  {
    req.(body := Parsed(Some(req.body.json.value.(miniSplitHeads := heads))))
  }

  /** For a plan that is not a mini split plan, the head count in the body
      changes nothing: neither the price, nor the metadata, nor any error. */
  lemma FixedPricePlanIgnoresHeads(req: Request, env: Env, lookup: string -> PlanLookup,
                                   head1PriceId: string, heads: Option<real>)
    requires req.body.Parsed? && HasPlanId(req.body.json)
    requires lookup(req.body.json.value.planId.value).PlanFound?
    requires !IsMiniSplit(lookup(req.body.json.value.planId.value).plan)
    ensures Decide(WithHeads(req, heads), env, lookup, head1PriceId) == Decide(req, env, lookup, head1PriceId)
  {
    var body := req.body.json.value;
    var plan := lookup(body.planId.value).plan;
    var body' := body.(miniSplitHeads := heads);
    assert ResolvePrice(plan, heads, head1PriceId) == ResolvePrice(plan, body.miniSplitHeads, head1PriceId);
    if ResolvePrice(plan, heads, head1PriceId).Success? {
      var price := ResolvePrice(plan, heads, head1PriceId).value;
      assert SessionMetadata(body', plan) == SessionMetadata(body, plan);
      assert SessionFor(body', plan, price) == SessionFor(body, plan, price);
    }
  }

  /** When a session is requested it is a subscription with exactly one line
      item, quantity 1, at the resolved price; its metadata names the plan
      found, and records a head count exactly for a mini split plan. */
  lemma SessionCarriesResolvedPrice(req: Request, env: Env, lookup: string -> PlanLookup, head1PriceId: string)
    requires ChecksPass(req, env, lookup, head1PriceId)
    ensures var body := req.body.json.value;
            var plan := lookup(body.planId.value).plan;
            var s := Decide(req, env, lookup, head1PriceId).session;
            && s.mode == "subscription"
            && s.lineItems == [LineItem(ResolvePrice(plan, body.miniSplitHeads, head1PriceId).value, 1)]
            && StartsWith(s.lineItems[0].price, "price_")
            && s.metadata.Keys == MetadataKeys
            && s.metadata["plan_id"] == plan.id
            && (s.metadata["mini_split_heads"] != "" <==> IsMiniSplit(plan))
  {
  }

  /** For an active mini split plan the head count decides the outcome:
      an invalid count is refused with 400; a valid count whose table entry
      is a Stripe price id is bought at that price and recorded in decimal;
      a valid count whose entry is not (only possible for one head) is
      refused with 400. */
  lemma MiniSplitHeadsDecide(req: Request, env: Env, lookup: string -> PlanLookup, head1PriceId: string)
    requires req.httpMethod == "POST" && EnvConfigured(env)
    requires req.body.Parsed? && HasPlanId(req.body.json)
    requires lookup(req.body.json.value.planId.value).PlanFound?
    requires lookup(req.body.json.value.planId.value).plan.isActive
    requires IsMiniSplit(lookup(req.body.json.value.planId.value).plan)
    ensures var heads := req.body.json.value.miniSplitHeads;
            var d := Decide(req, env, lookup, head1PriceId);
            && (!ValidHeads(heads) ==>
                  d == Reply(ErrorReply(BuildCorsHeaders(req.origin), 400,
                                        "miniSplitHeads is required for Mini Split plans (1–9).")))
            && (ValidHeads(heads) && StartsWith(MiniSplitPriceByHeads(head1PriceId)[heads.value.Floor], "price_") ==>
                  d.Checkout?
                  && d.session.lineItems == [LineItem(MiniSplitPriceByHeads(head1PriceId)[heads.value.Floor], 1)]
                  && d.session.metadata["mini_split_heads"] == NatToDecimal(heads.value.Floor))
            && (ValidHeads(heads) && !StartsWith(MiniSplitPriceByHeads(head1PriceId)[heads.value.Floor], "price_") ==>
                  d == Reply(ErrorReply(BuildCorsHeaders(req.origin), 400,
                                        "No Stripe price configured for miniSplitHeads="
                                        + NatToDecimal(heads.value.Floor) + ".")))
  {
  }

  /** An active plan that is not a mini split plan, requested by a POST
      whose secrets and body are in order. */
  predicate FixedPricePlanRequested(req: Request, env: Env, lookup: string -> PlanLookup) {
    && req.httpMethod == "POST" && EnvConfigured(env)
    && req.body.Parsed? && HasPlanId(req.body.json)
    && lookup(req.body.json.value.planId.value).PlanFound?
    && lookup(req.body.json.value.planId.value).plan.isActive
    && !IsMiniSplit(lookup(req.body.json.value.planId.value).plan)
  }

  /** The plan's `stripe_price_id` is a Stripe price id. */
  predicate HasPriceId(plan: MaintenancePlan) {
    plan.stripePriceId.Some? && StartsWith(plan.stripePriceId.value, "price_")
  }

  /** A fixed-price plan with a Stripe price id is bought at that price. */
  lemma FixedPricePlanBought(req: Request, env: Env, lookup: string -> PlanLookup, head1PriceId: string)
    requires FixedPricePlanRequested(req, env, lookup)
    requires HasPriceId(lookup(req.body.json.value.planId.value).plan)
    ensures var plan := lookup(req.body.json.value.planId.value).plan;
            var d := Decide(req, env, lookup, head1PriceId);
            d.Checkout? && d.session.lineItems == [LineItem(plan.stripePriceId.value, 1)]
  {
  }

  /** A fixed-price plan without a Stripe price id is refused with 400 and
      the plan's id, name and stored price id. */
  lemma FixedPricePlanRefused(req: Request, env: Env, lookup: string -> PlanLookup, head1PriceId: string)
    requires FixedPricePlanRequested(req, env, lookup)
    requires !HasPriceId(lookup(req.body.json.value.planId.value).plan)
    ensures var plan := lookup(req.body.json.value.planId.value).plan;
            Decide(req, env, lookup, head1PriceId)
              == Reply(Response(400, BuildCorsHeaders(req.origin), true, ErrorJson(
                   "This plan is missing stripe_price_id in Supabase. Set it in maintenance_plans.stripe_price_id.",
                   None, Some(PlanSummary(plan.id, plan.name, plan.stripePriceId)))))
  {
  }

  /** For an active plan that is not a mini split plan, the plan's own
      `stripe_price_id` decides: one that starts with "price_" is bought at
      that price; any other (missing, empty, malformed) is refused with 400
      and the plan's id, name and stored price id. */
  lemma FixedPricePlanDecide(req: Request, env: Env, lookup: string -> PlanLookup, head1PriceId: string)
    requires FixedPricePlanRequested(req, env, lookup)
    ensures var plan := lookup(req.body.json.value.planId.value).plan;
            var d := Decide(req, env, lookup, head1PriceId);
            && (HasPriceId(plan) ==> d.Checkout? && d.session.lineItems == [LineItem(plan.stripePriceId.value, 1)])
            && (!HasPriceId(plan) ==>
                  d == Reply(Response(400, BuildCorsHeaders(req.origin), true, ErrorJson(
                         "This plan is missing stripe_price_id in Supabase. Set it in maintenance_plans.stripe_price_id.",
                         None, Some(PlanSummary(plan.id, plan.name, plan.stripePriceId))))))
  {
    if HasPriceId(lookup(req.body.json.value.planId.value).plan) {
      FixedPricePlanBought(req, env, lookup, head1PriceId);
    } else {
      FixedPricePlanRefused(req, env, lookup, head1PriceId);
    }
  }

  /** The `catch` reply with its details: status 500 and the fixed error text. */
  predicate IsServerError(d: Decision, cors: CorsHeaders, details: string) {
    d == Reply(Response(500, cors, true, ErrorJson("Failed to create Stripe Checkout session", Some(details), None)))
  }

  /** A POST fails with 500 when a secret is missing, naming the first
      missing one, and when the body is not JSON, with the parser's message. */
  lemma ServerErrors(req: Request, env: Env, lookup: string -> PlanLookup, head1PriceId: string)
    requires req.httpMethod == "POST"
    ensures var d := Decide(req, env, lookup, head1PriceId);
            var cors := BuildCorsHeaders(req.origin);
            && (!Truthy(env.stripeSecretKey) ==>
                  IsServerError(d, cors, "Missing STRIPE_SECRET_KEY secret."))
            && (Truthy(env.stripeSecretKey) && !Truthy(env.supabaseUrl) ==>
                  IsServerError(d, cors, "Missing SUPABASE_URL secret."))
            && (Truthy(env.stripeSecretKey) && Truthy(env.supabaseUrl) && !Truthy(env.serviceRoleKey) ==>
                  IsServerError(d, cors, "Missing SUPABASE_SERVICE_ROLE_KEY secret."))
            && (EnvConfigured(env) && req.body.Unparsable? ==>
                  IsServerError(d, cors, req.body.message))
  {
  }

  // ---------- Scenarios ----------

  function ScenarioPlan(name: string, stripePriceId: Option<string>): MaintenancePlan {
    MaintenancePlan("plan-1", name, None, 0.0, None, None, false, None, None, stripePriceId, true)
  }

  function ScenarioRequest(heads: Option<real>): Request {
    Request("POST", Some(PagesOrigin),
            Parsed(Some(RequestBody(Some("plan-1"), heads, None, None, None, None))))
  }

  const ScenarioEnv := Env(Some("sk"), Some("url"), Some("key"))

  /** A fixed-price plan "Gold" priced `price_A` is bought at `price_A` with
      empty head-count metadata. */
  lemma GoldScenario(lookup: string -> PlanLookup, head1PriceId: string)
    requires lookup("plan-1") == PlanFound(ScenarioPlan("Gold", Some("price_A")))
    ensures var d := Decide(ScenarioRequest(None), ScenarioEnv, lookup, head1PriceId);
            d.Checkout? && d.session.lineItems == [LineItem("price_A", 1)]
            && d.session.metadata["mini_split_heads"] == ""
  {
    var plan := ScenarioPlan("Gold", Some("price_A"));
    MiniSplitPricing.MiniSplitNameRecognised();
    assert !IsMiniSplit(plan);
    assert StartsWith("price_A", "price_");
    assert ResolvePrice(plan, None, head1PriceId) == Success("price_A");
    assert ChecksPass(ScenarioRequest(None), ScenarioEnv, lookup, head1PriceId);
    SessionCarriesResolvedPrice(ScenarioRequest(None), ScenarioEnv, lookup, head1PriceId);
  }

  /** A "MINI SPLIT" plan with five heads is bought at the five-head price
      and records "5". */
  lemma MiniSplitFiveHeads(req: Request, lookup: string -> PlanLookup, head1PriceId: string)
    requires req.httpMethod == "POST" && req.body.Parsed? && HasPlanId(req.body.json)
    requires req.body.json.value.miniSplitHeads == Some(5.0)
    requires lookup(req.body.json.value.planId.value) == PlanFound(ScenarioPlan("MINI SPLIT", None))
    ensures var d := Decide(req, ScenarioEnv, lookup, head1PriceId);
            d.Checkout? && d.session.lineItems == [LineItem(PricePrefix + "1SxZHq4lItCwxOnNY8mtIhbM", 1)]
            && d.session.metadata["mini_split_heads"] == "5"
  {
    MiniSplitPricing.MiniSplitNameRecognised();
    assert IsMiniSplit(ScenarioPlan("MINI SPLIT", None));
    assert EnvConfigured(ScenarioEnv);
    var heads := req.body.json.value.miniSplitHeads;
    assert heads.value.Floor == 5 && ValidHeads(heads);
    ConfiguredEntriesArePriceIds(head1PriceId, 5);
    TableEntry(head1PriceId, 5);
    assert PriceIdSuffix(5) == "1SxZHq4lItCwxOnNY8mtIhbM";
    assert NatToDecimal(5) == "5";
    MiniSplitHeadsDecide(req, ScenarioEnv, lookup, head1PriceId);
  }

  /** The same plan with twelve heads is refused with 400. */
  lemma MiniSplitTwelveHeads(req: Request, lookup: string -> PlanLookup, head1PriceId: string)
    requires req.httpMethod == "POST" && req.body.Parsed? && HasPlanId(req.body.json)
    requires req.body.json.value.miniSplitHeads == Some(12.0)
    requires lookup(req.body.json.value.planId.value) == PlanFound(ScenarioPlan("MINI SPLIT", None))
    ensures Decide(req, ScenarioEnv, lookup, head1PriceId).Reply?
    ensures Decide(req, ScenarioEnv, lookup, head1PriceId).response.status == 400
  {
    MiniSplitPricing.MiniSplitNameRecognised();
    assert IsMiniSplit(ScenarioPlan("MINI SPLIT", None));
    assert EnvConfigured(ScenarioEnv);
    assert !ValidHeads(req.body.json.value.miniSplitHeads);
    MiniSplitHeadsDecide(req, ScenarioEnv, lookup, head1PriceId);
  }
}

# Cramer Services maintenance plans, modelled in Dafny

This project models the logic of the Cramer Services HVAC maintenance-plan
storefront. That logic sits in its checkout path and in a few pages:

- the mini-split head-count tiers and the plan-type test
  (`src/lib/miniSplitPricing.ts`);
- the `create-checkout-session` edge function, which goes from a request to
  either an early error response or a Stripe subscription checkout session;
- the direct-insert checkout page (`handleChange`, `handleSubmit`), which
  upserts the customer row and then inserts an active one-year membership;
- the customer dashboard's choice of the active membership and its label;
- the admin customer search and active-membership badge;
- the plan cards' display defaults;
- the admin tab highlighting.

Modules:

| file | module | models |
|---|---|---|
| `wrappers.dfy` | `Wrappers` | `Option` and `Result` |
| `strings.dfy` | `Strings` | JavaScript's `toLowerCase`, `includes`, `startsWith` and `String(n)` for whole numbers |
| `types.dfy` | `Types` | the records of `src/types/index.ts` |
| `mini_split_pricing.dfy` | `MiniSplitPricing` | `MINI_SPLIT_HEAD_TIERS`, `getMiniSplitTier`, `isMiniSplitPlan` |
| `checkout_session.dfy` | `CheckoutSession` | `buildCorsHeaders`, `MINI_SPLIT_PRICE_BY_HEADS` and the handler |
| `checkout_page.dfy` | `CheckoutPage` | the checkout form as a class, and the database as a class (`Datastore`) holding a `customers` map and a `customer_memberships` sequence |
| `customer_dashboard.dfy` | `CustomerDashboard` | loading, the active-membership choice, the labels |
| `customers_panel.dfy` | `CustomersPanel` | the search filter and the active count |
| `plans_page.dfy` | `PlansPage` | the per-plan defaults |
| `admin_dashboard.dfy` | `AdminDashboard` | the tab `isActive` rule |

The handler is one total function, `CheckoutSession.Decide`. It takes the
request, the environment secrets, the plan lookup and the configured one-head
price id, and returns a `Reply` or a `Checkout`. `CheckoutSession.Serve` adds
the Stripe call, which is passed in as a function.

The checkout page is imperative, as in the source. `CheckoutForm.HandleSubmit`
is a method that changes the `Datastore` object. Its `ensures` gives the
complete new state of both tables for every path through the guards and the
two writes.

## Model

| member | source | states |
|---|---|---|
| MiniSplitPricing.FindTier | src/lib/miniSplitPricing.ts:16-17 | `find` gives nothing exactly when no tier has the head count; otherwise it gives the first tier with that count |
| MiniSplitPricing.GetMiniSplitTier | src/lib/miniSplitPricing.ts:16-17 | a tier is returned only when it is in the table with exactly that head count; nothing iff the table has no such tier |
| MiniSplitPricing.TierIdSpelling | src/lib/miniSplitPricing.ts:8-13 | every tier's price id has the capital `I` of "4Ilt" as its fourteenth character |
| MiniSplitPricing.TierTableShape | src/lib/miniSplitPricing.ts:7-14 | six tiers, for heads 4..9 in order; heads and amounts strictly increase (340 < 400 < 450 < 475 < 500 < 525); every id starts with `price_` |
| MiniSplitPricing.GetMiniSplitTierExact | src/lib/miniSplitPricing.ts:16-17 | a tier is found iff the head count is a whole number from 4 to 9, and it is the tier for that count; other numbers (0–3, 10, fractions) find nothing, with no nearest-tier fallback |
| MiniSplitPricing.MissingNameIsNotMiniSplit | src/lib/miniSplitPricing.ts:19-20 | a null or undefined name reads as "" and is not a mini split plan |
| MiniSplitPricing.IsMiniSplitPlan | src/lib/miniSplitPricing.ts:19-20 | a name that matches is present and at least as long as "mini split" |
| MiniSplitPricing.IsMiniSplitPlanIgnoresCase | src/lib/miniSplitPricing.ts:20 | names that differ only in letter case get the same answer |
| MiniSplitPricing.MiniSplitNameRecognised | src/lib/miniSplitPricing.ts:19-20 | "MINI SPLIT" is a mini split plan; "Gold" is not |
| CheckoutSession.BuildCorsHeaders | supabase/functions/create-checkout-session/index.ts:7-24 | the allowed origin is always on the allow-list and is the request's origin when that is listed; headers, methods `POST, OPTIONS` and `Vary: Origin` are fixed |
| CheckoutSession.EchoesOriginIffAllowed | supabase/functions/create-checkout-session/index.ts:15-16 | the origin is echoed iff it is allow-listed; a missing or unlisted origin gets `https://cramerservices.github.io` |
| CheckoutSession.MiniSplitPriceByHeads | supabase/functions/create-checkout-session/index.ts:29-39 | the table has exactly the keys 1..9; the one-head entry is the configured id |
| CheckoutSession.ConfiguredEntriesArePriceIds | supabase/functions/create-checkout-session/index.ts:31-38 | every entry for 2..9 heads starts with `price_` |
| CheckoutSession.TableEntry | supabase/functions/create-checkout-session/index.ts:31-38 | the entry for 2..9 heads is `price_` followed by that entry's suffix |
| CheckoutSession.SuffixSpelling | supabase/functions/create-checkout-session/index.ts:31-38 | the suffix of every entry for 2..9 heads has the lower-case `l` of "4lIt" as its eighth character, which with TableEntry is the entry's fourteenth |
| CheckoutSession.ServerAndStorefrontPriceIdsDiffer | supabase/functions/create-checkout-session/index.ts:33-38 | for each of 4..9 heads, the server's id differs from the storefront tier's id |
| CheckoutSession.ResolvePrice | supabase/functions/create-checkout-session/index.ts:136-183 | a resolved price always starts with `price_`. Mini split plan: refused for invalid heads iff the count is not a whole number in 1..9; otherwise the table entry, which is always found for 2..9. Any other plan: resolved iff `stripe_price_id` is present and starts with `price_`, and then it is that id |
| CheckoutSession.ValidHeads | supabase/functions/create-checkout-session/index.ts:143 | the head-count guard passes iff the count is present and one of the whole numbers 1..9 |
| CheckoutSession.PriceErrorReply | supabase/functions/create-checkout-session/index.ts:143-182 | status 400 with the CORS headers and no details; the exact message for invalid heads and for an unconfigured count; the plan summary (id, name, stored price id) exactly for a missing plan price |
| CheckoutSession.CustomerEmail | supabase/functions/create-checkout-session/index.ts:192 | the e-mail is passed iff the customer's e-mail is present and non-empty |
| CheckoutSession.SessionMetadata | supabase/functions/create-checkout-session/index.ts:211-221 | exactly the nine keys; `plan_id` and `plan_name` come from the plan; `mini_split_heads` is empty iff the plan is not a mini split plan, and otherwise is the head count in decimal, which reads back as that count; each customer and address value is the body's field, or "" when the object or the field is absent |
| CheckoutSession.SessionFor | supabase/functions/create-checkout-session/index.ts:187-221 | subscription mode with one line item of quantity 1 at the given price; success and cancel URLs are the body's, or the defaults under `https://cramerservices.github.io/Plans/#`; the customer e-mail and the metadata are those defined above |
| CheckoutSession.Decide | supabase/functions/create-checkout-session/index.ts:66-183 | OPTIONS gives 200 first; other non-POST methods give 405; a session is requested iff every check passes, and it is `SessionFor` of the body, the plan and the resolved price; every early reply has the CORS headers and a status in {200, 400, 404, 405, 500} |
| CheckoutSession.Serve | supabase/functions/create-checkout-session/index.ts:66-239 | every response has the CORS headers and one of the five statuses; an early reply is passed through unchanged; after the checks, the session sent to Stripe is `SessionFor` of the body, the plan and the resolved price (so its URL defaults, customer e-mail and metadata are those stated there); a created session gives 200 with Stripe's URL, and a Stripe failure gives 500 with its message; a URL is returned iff every check passed and Stripe created the session |
| CheckoutSession.MissingPlanIdSkipsLookup | supabase/functions/create-checkout-session/index.ts:104-109 | without `planId` the answer is 400 "planId is required", whatever the plan table holds |
| CheckoutSession.PlanChecks | supabase/functions/create-checkout-session/index.ts:118-133 | a plan that cannot be loaded gives 404 with the lookup's details; an inactive plan gives 400 "Plan is not active." |
| CheckoutSession.FixedPricePlanIgnoresHeads | supabase/functions/create-checkout-session/index.ts:169-183 | for a plan that is not a mini split plan, changing `miniSplitHeads` changes no outcome |
| CheckoutSession.SessionCarriesResolvedPrice | supabase/functions/create-checkout-session/index.ts:195-221 | a requested session is a subscription with one line item at the resolved `price_` id; its metadata names the plan and has `mini_split_heads` non-empty iff the plan is a mini split plan |
| CheckoutSession.MiniSplitHeadsDecide | supabase/functions/create-checkout-session/index.ts:141-168 | for an active mini split plan: invalid heads give the 400 "(1–9)" error; a valid count with a `price_` entry buys that entry and records the count in decimal; otherwise 400 "No Stripe price configured for miniSplitHeads=<n>." |
| CheckoutSession.FixedPricePlanBought | supabase/functions/create-checkout-session/index.ts:169-183 | an active plan that is not a mini split plan, with a stored id starting with `price_`, is bought at that id with quantity 1 |
| CheckoutSession.FixedPricePlanRefused | supabase/functions/create-checkout-session/index.ts:169-182 | an active plan that is not a mini split plan, without a stored id starting with `price_`, gets the exact 400 "missing stripe_price_id" reply with the plan's id, name and stored id |
| CheckoutSession.FixedPricePlanDecide | supabase/functions/create-checkout-session/index.ts:169-183 | for an active plan that is not a mini split plan: a stored id starting with `price_` is bought at that id; any other gives the 400 "missing stripe_price_id" reply with the plan summary |
| CheckoutSession.ServerErrors | supabase/functions/create-checkout-session/index.ts:83-102 | a POST gets 500 "Failed to create Stripe Checkout session" naming the first missing secret, or carrying the parser's message when the body is not JSON |
| CheckoutSession.GoldScenario | supabase/functions/create-checkout-session/index.ts:169-221 | a fixed-price plan priced `price_A` is bought at `price_A` with empty `mini_split_heads` |
| CheckoutSession.MiniSplitFiveHeads | supabase/functions/create-checkout-session/index.ts:141-168 | "MINI SPLIT" with 5 heads is bought at the five-head id `price_1SxZHq4lItCwxOnNY8mtIhbM` and records "5" |
| CheckoutSession.MiniSplitTwelveHeads | supabase/functions/create-checkout-session/index.ts:141-153 | "MINI SPLIT" with 12 heads gets 400 |
| CheckoutPage.WithField | src/pages/CheckoutPage.tsx:68-73 | the named field takes the new value and every other field keeps its old one |
| CheckoutPage.WithFieldLaws | src/pages/CheckoutPage.tsx:68-73 | writing a field's own value changes nothing; of two writes to one field, the second wins |
| CheckoutPage.CustomerDataFor | src/pages/CheckoutPage.tsx:96-105 | the customer row is keyed by the logged-in user's id and copies e-mail, full name, phone, service address, city, state and zip from the form |
| CheckoutPage.CardFieldsNeverStored | src/pages/CheckoutPage.tsx:96-105 | forms that differ only in card number, expiry and CVV give the same customer row |
| CheckoutPage.TuneUpAllowance | src/pages/CheckoutPage.tsx:119 | never 0; it is 2 iff the plan or its count is missing, or the count is 0 or 2; otherwise it is the plan's count |
| CheckoutPage.MembershipDataFor | src/pages/CheckoutPage.tsx:113-121 | the membership payload is the user's, for the route's plan, active, from today to the same day a year later, signed now, with the plan's tune-up allowance |
| CheckoutPage.Upserted | src/pages/CheckoutPage.tsx:96-109 | the upserted row carries every column of the payload, and keeps an existing row's Stripe customer id |
| CheckoutPage.Datastore.Upsert | src/pages/CheckoutPage.tsx:107-111 | succeeds iff not rejected; then the row for the id is inserted or replaced; memberships are untouched; rows stay keyed by their id |
| CheckoutPage.Datastore.Insert | src/pages/CheckoutPage.tsx:123-127 | succeeds iff not rejected; then exactly one row is appended; customers are untouched |
| CheckoutPage.CheckoutForm.constructor | src/pages/CheckoutPage.tsx:14-32 | the form starts empty, the terms unticked and nothing processing |
| CheckoutPage.CheckoutForm.HandleChange | src/pages/CheckoutPage.tsx:68-73 | the form becomes the old form with the named field set |
| CheckoutPage.CheckoutForm.SetAgreedToTerms | src/pages/CheckoutPage.tsx:336 | the terms flag becomes the checkbox's state |
| CheckoutPage.CheckoutForm.HandleSubmit | src/pages/CheckoutPage.tsx:75-137 | terms checked before login, with no write on either refusal; otherwise the upsert runs, and the insert runs only after a successful upsert; purchased iff both writes succeed; the new state of both tables is given exactly; processing ends false |
| CheckoutPage.PurchasedMembershipShape | src/pages/CheckoutPage.tsx:113-121 | the new membership is the buyer's, for the route's plan, active, ending on the same day one year after it starts; a positive plan count is kept and 0 becomes 2, so it has at least one tune-up unless the plan stores a negative count |
| CustomerDashboard.Load | src/pages/CustomerDashboard.tsx:16-58 | any failed query leaves the prior state (the initial empty state on first load) unchanged; otherwise the data is stored, with null membership or service data becoming empty lists |
| CustomerDashboard.ActiveMembership | src/pages/CustomerDashboard.tsx:60 | nothing iff no membership is active; otherwise the first active one in the list |
| CustomerDashboard.NewestActiveChosen | src/pages/CustomerDashboard.tsx:36-60 | with the list newest first, the chosen membership is the most recently created active one |
| CustomerDashboard.TuneUpsLabel | src/pages/CustomerDashboard.tsx:129-131 | "Tune-Up Remaining" iff exactly one remains, "Tune-Ups Remaining" otherwise |
| CustomerDashboard.View | src/pages/CustomerDashboard.tsx:60-131 | "No Active Membership" iff no membership is active; otherwise the first active membership of the list, never an expired or cancelled one, with the singular label iff exactly one tune-up remains |
| CustomerDashboard.WelcomeName | src/pages/CustomerDashboard.tsx:78 | never empty; the customer's full name when it is non-empty, "Customer" otherwise |
| CustomersPanel.FilterCustomers | src/pages/admin/CustomersPanel.tsx:37-40 | the result is an order-preserving subsequence holding each matching row as often as it was fetched and no other row; a row is in it iff its lower-cased name or e-mail contains the lower-cased term |
| CustomersPanel.MatchesSearch | src/pages/admin/CustomersPanel.tsx:37-40 | every customer matches the empty search term |
| CustomersPanel.EmptySearchKeepsAll | src/pages/admin/CustomersPanel.tsx:37-40 | an empty search keeps every row |
| CustomersPanel.SearchIgnoresTermCase | src/pages/admin/CustomersPanel.tsx:38-39 | the term's letter case does not change the result |
| CustomersPanel.ActiveMemberships | src/pages/admin/CustomersPanel.tsx:73 | an order-preserving subsequence in which each active membership occurs as often as in the list, and no other membership occurs |
| CustomersPanel.ActiveCount | src/pages/admin/CustomersPanel.tsx:73 | 0 when memberships are absent; otherwise the number of active memberships, counted with multiplicity; at most the total; positive iff some membership is active |
| CustomersPanel.Badge | src/pages/admin/CustomersPanel.tsx:84-90 | "None" iff the count is 0, otherwise "<n> active" |
| PlansPage.BillingFrequency | src/pages/PlansPage.tsx:79 | "annual" iff the stored frequency is missing, empty or "annual"; otherwise the stored value |
| PlansPage.Card | src/pages/PlansPage.tsx:77-127 | the name is the plan's; features are the stored list or none, and the placeholder shows iff there are none; "year" iff the frequency is annual, else "semi-annual"; tune-ups default to 2 only when missing; discount defaults to 0; the badge and priority line follow `priority_service`; the stored description shows iff non-empty; the link is `/checkout/<id>` |
| PlansPage.View | src/pages/PlansPage.tsx:72-131 | "No plans found" iff the list is empty; otherwise one card per plan, in order |
| PlansPage.TuneUpsShownVersusGranted | src/pages/PlansPage.tsx:80 | a plan with 0 tune-ups shows 0 while checkout grants 2; for every other stored count, and for a missing one, the page and checkout agree |
| AdminDashboard.ActiveFlags | src/pages/admin/AdminDashboard.tsx:32-35 | one flag per tab, in order: equality for the exact tab, prefix for the others |
| AdminDashboard.IsActive | src/pages/admin/AdminDashboard.tsx:33-35 | an active tab's path is always a prefix of the current path, whether the tab is exact or not |
| AdminDashboard.TabOrder | src/pages/admin/AdminDashboard.tsx:13-19 | five tabs, Overview, Customers, Plans, Services, Content, and only Overview is exact |
| AdminDashboard.OverviewOnlyOnItsOwnPath | src/pages/admin/AdminDashboard.tsx:33-34 | Overview is active iff the path is exactly "/admin"; on "/admin/customers/42" Customers is active and Overview is not |
| AdminDashboard.ActiveTabFixesPath | src/pages/admin/AdminDashboard.tsx:14-18 | an active section tab fixes the path's eighth and ninth characters |
| AdminDashboard.AtMostOneActive | src/pages/admin/AdminDashboard.tsx:13-35 | for every path at most one tab is active |

## Left out

- I/O is not modelled. Instead:
  - `Deno.serve` is not modelled.
  - The environment reads, the request's JSON parsing, the `maintenance_plans` lookup and the Stripe call are parameters: `Env`, `ParsedBody`, `lookup` and `stripe`.
  - The Stripe and database clients are never constructed.
- Any error raised inside the Stripe call becomes a `StripeFailed` message.
- The one-head entry of `MINI_SPLIT_PRICE_BY_HEADS` (index.ts:30) is not a well-formed string literal in the source. It is a configured parameter, `head1PriceId`, and the `price_` guard still applies to it.
- The server's head-count table and the storefront's tier table are modelled as written and are not reconciled. `ServerAndStorefrontPriceIdsDiffer` states that they disagree.
- The handler does not authenticate the caller or create a Stripe customer, so neither is modelled.
- JavaScript numbers: `miniSplitHeads` and the tier lookup's argument are `real`, and `Number.isInteger` is "equal to its floor". NaN, infinities and non-number JSON values are not modelled.
- `toLowerCase` is modelled for ASCII letters only. There is no Unicode case mapping.
- JavaScript `Date` is not modelled:
  - The start date and the signing time come from a `Clock` parameter.
  - The end date is the same month and day one year later. `setFullYear` on 29 February and the local-time versus UTC split in `toISOString` are not modelled.
  - `toLocaleDateString` is not modelled.
- Database-side behaviour is outside the model, and the dashboard lemma takes "newest first" as a precondition. This covers:
  - `.order(...)`, `.limit(10)` on service history, and `.eq('is_active', true)`;
  - the plan list's active-only, ascending-price query;
  - the database's choice of a new row's id and `created_at`;
  - whether a write is rejected (the `Backend` parameter).
- The upsert's payload always includes `phone`. The other columns of an existing row, such as timestamps, are not modelled.
- The dashboard reads `portal_customers` while checkout writes `customers`. The model keeps them as separate inputs and does not relate them.
- `Promise.all` fetches are treated as independent reads. Loading flags and the membership agreement fetch are not modelled.
- Rendering, CSS, `alert` and navigation are not modelled. Outcomes such as `LoginRequired` and `Purchased` stand for the redirects.
- `App.tsx`, `HomePage.tsx`, `LoginPage.tsx`, `Header.tsx` and the authentication context are not part of this model.
- The admin create/update panels (`PlansPanel.tsx`, `ServicesPanel.tsx`, `ContentPanel.tsx`) are not part of this model.
- No arithmetic is done on `plan.price`. Tier amounts are integer constants.

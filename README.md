# Plan entitlements, usage metering and billing sync — a Dafny model

This project models the entitlement layer of a SvelteKit college-admissions
SaaS (Supabase for auth and storage, Stripe for billing, OpenAI for essay
generation):

- **Usage meter** (`usage_tracking.dfy`, module `UsageTracking`).
  - The static quota table: essay writes free 0, plus 30, pro 100; college saves free 5, plus and pro unlimited.
  - The admission decision `checkFeatureUsage`.
  - The per-(user, feature) counter table, with `incrementFeatureUsage` as a method of the class `FeatureUsageTable`.
  - A quota is `Finite(n) | Unbounded`, never a numeric Infinity.
- **Usage-tracking endpoint** (`usage_track.dfy`, `UsageTrack`).
  - Authenticate, read `featureType`, check the quota, and only then increment.
  - Builds the usage record returned after a counted use.
  - Requests are handled one at a time, and a replay lemma covers sequences of them.
- **Plan resolution** (`subscription.dfy`, `Subscription`).
  - The hierarchy free < pro < enterprise and the access check.
  - Mapping a stored subscription row to a plan through the pricing catalog's price ids, with free as the fallback.
  - The per-plan limits.
- **Page guard** (`feature_access.dfy`, `FeatureAccess`).
  - Sends anonymous users to the login page and over-quota users to the billing page; lets the rest through.
- **Request hook** (`hooks.dfy`, `Hooks`).
  - `safeGetSession` validation.
  - `authGuard` and `subscriptionLoader` as methods of a `Locals` class whose fields they assign.
  - The `price_plus`/`price_pro` price-to-plan mapping and the free defaults.
- **Stripe webhook** (`stripe_webhook.dfy`, `StripeWebhook`).
  - The signature gate and the dispatch on event type.
  - One transition per handled event, as methods of `SubscriptionSync`, which holds the `user_subscriptions` table.
- **Essay endpoint** (`ai_counselor.dfy`, `AiCounselor`).
  - Request validation.
  - The student-background text, built by loops like the handler's `forEach` callbacks.
  - The edit and write templates kept as their exact text, and the user message.
  - The token cap `min(4000, wordCount * 6)`.

`common.dfy` holds the shared vocabulary:

- `Option`.
- `QueryResult`: row / no rows (PostgREST `PGRST116`) / any other error.
- `Limit`.
- JavaScript truthiness of optional strings.

`decimal.dfy` renders integers as plain decimal digits with an optional minus sign, which is how a template literal prints an integral number below 10^21 in magnitude, and proves that the digits read back.

Each file keeps its own vocabulary, as the sources do:

- The meter's plans are `free | plus | pro`, with pro = 100 essay writes.
- The resolver's plans are `free | pro | enterprise`, with pro = 30.
- The hook reads the user's latest row from `subscriptions` and maps its `price_id` through the test prices `price_plus`/`price_pro`.
- The webhook writes `user_subscriptions` with Stripe's real price ids.

Calls into Supabase, Stripe and OpenAI are parameters that stand for their outcomes:

- A query result.
- A fault flag.
- A map standing for the provider's data.
- A function standing for signature verification or the model call.

Three behaviours of the code are worth stating up front:

- The webhook handlers pass no conflict key to their upserts, so how a write merges with existing rows is the parameter `upsert`.
- The meter's 30-write plan is plus; its pro plan allows 100.
- A failed count query lets the use through (the check fails open); `FailOpenExceedsQuota` shows the consequence.

## Model

| member | source | states |
|---|---|---|
| `Decimal.NatToString` | src/routes/api/ai-counselor/+server.ts:53 | an index prints as a non-empty string of digits with no leading zero; one digit exactly below 10 |
| `Decimal.NatToStringRoundTrip` | src/routes/api/ai-counselor/+server.ts:53 | the printed number reads back as the number: the list numbering is faithful |
| `Decimal.NatToStringInjective` | src/routes/api/ai-counselor/+server.ts:64 | different indices never print the same number |
| `Decimal.IntToString` | src/routes/api/ai-counselor/+server.ts:75 | the word count prints as its digits, preceded by a minus sign exactly when negative (a negative count passes validation) |
| `UsageTracking.FeatureLimit` | src/lib/usage-tracking.ts:26-37 | the quota is zero only for essay writes on free, and unbounded exactly for college saves on a paid plan; no finite quota exceeds 100 |
| `UsageTracking.FeatureLimitMonotone` | src/lib/usage-tracking.ts:26-37 | a higher plan never has a smaller quota for any feature |
| `UsageTracking.CheckFeatureUsage` | src/lib/usage-tracking.ts:105-173 | unbounded: allowed, usage 0, remaining unbounded; zero: refused with all zeros; failed read: allowed with remaining = limit; otherwise usage = stored count (0 without a row), remaining = max(0, limit - usage), allowed iff usage < limit; always allowed iff remaining is not 0, and usage + remaining = limit when allowed |
| `UsageTracking.CheckIgnoresStore` | src/lib/usage-tracking.ts:114-132 | with an unbounded or zero quota the decision is the same whatever the counter table holds |
| `UsageTracking.Incremented` | src/lib/usage-tracking.ts:61-89 | the incremented row holds its old count + 1 (1 if new); every other row is unchanged and no row disappears |
| `UsageTracking.IncrementSpec` | src/lib/usage-tracking.ts:45-96 | succeeds exactly on a healthy store and then increments; a failed lookup, update, insert or thrown call reports its own error and writes nothing |
| `UsageTracking.CheckAfterIncrement` | src/lib/usage-tracking.ts:153-155 | for a finite positive quota, checking again after an increment shows one more use, one fewer remaining, same quota |
| `UsageTracking.FeatureUsageTable.Increment` | src/lib/usage-tracking.ts:45-96 | the read-modify-write on the table's map leaves the outcome and the new table given by `IncrementSpec` |
| `UsageTrack.ParseFeature` | src/lib/usage-tracking.ts:12 | exactly the names `essayWrites` and `collegeSaves` name features |
| `UsageTrack.UpdatedUsage` | src/routes/api/usage/track/+server.ts:50-54 | one more use, remaining decremented but never below 0 (unbounded stays unbounded), quota and verdict kept |
| `UsageTrack.UpdatedUsageMatchesRecheck` | src/routes/api/usage/track/+server.ts:50-54 | the reported record agrees with a fresh check of the updated table whenever the check saw the real count |
| `UsageTrack.Track` | src/routes/api/usage/track/+server.ts:6-67 | no user: 401 and no change; unparsable body or unknown feature name: 500 and no change; missing or empty feature type: 400; a refused check: 403 carrying the check's record, table unchanged; an allowed check with a healthy store: 200 carrying the check's record updated by one use, table incremented for this user's row; an allowed check with a failing store: 500 carrying the check's record and the increment's error, table unchanged |
| `UsageTrack.TrackKeepsQuota` | src/routes/api/usage/track/+server.ts:28-39 | a request whose check read the real count keeps every counter of the user within its quota and leaves other users' rows alone |
| `UsageTrack.ReplayKeepsQuota` | src/routes/api/usage/track/+server.ts:28-39 | any sequence of such requests on a fixed plan never takes a counter past its quota |
| `UsageTrack.FailOpenExceedsQuota` | src/lib/usage-tracking.ts:142-151 | when the check's count query fails, a plus user at 30 essay writes is counted a 31st time |
| `UsageTrack.LastWriteThenRefused` | src/routes/api/usage/track/+server.ts:30-59 | at 29 of 30 writes, the next is counted (usage 30, remaining 0) and the one after is refused without a change |
| `UsageTrack.Post` | src/routes/api/usage/track/+server.ts:6-67 | the handler over the table class produces the response and the new table that `Track` gives |
| `Subscription.PlanLevel` | src/lib/subscription.ts:33-37 | levels are at most 2; a name has no level exactly when it is not free, pro or enterprise |
| `Subscription.PlanLevelOfName` | src/lib/subscription.ts:33-37 | free, pro and enterprise have levels 0, 1 and 2 |
| `Subscription.HasFeatureAccess` | src/lib/subscription.ts:28-41 | enterprise reaches everything, pro everything but enterprise, free only free, any other name nothing |
| `Subscription.AccessReflexive` | src/lib/subscription.ts:40 | every plan has access to its own level |
| `Subscription.AccessMonotone` | src/lib/subscription.ts:33-40 | a higher plan keeps access, and so does a lower requirement |
| `Subscription.UnknownPlanHasNoAccess` | src/lib/subscription.ts:40 | an unknown plan name gets no access at all (`undefined >= n` is false) |
| `Subscription.FindByPrice` | src/lib/subscription.ts:79 | the first catalog plan whose price equals the row's price, or none when no plan has it |
| `Subscription.RowPlan` | src/lib/subscription.ts:77-83 | a row's plan is pro or enterprise exactly when its price is that plan's catalog price, free otherwise |
| `Subscription.GetUserSubscription` | src/lib/subscription.ts:46-103 | any error (no row included) gives free, status free, active; a row gives its status, its price's plan, active iff status is active or trialing, and its id and period end |
| `Subscription.CheckFeatureAccess` | src/lib/subscription.ts:108-121 | access iff the requirement is free, or the subscription is active and its plan is at least the required level |
| `Subscription.NoPaidAccessWithoutActiveRow` | src/lib/subscription.ts:113-120 | with no readable row, or a row not active or trialing (past_due included), nothing above free is open |
| `Subscription.ActiveProRow` | src/lib/subscription.ts:77-86 | an active row on the pro price opens pro features but not enterprise ones |
| `Subscription.GetPlanLimits` | src/lib/subscription.ts:126-148 | pro (30, unbounded), enterprise (100, unbounded), every other name (0, 5) |
| `Subscription.LimitsFollowAccess` | src/lib/subscription.ts:126-148 | a plan can write essays, and has unlimited saves, exactly when it has pro access |
| `Subscription.LimitsMonotone` | src/lib/subscription.ts:126-148 | limits grow with the plan level |
| `FeatureAccess.CheckFeatureAccess` | src/lib/feature-access.ts:13-46 | no user: redirect 302 to /login; refused: redirect 302 to redirectTo (default /account/billing); true exactly for a signed-in user the check allows; a redirect that is not a Response is swallowed into false |
| `FeatureAccess.GuardFollowsQuota` | src/lib/feature-access.ts:30-37 | with a working store a signed-in user passes exactly when the stored count is below the plan's quota |
| `FeatureAccess.RequireFeatureAccess` | src/lib/feature-access.ts:54-60 | completes exactly when the guard returns, whatever it returns, and lets its redirect through unchanged |
| `Hooks.SafeGetSession` | src/hooks.server.ts:54-78 | no session or a user validation error: all three null; session and user are present together, as given; amr only without an assurance-level error |
| `Hooks.PlanForPrice` | src/hooks.server.ts:123-124 | plus exactly for `price_plus`, pro exactly for `price_pro`, free otherwise |
| `Hooks.LoadSubscriptionInfo` | src/hooks.server.ts:100-147 | no row, error or exception: free, active, not cancelling, period end thirty days on; a row: its price's plan, status, cancel flag and period end |
| `Hooks.PlanIgnoresStatus` | src/hooks.server.ts:122-128 | the metered plan depends only on the price, not on the status |
| `Hooks.Locals.AuthGuard` | src/hooks.server.ts:89-95 | locals.session and locals.user become exactly what `SafeGetSession` returns |
| `Hooks.Locals.SubscriptionLoader` | src/hooks.server.ts:98-151 | nothing changes without a user; with one, the locals get the loaded plan information |
| `Hooks.Locals.Handle` | src/hooks.server.ts:153 | after the chain the locals hold the validated session and user and, for a user, the plan loaded for that same user |
| `StripeWebhook.OwnerOf` | src/routes/api/stripe/webhook/+server.ts:104-115 | an owner is found exactly for a customer with a user, and it is that customer's user |
| `StripeWebhook.EventEffect` | src/routes/api/stripe/webhook/+server.ts:43-84 | unhandled events and unknown customers write nothing; a known customer always gets its write: active with the session's subscription for checkout, canceled for deletion, past_due for a failed invoice's retrieved subscription, and for created and updated the first item's price, status, subscription id and period end, throwing exactly when there are no items; an invoice naming no subscription does nothing, one whose subscription cannot be retrieved throws |
| `StripeWebhook.PaidInvoiceIsUpdate` | src/routes/api/stripe/webhook/+server.ts:228-237 | a paid invoice naming a subscription acts exactly like an updated event for it |
| `StripeWebhook.Dispatch` | src/routes/api/stripe/webhook/+server.ts:43-84 | each of the six handled type names selects its own handler, with the event object viewed as that handler's shape; every other name is unhandled |
| `StripeWebhook.Receive` | src/routes/api/stripe/webhook/+server.ts:9-92 | missing signature or failed verification: 400, no write; a verified event has exactly the effect of the handler its type selects, answered 500 when the handler throws and 200 otherwise |
| `StripeWebhook.UnhandledTypeAcknowledged` | src/routes/api/stripe/webhook/+server.ts:82-91 | a verified event whose type is none of the six handled names is answered 200 without a write |
| `StripeWebhook.VerifiedEventForKnownCustomerWrites` | src/routes/api/stripe/webhook/+server.ts:39-91 | a verified event whose customer has an owner is answered 200 with a write for that owner, unless its snapshot has no items, when it is answered 500 without a write |
| `StripeWebhook.SubscriptionSync.HandleCheckoutSessionCompleted` | src/routes/api/stripe/webhook/+server.ts:96-126 | the table gets the checkout transition's write, if any |
| `StripeWebhook.SubscriptionSync.HandleSubscriptionCreated` | src/routes/api/stripe/webhook/+server.ts:128-163 | the table gets the snapshot write, or the handler throws |
| `StripeWebhook.SubscriptionSync.HandleSubscriptionUpdated` | src/routes/api/stripe/webhook/+server.ts:165-196 | same transition as a created event |
| `StripeWebhook.SubscriptionSync.WriteSnapshot` | src/routes/api/stripe/webhook/+server.ts:147-162 | lookup, then first item, then upsert: throws exactly for a known customer without items |
| `StripeWebhook.SubscriptionSync.HandleSubscriptionDeleted` | src/routes/api/stripe/webhook/+server.ts:198-226 | the table gets a canceled write for the owner, if any |
| `StripeWebhook.SubscriptionSync.HandleInvoicePaymentSucceeded` | src/routes/api/stripe/webhook/+server.ts:228-237 | no subscription named: nothing; retrieval fails: throws; else the updated transition |
| `StripeWebhook.SubscriptionSync.HandleInvoicePaymentFailed` | src/routes/api/stripe/webhook/+server.ts:239-271 | no subscription named: nothing; retrieval fails: throws; else a past_due write for the owner, if any |
| `StripeWebhook.SubscriptionSync.Post` | src/routes/api/stripe/webhook/+server.ts:9-92 | status and new table are those `Receive` gives |
| `AiCounselor.UserInfoText` | src/routes/api/ai-counselor/+server.ts:48-67 | empty exactly when background is not requested or both lists are empty; opens with the activities heading when there are activities, else with the scores heading |
| `AiCounselor.UserInfoWithoutTestScores` | src/routes/api/ai-counselor/+server.ts:61-66 | with no test scores the background text is the activities section alone (or empty when not requested) |
| `AiCounselor.UserInfoWithoutActivities` | src/routes/api/ai-counselor/+server.ts:50-59 | with no activities the background text is the test-scores section alone (or empty when not requested) |
| `AiCounselor.UserInfoListsActivity` | src/routes/api/ai-counselor/+server.ts:52-58 | activity i appears as its entry numbered i+1 (title only if set, description line only if set) |
| `AiCounselor.UserInfoListsTestScore` | src/routes/api/ai-counselor/+server.ts:63-65 | test score j appears as the line "j+1. name: score (date)" |
| `AiCounselor.NumberedEntryAt` | src/routes/api/ai-counselor/+server.ts:52 | entry i stands between the entries before it and those after it |
| `AiCounselor.BuildUserInfoText` | src/routes/api/ai-counselor/+server.ts:48-67 | the accumulated text is `UserInfoText` |
| `AiCounselor.AppendActivities` | src/routes/api/ai-counselor/+server.ts:50-58 | the activities loop appends every entry in order |
| `AiCounselor.AppendActivity` | src/routes/api/ai-counselor/+server.ts:53-57 | one callback appends exactly that activity's entry |
| `AiCounselor.AppendTestScores` | src/routes/api/ai-counselor/+server.ts:61-66 | the scores loop appends every line in order |
| `AiCounselor.BuildSystemMessage` | src/routes/api/ai-counselor/+server.ts:70-127 | the assembled message is intro, optional background, quality check |
| `AiCounselor.SystemMessageRole` | src/routes/api/ai-counselor/+server.ts:71-95 | the editor role opens the message exactly when there is an essay to edit, the writer role exactly when there is none |
| `AiCounselor.SystemMessageEndsWithQualityCheck` | src/routes/api/ai-counselor/+server.ts:122-127 | the quality checklist always ends the message |
| `AiCounselor.SystemMessageWithoutBackground` | src/routes/api/ai-counselor/+server.ts:84-108 | with empty background text the message is the intro followed directly by the quality checklist |
| `AiCounselor.SystemMessageCarriesBackground` | src/routes/api/ai-counselor/+server.ts:84-85 | non-empty background text appears right after the background heading |
| `AiCounselor.UserMessage` | src/routes/api/ai-counselor/+server.ts:130-132 | editing ends with the essay verbatim; writing ends with the word count and " words." |
| `AiCounselor.MaxTokens` | src/routes/api/ai-counselor/+server.ts:142 | never above 4000 nor above 6 per word; exactly 6 per word up to 666 words |
| `AiCounselor.PrepareCompletion` | src/routes/api/ai-counselor/+server.ts:135-143 | a system message carrying the system text built from the request's background, then a user message carrying the user text, with the token cap `MaxTokens(wordCount)`, never above 4000 |
| `AiCounselor.Post` | src/routes/api/ai-counselor/+server.ts:30-153 | unparsable body: 500; missing prompt, school or word count: 400 without consulting the model; otherwise the model's first choice (or "") or 500 when the call fails |

## Left out

- `Decimal.IntToString`: prints every digit, whereas JavaScript prints integers of magnitude 10^21 and above in exponent notation (`1e+21`); word counts and list indices that large are not modelled.
- Supabase, Stripe and OpenAI calls. Each is an outcome passed in: a `QueryResult`, a fault flag, a map of Stripe subscriptions, or a function for signature verification and for the model.
- Signature verification itself, and the webhook secret. `constructEvent` is an opaque parameter returning the verified event's type name and object; the object's fields are taken as given, whatever the type says.
- Clocks and timestamps:
  - `created_at` and `updated_at` are not stored.
  - The hook's "now + 30 days" is the parameter `periodEnd`.
  - The webhook records Stripe's period end in seconds, without the date conversion.
- Concurrency: the check-then-increment race and concurrent or out-of-order webhook delivery. Each request is one sequential step.
- Logging, the `temperature` setting (a float), and the essay text beyond the `''` default.
- The `supabase` hook: client construction and cookies. The clients it builds are the parameters of `Hooks.Locals.Handle`.
- Upsert merging in `user_subscriptions`. It is the function `upsert`, because the handlers pass no conflict key.
- Upsert errors. The handlers ignore them, and the model applies `upsert` on every write, so a write that fails is captured only by a merge function that leaves the table unchanged.
- The `Response` class of the framework's redirect. It is the flag `redirectIsResponse`.
- JavaScript coercions outside these types:
  - a `featureType` that is not a string;
  - names of `Object.prototype` properties used as feature or plan names (the model treats them like any unknown name);
  - `undefined` fields printed inside template literals (the model prints given text);
  - a non-integral `wordCount`.
- `UsageTracking.CheckFeatureUsage`: the thrown-error fallback is folded into the failed read, because both return the same record.
- `UsageTrack.Track`: the plan comes from `UsageTracking.Plan`. Hooks only ever store free, plus or pro, so other plan strings are not modelled.
- The ordering of the latest-row queries. The query's outcome is given directly.
- Files outside the entitlement layer are not part of this model:
  - the colleges CRUD route;
  - the college-saves usage route;
  - the subscription guard middleware;
  - the `getUser` helper (the model takes the user directly);
  - the layout loader;
  - the client fetch wrapper;
  - migration and configuration scripts;
  - styling configuration;
  - type-only definitions.

/** Plan resolution: the plan hierarchy free < pro < enterprise, the mapping
    of a stored subscription row to a plan and an active flag, access checks,
    and the per-plan usage limits. */
module Subscription {
  import opened Common

  /** The plan vocabulary of this layer (`free | pro | enterprise`). */
  datatype PlanId = Free | Pro | Enterprise {
    function Name(): string {
      match this
      case Free => "free"
      case Pro => "pro"
      case Enterprise => "enterprise"
    }

    function Level(): nat {
      match this
      case Free => 0
      case Pro => 1
      case Enterprise => 2
    }
  }

  /** The level table, looked up by an arbitrary plan name; a name outside the
      table has no level. */
  function PlanLevel(name: string): (l: Option<nat>)
    ensures l.Some? ==> l.value <= 2
    ensures l.None? <==> name != "free" && name != "pro" && name != "enterprise"
  {
    if name == "free" then Some(0)
    else if name == "pro" then Some(1)
    else if name == "enterprise" then Some(2)
    else None
  }

  lemma PlanLevelOfName(p: PlanId)
    ensures PlanLevel(p.Name()) == Some(p.Level())
  {
  }

  /** Whether a user on plan `userPlanId` may use a feature that needs
      `required`. A name outside the table compares as `undefined >= n`,
      which is false. */
  function HasFeatureAccess(userPlanId: string, required: PlanId): (b: bool)
    ensures b <==>
      userPlanId == "enterprise" ||
      (userPlanId == "pro" && required != Enterprise) ||
      (userPlanId == "free" && required == Free)
  {
    var level := PlanLevel(userPlanId);
    level.Some? && level.value >= required.Level()
  }

  lemma AccessReflexive(p: PlanId)
    ensures HasFeatureAccess(p.Name(), p)
  {
  }

  /** Moving up the hierarchy never loses access, and needing less never
      loses access. */
  lemma AccessMonotone(p: PlanId, q: PlanId, required: PlanId, lesser: PlanId)
    requires p.Level() <= q.Level() && lesser.Level() <= required.Level()
    requires HasFeatureAccess(p.Name(), required)
    ensures HasFeatureAccess(q.Name(), required)
    ensures HasFeatureAccess(p.Name(), lesser)
  {
  }

  lemma UnknownPlanHasNoAccess(name: string, required: PlanId)
    requires name != "free" && name != "pro" && name != "enterprise"
    ensures !HasFeatureAccess(name, required)
  {
  }

  /** A plan of the pricing catalog: its id and its Stripe price, if any. */
  datatype CatalogPlan = CatalogPlan(id: PlanId, stripePriceId: Option<string>)

  const ProPriceId := "price_1NkdZCHMjzZ8mGZnRSjUm4yA"
  const EnterprisePriceId := "price_1Nkda2HMjzZ8mGZn4sKvbDAV"

  const PricingPlans: seq<CatalogPlan> := [
    CatalogPlan(Free, None),
    CatalogPlan(Pro, Some(ProPriceId)),
    CatalogPlan(Enterprise, Some(EnterprisePriceId))
  ]

  /** The index of the first catalog plan whose price is `priceId`. */
  function FindByPrice(plans: seq<CatalogPlan>, priceId: string): (r: Option<nat>)
    ensures r.Some? ==> r.value < |plans| && plans[r.value].stripePriceId == Some(priceId)
    ensures r.Some? ==> forall j :: 0 <= j < r.value ==> plans[j].stripePriceId != Some(priceId)
    ensures r.None? ==> forall j :: 0 <= j < |plans| ==> plans[j].stripePriceId != Some(priceId)
    decreases |plans|
  {
    if plans == [] then None
    else if plans[0].stripePriceId == Some(priceId) then Some(0)
    else
      match FindByPrice(plans[1..], priceId)
      case None => None
      case Some(i) => Some(i + 1)
  }

  /** A row of the `subscriptions` table, as far as it is read here. */
  datatype SubscriptionRow = SubscriptionRow(
    status: string,
    priceId: Option<string>,
    stripeSubscriptionId: Option<string>,
    currentPeriodEnd: Option<string>)

  datatype SubscriptionInfo = SubscriptionInfo(
    status: string,
    planId: PlanId,
    isActive: bool,
    subscriptionId: Option<string>,
    currentPeriodEnd: Option<string>)

  /** What any failure to find a subscription falls back to. */
  const FreeInfo := SubscriptionInfo("free", Free, true, None, None)

  /** The plan a stored price id stands for: the catalog plan with that price,
      or free when the price is absent, empty or unknown. */
  function RowPlan(priceId: Option<string>): (p: PlanId)
    ensures p == Pro <==> priceId == Some(ProPriceId)
    ensures p == Enterprise <==> priceId == Some(EnterprisePriceId)
  {
    if !Truthy(priceId) then Free
    else
      match FindByPrice(PricingPlans, priceId.value)
      case None =>
        assert PricingPlans[1].stripePriceId == Some(ProPriceId);
        assert PricingPlans[2].stripePriceId == Some(EnterprisePriceId);
        Free
      case Some(i) => PricingPlans[i].id
  }

  predicate IsActiveStatus(status: string) {
    status in ["active", "trialing"]
  }

  /** The user's latest subscription row, read into a `SubscriptionInfo`.
      `q` is the query's outcome; a thrown error counts as `Failed`. */
  function GetUserSubscription(q: QueryResult<SubscriptionRow>): (info: SubscriptionInfo)
    ensures !q.Row? ==> info == FreeInfo
    ensures q.Row? ==> info.status == q.row.status && info.planId == RowPlan(q.row.priceId)
    ensures q.Row? ==> (info.isActive <==> q.row.status == "active" || q.row.status == "trialing")
    ensures q.Row? ==> info.subscriptionId == q.row.stripeSubscriptionId && info.currentPeriodEnd == q.row.currentPeriodEnd
  {
    match q
    case Row(row) =>
      SubscriptionInfo(row.status, RowPlan(row.priceId), IsActiveStatus(row.status),
        row.stripeSubscriptionId, row.currentPeriodEnd)
    case _ => FreeInfo
  }

  /** Access decided from the stored subscription: a lapsed paid plan keeps
      only free features; everything else follows the hierarchy. */
  function CheckFeatureAccess(q: QueryResult<SubscriptionRow>, required: PlanId): (b: bool)
    ensures var info := GetUserSubscription(q);
      b <==> required == Free || (info.isActive && info.planId.Level() >= required.Level())
  {
    var subscription := GetUserSubscription(q);
    if !subscription.isActive && subscription.planId != Free then required == Free
    else HasFeatureAccess(subscription.planId.Name(), required)
  }

  /** Without a readable row only free features are open; a row whose status
      is neither active nor trialing (say past_due) opens nothing more. */
  lemma NoPaidAccessWithoutActiveRow(q: QueryResult<SubscriptionRow>, required: PlanId)
    requires required != Free
    requires !q.Row? || !IsActiveStatus(q.row.status)
    ensures !CheckFeatureAccess(q, required)
  {
  }

  /** An active row on the pro price opens pro features but not enterprise ones. */
  lemma ActiveProRow(q: QueryResult<SubscriptionRow>)
    requires q.Row? && q.row.status == "active" && q.row.priceId == Some(ProPriceId)
    ensures CheckFeatureAccess(q, Pro) && !CheckFeatureAccess(q, Enterprise)
  {
  }

  datatype PlanLimits = PlanLimits(essayWrites: Limit, collegeSaves: Limit)

  /** Per-plan usage limits; any name other than pro or enterprise gets the
      free limits. */
  function GetPlanLimits(planId: string): (l: PlanLimits)
    ensures planId == "pro" ==> l == PlanLimits(Finite(30), Unbounded)
    ensures planId == "enterprise" ==> l == PlanLimits(Finite(100), Unbounded)
    ensures planId != "pro" && planId != "enterprise" ==> l == PlanLimits(Finite(0), Finite(5))
  {
    if planId == "pro" then PlanLimits(Finite(30), Unbounded)
    else if planId == "enterprise" then PlanLimits(Finite(100), Unbounded)
    else PlanLimits(Finite(0), Finite(5))
  }

  /** A plan may write essays exactly when it has pro access, and its
      college saves are unlimited exactly then too. */
  lemma LimitsFollowAccess(planId: string)
    ensures GetPlanLimits(planId).essayWrites != Finite(0) <==> HasFeatureAccess(planId, Pro)
    ensures GetPlanLimits(planId).collegeSaves.Unbounded? <==> HasFeatureAccess(planId, Pro)
  {
  }

  /** Limits grow with the plan level. */
  lemma LimitsMonotone(p: PlanId, q: PlanId)
    requires p.Level() <= q.Level()
    ensures GetPlanLimits(p.Name()).essayWrites.n <= GetPlanLimits(q.Name()).essayWrites.n
    ensures GetPlanLimits(p.Name()).collegeSaves.Unbounded? ==> GetPlanLimits(q.Name()).collegeSaves.Unbounded?
  {
  }
}

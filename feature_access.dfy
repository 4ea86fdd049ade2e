/** The page guard for metered features: send anonymous visitors to the login
    page, send users over quota to the billing page, let the others through. */
module FeatureAccess {
  import opened Common
  import opened UsageTracking

  const LoginPath := "/login"
  const BillingPath := "/account/billing"

  /** How a guard call ends: a redirect thrown to the framework, or a value
      returned to the caller. */
  datatype AccessOutcome = Redirected(status: int, location: string) | Returned(granted: bool)

  /** The guard. `user` is the signed-in user's id, `plan` the plan loaded
      for the request, `read` what the counter query returns, and
      `redirectIsResponse` whether the framework's redirect value is a
      `Response` (which the guard's own catch re-throws) or not (which the
      catch swallows into `false`). */
  function CheckFeatureAccess(user: Option<string>, plan: Option<Plan>, f: Feature, redirectTo: Option<string>,
                              read: QueryResult<nat>, redirectIsResponse: bool): (o: AccessOutcome)
    ensures o.Redirected? ==> o.status == 302 && redirectIsResponse
    ensures user.None? ==> o == if redirectIsResponse then Redirected(302, LoginPath) else Returned(false)
    ensures o == Returned(true) <==> user.Some? && CheckFeatureUsage(f, plan.GetOr(Free), read).allowed
    ensures user.Some? && !CheckFeatureUsage(f, plan.GetOr(Free), read).allowed ==>
      o == if redirectIsResponse then Redirected(302, redirectTo.GetOr(BillingPath)) else Returned(false)
  {
    var thrown :=
      if user.None? then Some(LoginPath)
      else if !CheckFeatureUsage(f, plan.GetOr(Free), read).allowed then Some(redirectTo.GetOr(BillingPath))
      else None;
    match thrown
    case None => Returned(true)
    case Some(location) => if redirectIsResponse then Redirected(302, location) else Returned(false)
  }

  /** A signed-in user with a working counter store is let through exactly
      when the stored count is still below the quota of their plan. */
  lemma GuardFollowsQuota(counts: Counts, userId: string, plan: Option<Plan>, f: Feature,
                          redirectTo: Option<string>, redirectIsResponse: bool)
    ensures CheckFeatureAccess(Some(userId), plan, f, redirectTo, Lookup(counts, UsageKey(userId, f)), redirectIsResponse)
            == Returned(true)
            <==> FeatureLimit(f, plan.GetOr(Free)).Admits(StoredCount(Lookup(counts, UsageKey(userId, f))))
  {
  }

  /** How the load-function wrapper ends: it either lets a redirect escape or
      completes with nothing. */
  datatype GuardOutcome = RedirectThrown(status: int, location: string) | Completed

  /** The wrapper for load functions: same arguments, result discarded. */
  function RequireFeatureAccess(user: Option<string>, plan: Option<Plan>, f: Feature, redirectTo: Option<string>,
                                read: QueryResult<nat>, redirectIsResponse: bool): (o: GuardOutcome)
    ensures var inner := CheckFeatureAccess(user, plan, f, redirectTo, read, redirectIsResponse);
      (o.Completed? <==> inner.Returned?) &&
      (o.RedirectThrown? ==> inner == Redirected(o.status, o.location))
  {
    match CheckFeatureAccess(user, plan, f, redirectTo, read, redirectIsResponse)
    case Redirected(status, location) => RedirectThrown(status, location)
    case Returned(_) => Completed
  }
}

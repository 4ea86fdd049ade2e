/** The server request hook: validate the session, copy it into the request's
    locals, then load the signed-in user's plan for the usage meter. */
module Hooks {
  import opened Common
  import opened UsageTracking

  datatype User = User(id: string)

  /** An opaque session token. */
  datatype Session = Session(token: string)

  datatype AmrEntry = AmrEntry(authMethod: string, timestamp: int)

  /** The auth server's answer when asked to validate the session's user. */
  datatype GetUserOutcome = UserValid(user: User) | UserError

  /** The answer of the MFA assurance-level query. */
  datatype AalOutcome = Assurance(currentAuthenticationMethods: seq<AmrEntry>) | AalError

  datatype SessionResult = SessionResult(session: Option<Session>, user: Option<User>, amr: Option<seq<AmrEntry>>)

  /** The validated session. A session whose user fails validation is
      dropped; an assurance-level error only drops the authentication
      methods. */
  function SafeGetSession(session: Option<Session>, getUser: GetUserOutcome, aal: AalOutcome): (r: SessionResult)
    ensures session.None? || getUser.UserError? ==> r == SessionResult(None, None, None)
    ensures r.session.Some? <==> r.user.Some?
    ensures r.session.Some? ==> r.session == session && getUser.UserValid? && r.user == Some(getUser.user)
    ensures r.session.Some? <==> session.Some? && getUser.UserValid?
    ensures r.amr.Some? <==> r.session.Some? && aal.Assurance?
    ensures r.amr.Some? ==> r.amr.value == aal.currentAuthenticationMethods
  {
    if session.None? then SessionResult(None, None, None)
    else if getUser.UserError? then SessionResult(None, None, None)
    else if aal.AalError? then SessionResult(session, Some(getUser.user), None)
    else SessionResult(session, Some(getUser.user), Some(aal.currentAuthenticationMethods))
  }

  const PlusPriceId := "price_plus"
  const ProPriceId := "price_pro"

  /** The plan a stored price id stands for; any other price, or none, is free. */
  function PlanForPrice(priceId: Option<string>): (p: Plan)
    ensures p == Plus <==> priceId == Some(PlusPriceId)
    ensures p == Pro <==> priceId == Some(ProPriceId)
  {
    if priceId == Some(PlusPriceId) then Plus
    else if priceId == Some(ProPriceId) then Pro
    else Free
  }

  /** A row of the `subscriptions` table, as far as the hook reads it. */
  datatype SubscriptionRow = SubscriptionRow(
    priceId: Option<string>,
    status: string,
    cancelAtPeriodEnd: Option<bool>,
    currentPeriodEnd: Option<string>)

  datatype SubscriptionInfo = SubscriptionInfo(
    planId: Plan,
    status: string,
    cancelAtPeriodEnd: Option<bool>,
    currentPeriodEnd: Option<string>)

  /** The free default. `periodEnd` stands for "thirty days from now", which
      the hook reads from the clock. */
  function FreeDefault(periodEnd: string): SubscriptionInfo {
    SubscriptionInfo(Free, "active", Some(false), Some(periodEnd))
  }

  /** The plan information for a signed-in user, from the outcome of the
      latest-subscription query (a thrown error counts as `Failed`). */
  function LoadSubscriptionInfo(q: QueryResult<SubscriptionRow>, periodEnd: string): (info: SubscriptionInfo)
    ensures !q.Row? ==> info.planId == Free && info.status == "active" && info.cancelAtPeriodEnd == Some(false)
    ensures !q.Row? ==> info.currentPeriodEnd == Some(periodEnd)
    ensures q.Row? ==> info.planId == PlanForPrice(q.row.priceId) && info.status == q.row.status
    ensures q.Row? ==> info.cancelAtPeriodEnd == q.row.cancelAtPeriodEnd && info.currentPeriodEnd == q.row.currentPeriodEnd
  {
    match q
    case Row(row) => SubscriptionInfo(PlanForPrice(row.priceId), row.status, row.cancelAtPeriodEnd, row.currentPeriodEnd)
    case _ => FreeDefault(periodEnd)
  }

  /** The metered plan depends on the price alone: a lapsed or past-due row
      on a paid price still yields the paid plan. */
  lemma PlanIgnoresStatus(r1: SubscriptionRow, r2: SubscriptionRow, e1: string, e2: string)
    requires r1.priceId == r2.priceId
    ensures LoadSubscriptionInfo(Row(r1), e1).planId == LoadSubscriptionInfo(Row(r2), e2).planId
  {
  }

  /** The per-request locals the hook fills in. */
  class Locals {
    var session: Option<Session>
    var user: Option<User>
    var subscriptionInfo: Option<SubscriptionInfo>

    constructor ()
      ensures session.None? && user.None? && subscriptionInfo.None?
    {
      session, user, subscriptionInfo := None, None, None;
    }

    /** Copy the validated session and user into the locals. */
    method AuthGuard(sessionIn: Option<Session>, getUser: GetUserOutcome, aal: AalOutcome)
      modifies this
      ensures var r := SafeGetSession(sessionIn, getUser, aal);
        session == r.session && user == r.user
      ensures subscriptionInfo == old(subscriptionInfo)
    {
      var r := SafeGetSession(sessionIn, getUser, aal);
      session := r.session;
      user := r.user;
    }

    /** For a signed-in user, record the plan information; `query` gives the
        outcome of the latest-subscription query for a user id. */
    method SubscriptionLoader(query: string -> QueryResult<SubscriptionRow>, periodEnd: string)
      modifies this
      ensures session == old(session) && user == old(user)
      ensures user.None? ==> subscriptionInfo == old(subscriptionInfo)
      ensures user.Some? ==> subscriptionInfo == Some(LoadSubscriptionInfo(query(user.value.id), periodEnd))
    {
      if user.Some? {
        var q := query(user.value.id);
        if !q.Row? {
          subscriptionInfo := Some(FreeDefault(periodEnd));
        } else {
          var row := q.row;
          subscriptionInfo := Some(SubscriptionInfo(PlanForPrice(row.priceId), row.status,
                                                    row.cancelAtPeriodEnd, row.currentPeriodEnd));
        }
      }
    }

    /** The hook chain: client setup (the parameters here), then the auth
        guard, then the subscription loader, which sees the user the guard
        just stored. */
    method Handle(sessionIn: Option<Session>, getUser: GetUserOutcome, aal: AalOutcome,
                  query: string -> QueryResult<SubscriptionRow>, periodEnd: string)
      modifies this
      ensures var r := SafeGetSession(sessionIn, getUser, aal);
        session == r.session && user == r.user
      ensures user.None? ==> subscriptionInfo == old(subscriptionInfo)
      ensures user.Some? ==> subscriptionInfo == Some(LoadSubscriptionInfo(query(user.value.id), periodEnd))
      ensures user.Some? ==> getUser == UserValid(user.value)
    {
      AuthGuard(sessionIn, getUser, aal);
      SubscriptionLoader(query, periodEnd);
    }
  }
}

/** The billing webhook: a signature gate, a dispatch on the event type, and
    one transition per handled event on the `user_subscriptions` table. How a
    write merges with the rows already there is a parameter (`upsert`),
    because the table's conflict key is not fixed by the handler. */
module StripeWebhook {
  import opened Common

  datatype CheckoutSession = CheckoutSession(id: string, customer: string, subscription: Option<string>)

  /** A Stripe subscription: its items are given by their price ids, and the
      period end is Stripe's Unix timestamp in seconds. */
  datatype StripeSubscription = StripeSubscription(
    id: string,
    customer: string,
    status: string,
    itemPriceIds: seq<string>,
    currentPeriodEnd: int)

  datatype Invoice = Invoice(subscription: Option<string>)

  /** The object a verified event carries. The handler reads it through an
      unchecked cast to the shape the event type names, so the model keeps
      the view of it as each shape. */
  datatype EventObject = EventObject(asSession: CheckoutSession, asSubscription: StripeSubscription, asInvoice: Invoice)

  /** A verified event as signature verification returns it: its type name
      and its object. */
  datatype VerifiedEvent = VerifiedEvent(eventType: string, payload: EventObject)

  const CheckoutCompletedType := "checkout.session.completed"
  const SubscriptionCreatedType := "customer.subscription.created"
  const SubscriptionUpdatedType := "customer.subscription.updated"
  const SubscriptionDeletedType := "customer.subscription.deleted"
  const InvoicePaidType := "invoice.payment_succeeded"
  const InvoiceFailedType := "invoice.payment_failed"

  /** The event types the webhook has a handler for. */
  const HandledTypes: set<string> := {CheckoutCompletedType, SubscriptionCreatedType, SubscriptionUpdatedType,
                                      SubscriptionDeletedType, InvoicePaidType, InvoiceFailedType}

  /** An event told apart by the handler the switch picks for it. */
  datatype StripeEvent =
    | CheckoutSessionCompleted(session: CheckoutSession)
    | SubscriptionCreated(created: StripeSubscription)
    | SubscriptionUpdated(updated: StripeSubscription)
    | SubscriptionDeleted(deleted: StripeSubscription)
    | InvoicePaymentSucceeded(paid: Invoice)
    | InvoicePaymentFailed(unpaid: Invoice)
    | Unhandled(eventType: string)

  /** The switch on the event type: each handled type name selects its
      handler with the object cast to that handler's shape; any other name
      is unhandled. */
  function Dispatch(ev: VerifiedEvent): (e: StripeEvent)
    ensures e.Unhandled? <==> ev.eventType !in HandledTypes
    ensures e.Unhandled? ==> e.eventType == ev.eventType
    ensures e.CheckoutSessionCompleted? <==> ev.eventType == CheckoutCompletedType
    ensures e.SubscriptionCreated? <==> ev.eventType == SubscriptionCreatedType
    ensures e.SubscriptionUpdated? <==> ev.eventType == SubscriptionUpdatedType
    ensures e.SubscriptionDeleted? <==> ev.eventType == SubscriptionDeletedType
    ensures e.InvoicePaymentSucceeded? <==> ev.eventType == InvoicePaidType
    ensures e.InvoicePaymentFailed? <==> ev.eventType == InvoiceFailedType
    ensures e.CheckoutSessionCompleted? ==> e.session == ev.payload.asSession
    ensures e.SubscriptionCreated? ==> e.created == ev.payload.asSubscription
    ensures e.SubscriptionUpdated? ==> e.updated == ev.payload.asSubscription
    ensures e.SubscriptionDeleted? ==> e.deleted == ev.payload.asSubscription
    ensures e.InvoicePaymentSucceeded? ==> e.paid == ev.payload.asInvoice
    ensures e.InvoicePaymentFailed? ==> e.unpaid == ev.payload.asInvoice
  {
    var t, obj := ev.eventType, ev.payload;
    if t == CheckoutCompletedType then CheckoutSessionCompleted(obj.asSession)
    else if t == SubscriptionCreatedType then SubscriptionCreated(obj.asSubscription)
    else if t == SubscriptionUpdatedType then SubscriptionUpdated(obj.asSubscription)
    else if t == SubscriptionDeletedType then SubscriptionDeleted(obj.asSubscription)
    else if t == InvoicePaidType then InvoicePaymentSucceeded(obj.asInvoice)
    else if t == InvoiceFailedType then InvoicePaymentFailed(obj.asInvoice)
    else Unhandled(t)
  }

  /** The fields one handler upserts. `None` stands for a field the handler
      does not send or, for the checkout write's subscription id, one it sends
      as null. */
  datatype SubscriptionWrite = SubscriptionWrite(
    userId: string,
    stripeSubscriptionId: Option<string>,
    stripePriceId: Option<string>,
    status: string,
    currentPeriodEnd: Option<int>)

  /** What a handler does: one upsert, nothing, or throw. */
  datatype Effect = Write(w: SubscriptionWrite) | NoWrite | Throws

  /** The user owning a Stripe customer, from `owners` (customer id to the
      first matching user id). A failed lookup behaves like an unknown
      customer: the handler returns without writing. */
  function OwnerOf(owners: map<string, string>, customer: string): (u: Option<string>)
    ensures u.Some? <==> customer in owners
    ensures u.Some? ==> u.value == owners[customer]
  {
    if customer in owners then Some(owners[customer]) else None
  }

  /** The subscription the invoice handlers fetch from Stripe: `None` when the
      invoice names none; a failed retrieval makes the handler throw. */
  datatype Fetched = NotNamed | Retrieved(sub: StripeSubscription) | RetrieveFails

  function FetchInvoiceSubscription(stripe: map<string, StripeSubscription>, invoice: Invoice): Fetched {
    if !Truthy(invoice.subscription) then NotNamed
    else if invoice.subscription.value in stripe then Retrieved(stripe[invoice.subscription.value])
    else RetrieveFails
  }

  function CheckoutEffect(owners: map<string, string>, session: CheckoutSession): Effect {
    match OwnerOf(owners, session.customer)
    case None => NoWrite
    case Some(userId) => Write(SubscriptionWrite(userId, session.subscription, None, "active", None))
  }

  /** Subscription created, or updated: record the subscription's first price,
      status and period end. The first item is read only after the owner was
      found; an empty item list throws. */
  function SnapshotEffect(owners: map<string, string>, sub: StripeSubscription): Effect {
    match OwnerOf(owners, sub.customer)
    case None => NoWrite
    case Some(userId) =>
      if sub.itemPriceIds == [] then Throws
      else Write(SubscriptionWrite(userId, Some(sub.id), Some(sub.itemPriceIds[0]), sub.status, Some(sub.currentPeriodEnd)))
  }

  function DeletedEffect(owners: map<string, string>, sub: StripeSubscription): Effect {
    match OwnerOf(owners, sub.customer)
    case None => NoWrite
    case Some(userId) => Write(SubscriptionWrite(userId, Some(sub.id), None, "canceled", None))
  }

  function InvoiceSucceededEffect(owners: map<string, string>, stripe: map<string, StripeSubscription>, invoice: Invoice): Effect {
    match FetchInvoiceSubscription(stripe, invoice)
    case NotNamed => NoWrite
    case RetrieveFails => Throws
    case Retrieved(sub) => SnapshotEffect(owners, sub)
  }

  function InvoiceFailedEffect(owners: map<string, string>, stripe: map<string, StripeSubscription>, invoice: Invoice): Effect {
    match FetchInvoiceSubscription(stripe, invoice)
    case NotNamed => NoWrite
    case RetrieveFails => Throws
    case Retrieved(sub) =>
      match OwnerOf(owners, sub.customer)
      case None => NoWrite
      case Some(userId) => Write(SubscriptionWrite(userId, Some(sub.id), None, "past_due", None))
  }

  /** The customer whose owner an event's handler looks up, if it gets that far. */
  function EventCustomer(e: StripeEvent, stripe: map<string, StripeSubscription>): Option<string> {
    match e
    case CheckoutSessionCompleted(s) => Some(s.customer)
    case SubscriptionCreated(sub) => Some(sub.customer)
    case SubscriptionUpdated(sub) => Some(sub.customer)
    case SubscriptionDeleted(sub) => Some(sub.customer)
    case InvoicePaymentSucceeded(inv) =>
      (match FetchInvoiceSubscription(stripe, inv) case Retrieved(sub) => Some(sub.customer) case _ => None)
    case InvoicePaymentFailed(inv) =>
      (match FetchInvoiceSubscription(stripe, inv) case Retrieved(sub) => Some(sub.customer) case _ => None)
    case Unhandled(_) => None
  }

  /** The status each kind of event stands for: a completed checkout is
      active, a deletion canceled, a failed payment past due; the
      subscription events and a paid invoice carry Stripe's own status. */
  function EventStatus(e: StripeEvent, stripe: map<string, StripeSubscription>): Option<string> {
    match e
    case CheckoutSessionCompleted(_) => Some("active")
    case SubscriptionCreated(sub) => Some(sub.status)
    case SubscriptionUpdated(sub) => Some(sub.status)
    case SubscriptionDeleted(_) => Some("canceled")
    case InvoicePaymentSucceeded(inv) =>
      (match FetchInvoiceSubscription(stripe, inv) case Retrieved(sub) => Some(sub.status) case _ => None)
    case InvoicePaymentFailed(inv) =>
      (match FetchInvoiceSubscription(stripe, inv) case Retrieved(_) => Some("past_due") case _ => None)
    case Unhandled(_) => None
  }

  /** The dispatch on the event type. Every handled event whose customer has
      an owner leads to its write, except a snapshot without items, which
      throws; an invoice naming no subscription does nothing, and one whose
      subscription cannot be retrieved throws. */
  function EventEffect(owners: map<string, string>, stripe: map<string, StripeSubscription>, e: StripeEvent): (eff: Effect)
    ensures e.Unhandled? ==> eff.NoWrite?
    ensures eff.Write? ==>
      EventCustomer(e, stripe).Some? && OwnerOf(owners, EventCustomer(e, stripe).value) == Some(eff.w.userId)
    ensures eff.Write? ==> EventStatus(e, stripe) == Some(eff.w.status)
    ensures EventCustomer(e, stripe).Some? && EventCustomer(e, stripe).value !in owners ==> eff.NoWrite?
    ensures e.CheckoutSessionCompleted? ==>
      (eff.Write? <==> e.session.customer in owners) && !eff.Throws?
    ensures e.CheckoutSessionCompleted? && eff.Write? ==>
      eff.w == SubscriptionWrite(owners[e.session.customer], e.session.subscription, None, "active", None)
    ensures (e.SubscriptionCreated? || e.SubscriptionUpdated?) ==>
      var sub := if e.SubscriptionCreated? then e.created else e.updated;
      (eff.Throws? <==> sub.customer in owners && sub.itemPriceIds == []) &&
      (eff.Write? <==> sub.customer in owners && sub.itemPriceIds != []) &&
      (eff.Write? ==> eff.w == SubscriptionWrite(owners[sub.customer], Some(sub.id), Some(sub.itemPriceIds[0]),
                                                 sub.status, Some(sub.currentPeriodEnd)))
    ensures e.SubscriptionDeleted? ==>
      (eff.Write? <==> e.deleted.customer in owners) && !eff.Throws? &&
      (eff.Write? ==> eff.w == SubscriptionWrite(owners[e.deleted.customer], Some(e.deleted.id), None, "canceled", None))
    ensures e.InvoicePaymentSucceeded? || e.InvoicePaymentFailed? ==>
      var inv := if e.InvoicePaymentSucceeded? then e.paid else e.unpaid;
      (!Truthy(inv.subscription) ==> eff.NoWrite?) &&
      (Truthy(inv.subscription) && inv.subscription.value !in stripe ==> eff.Throws?)
    ensures e.InvoicePaymentFailed? && FetchInvoiceSubscription(stripe, e.unpaid).Retrieved? ==>
      var sub := FetchInvoiceSubscription(stripe, e.unpaid).sub;
      (eff.Write? <==> sub.customer in owners) && !eff.Throws? &&
      (eff.Write? ==> eff.w == SubscriptionWrite(owners[sub.customer], Some(sub.id), None, "past_due", None))
  {
    match e
    case CheckoutSessionCompleted(s) => CheckoutEffect(owners, s)
    case SubscriptionCreated(sub) => SnapshotEffect(owners, sub)
    case SubscriptionUpdated(sub) => SnapshotEffect(owners, sub)
    case SubscriptionDeleted(sub) => DeletedEffect(owners, sub)
    case InvoicePaymentSucceeded(inv) => InvoiceSucceededEffect(owners, stripe, inv)
    case InvoicePaymentFailed(inv) => InvoiceFailedEffect(owners, stripe, inv)
    case Unhandled(_) => NoWrite
  }

  /** A paid invoice naming a subscription has exactly the effect of an
      "updated" event for the subscription Stripe returns. */
  lemma PaidInvoiceIsUpdate(owners: map<string, string>, stripe: map<string, StripeSubscription>, inv: Invoice)
    requires Truthy(inv.subscription) && inv.subscription.value in stripe
    ensures EventEffect(owners, stripe, InvoicePaymentSucceeded(inv))
         == EventEffect(owners, stripe, SubscriptionUpdated(stripe[inv.subscription.value]))
  {
  }

  /** The response status and the effect of one delivery. `constructEvent`
      stands for signature verification: `None` when the body does not verify
      under the signature and the endpoint's secret. */
  function Receive(signature: Option<string>, body: string, constructEvent: (string, string) -> Option<VerifiedEvent>,
                   owners: map<string, string>, stripe: map<string, StripeSubscription>): (r: (int, Effect))
    ensures !Truthy(signature) ==> r == (400, NoWrite)
    ensures Truthy(signature) && constructEvent(body, signature.value).None? ==> r == (400, NoWrite)
    ensures r.0 == 500 <==> r.1.Throws?
    ensures r.0 == 200 <==> Truthy(signature) && constructEvent(body, signature.value).Some? && !r.1.Throws?
    ensures Truthy(signature) && constructEvent(body, signature.value).Some? ==>
      r.1 == EventEffect(owners, stripe, Dispatch(constructEvent(body, signature.value).value))
  {
    if !Truthy(signature) then (400, NoWrite)
    else
      match constructEvent(body, signature.value)
      case None => (400, NoWrite)
      case Some(e) =>
        var eff := EventEffect(owners, stripe, Dispatch(e));
        (if eff.Throws? then 500 else 200, eff)
  }

  /** The event carries a subscription snapshot without items: the created
      and updated events, and a paid invoice whose subscription Stripe
      returned. */
  predicate SnapshotWithoutItems(e: StripeEvent, stripe: map<string, StripeSubscription>) {
    match e
    case SubscriptionCreated(sub) => sub.itemPriceIds == []
    case SubscriptionUpdated(sub) => sub.itemPriceIds == []
    case InvoicePaymentSucceeded(inv) =>
      FetchInvoiceSubscription(stripe, inv).Retrieved? && FetchInvoiceSubscription(stripe, inv).sub.itemPriceIds == []
    case _ => false
  }

  /** A verified delivery whose handler reaches a customer with an owner is
      acknowledged with 200 and writes for that owner, unless the snapshot it
      carries has no items, in which case the handler throws and the answer
      is 500 without a write. */
  lemma VerifiedEventForKnownCustomerWrites(signature: Option<string>, body: string,
      constructEvent: (string, string) -> Option<VerifiedEvent>,
      owners: map<string, string>, stripe: map<string, StripeSubscription>)
    requires Truthy(signature) && constructEvent(body, signature.value).Some?
    requires var e := Dispatch(constructEvent(body, signature.value).value);
             EventCustomer(e, stripe).Some? && EventCustomer(e, stripe).value in owners
    ensures var e := Dispatch(constructEvent(body, signature.value).value);
            var r := Receive(signature, body, constructEvent, owners, stripe);
            ((r.0 == 200 && r.1.Write? && r.1.w.userId == owners[EventCustomer(e, stripe).value])
               <==> !SnapshotWithoutItems(e, stripe)) &&
            (r.0 == 500 && r.1.Throws? <==> SnapshotWithoutItems(e, stripe))
  {
  }

  /** A verified event whose type has no handler is acknowledged with 200
      and writes nothing. */
  lemma UnhandledTypeAcknowledged(signature: Option<string>, body: string,
      constructEvent: (string, string) -> Option<VerifiedEvent>,
      owners: map<string, string>, stripe: map<string, StripeSubscription>)
    requires Truthy(signature) && constructEvent(body, signature.value).Some?
    requires constructEvent(body, signature.value).value.eventType !in HandledTypes
    ensures Receive(signature, body, constructEvent, owners, stripe) == (200, NoWrite)
  {
  }

  /** The table after an effect. */
  function Apply<Table>(upsert: (Table, SubscriptionWrite) -> Table, table: Table, eff: Effect): Table {
    if eff.Write? then upsert(table, eff.w) else table
  }

  /** The webhook endpoint over the `user_subscriptions` table. `owners`
      stands for the `users` table, which the handlers only read. */
  class SubscriptionSync<Table> {
    var table: Table
    const owners: map<string, string>
    const upsert: (Table, SubscriptionWrite) -> Table

    constructor (initial: Table, owners: map<string, string>, upsert: (Table, SubscriptionWrite) -> Table)
      ensures table == initial && this.owners == owners && this.upsert == upsert
    {
      table := initial;
      this.owners := owners;
      this.upsert := upsert;
    }

    method HandleCheckoutSessionCompleted(session: CheckoutSession)
      modifies this
      ensures table == Apply(upsert, old(table), CheckoutEffect(owners, session))
    {
      var users := OwnerOf(owners, session.customer);
      if users.None? {
        return;
      }
      table := upsert(table, SubscriptionWrite(users.value, session.subscription, None, "active", None));
    }

    method HandleSubscriptionCreated(sub: StripeSubscription) returns (thrown: bool)
      modifies this
      ensures thrown <==> SnapshotEffect(owners, sub).Throws?
      ensures table == Apply(upsert, old(table), SnapshotEffect(owners, sub))
    {
      thrown := WriteSnapshot(sub);
    }

    method HandleSubscriptionUpdated(sub: StripeSubscription) returns (thrown: bool)
      modifies this
      ensures thrown <==> SnapshotEffect(owners, sub).Throws?
      ensures table == Apply(upsert, old(table), SnapshotEffect(owners, sub))
    {
      thrown := WriteSnapshot(sub);
    }

    /** The body the created and updated handlers share. */
    method WriteSnapshot(sub: StripeSubscription) returns (thrown: bool)
      modifies this
      ensures thrown <==> SnapshotEffect(owners, sub).Throws?
      ensures table == Apply(upsert, old(table), SnapshotEffect(owners, sub))
    {
      var users := OwnerOf(owners, sub.customer);
      if users.None? {
        return false;
      }
      if |sub.itemPriceIds| == 0 {
        return true;
      }
      var priceId := sub.itemPriceIds[0];
      table := upsert(table, SubscriptionWrite(users.value, Some(sub.id), Some(priceId), sub.status, Some(sub.currentPeriodEnd)));
      thrown := false;
    }

    method HandleSubscriptionDeleted(sub: StripeSubscription)
      modifies this
      ensures table == Apply(upsert, old(table), DeletedEffect(owners, sub))
    {
      var users := OwnerOf(owners, sub.customer);
      if users.None? {
        return;
      }
      table := upsert(table, SubscriptionWrite(users.value, Some(sub.id), None, "canceled", None));
    }

    method HandleInvoicePaymentSucceeded(stripe: map<string, StripeSubscription>, invoice: Invoice) returns (thrown: bool)
      modifies this
      ensures thrown <==> InvoiceSucceededEffect(owners, stripe, invoice).Throws?
      ensures table == Apply(upsert, old(table), InvoiceSucceededEffect(owners, stripe, invoice))
    {
      thrown := false;
      if Truthy(invoice.subscription) {
        if invoice.subscription.value !in stripe {
          return true;
        }
        var sub := stripe[invoice.subscription.value];
        thrown := HandleSubscriptionUpdated(sub);
      }
    }

    method HandleInvoicePaymentFailed(stripe: map<string, StripeSubscription>, invoice: Invoice) returns (thrown: bool)
      modifies this
      ensures thrown <==> InvoiceFailedEffect(owners, stripe, invoice).Throws?
      ensures table == Apply(upsert, old(table), InvoiceFailedEffect(owners, stripe, invoice))
    {
      thrown := false;
      if Truthy(invoice.subscription) {
        if invoice.subscription.value !in stripe {
          return true;
        }
        var sub := stripe[invoice.subscription.value];
        var users := OwnerOf(owners, sub.customer);
        if users.None? {
          return;
        }
        table := upsert(table, SubscriptionWrite(users.value, Some(sub.id), None, "past_due", None));
      }
    }

    /** One delivery: verify, dispatch, acknowledge. */
    method Post(signature: Option<string>, body: string, constructEvent: (string, string) -> Option<VerifiedEvent>,
                stripe: map<string, StripeSubscription>) returns (status: int)
      modifies this
      ensures var r := Receive(signature, body, constructEvent, owners, stripe);
        status == r.0 && table == Apply(upsert, old(table), r.1)
    {
      if !Truthy(signature) {
        return 400;
      }
      var event := constructEvent(body, signature.value);
      if event.None? {
        return 400;
      }
      var t, obj := event.value.eventType, event.value.payload;
      var thrown := false;
      if t == CheckoutCompletedType {
        HandleCheckoutSessionCompleted(obj.asSession);
      } else if t == SubscriptionCreatedType {
        thrown := HandleSubscriptionCreated(obj.asSubscription);
      } else if t == SubscriptionUpdatedType {
        thrown := HandleSubscriptionUpdated(obj.asSubscription);
      } else if t == SubscriptionDeletedType {
        HandleSubscriptionDeleted(obj.asSubscription);
      } else if t == InvoicePaidType {
        thrown := HandleInvoicePaymentSucceeded(stripe, obj.asInvoice);
      } else if t == InvoiceFailedType {
        thrown := HandleInvoicePaymentFailed(stripe, obj.asInvoice);
      }
      status := if thrown then 500 else 200;
    }
  }
}

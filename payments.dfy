/** The subscription and payment-method store (components/payment/payment-context.tsx):
    the plan table, the current subscription, the saved cards, and the
    operations that change them. Each operation's simulated network delay is
    not modelled; each method gives the state once the operation has
    finished. "now" (epoch milliseconds) comes in as a parameter. */
module Payments {
  import opened Wrappers
  import opened Text
  import opened Seqs

  datatype Interval = Month | Year

  /** A plan; the price is in whole dollars. */
  datatype PaymentPlan = PaymentPlan(id: string, name: string, price: nat, interval: Interval,
                                     features: seq<string>, popular: bool)

  datatype SubscriptionStatus = Active | Canceled | PastDue | Trialing

  datatype Subscription = Subscription(id: string, planId: string, status: SubscriptionStatus,
                                       currentPeriodEnd: int, cancelAtPeriodEnd: bool)

  /** A saved card (its `type` is always "card"). An expiry month or year
      that did not parse is `NaN` in the store, `None` here. */
  datatype PaymentMethod = PaymentMethod(id: string, last4: string, brand: string,
                                         expiryMonth: Option<int>, expiryYear: Option<int>)

  /** `Omit<PaymentMethod, "id">`. */
  datatype NewPaymentMethod = NewPaymentMethod(last4: string, brand: string,
                                               expiryMonth: Option<int>, expiryYear: Option<int>)

  const DayMs := 24 * 60 * 60 * 1000

  /** `MOCK_PLANS`. */
  const Plans: seq<PaymentPlan> := [
    PaymentPlan("basic", "Basic", 15, Month,
      ["Up to 30 bookings/month", "Basic calendar integration", "Email notifications",
       "Mobile responsive booking page", "Basic client management", "Standard support"], false),
    PaymentPlan("professional", "Professional", 39, Month,
      ["Unlimited bookings", "Advanced calendar sync (Google, Outlook)", "SMS & email notifications",
       "Custom branding & colors", "Payment processing integration", "Analytics & reporting dashboard",
       "Service packages & pricing tiers", "Client history & notes", "Automated reminders",
       "Priority support"], true),
    PaymentPlan("complete", "Complete", 79, Month,
      ["Everything in Professional", "Multi-location & team management", "Advanced scheduling rules",
       "Custom intake forms", "Waitlist management", "Recurring appointments",
       "API access & integrations", "White-label solution", "Advanced analytics & insights",
       "Custom reporting", "Dedicated account manager", "24/7 priority support"], false)
  ]

  /** The plan table: basic, professional and complete at 15, 39 and 79
      dollars a month, prices rising, ids distinct, and professional the one
      plan marked popular. */
  lemma PlansShape()
    ensures |Plans| == 3
    ensures Plans[0].id == "basic" && Plans[1].id == "professional" && Plans[2].id == "complete"
    ensures Plans[0].price == 15 && Plans[1].price == 39 && Plans[2].price == 79
    ensures forall i :: 0 <= i < |Plans| ==> Plans[i].interval == Month
    ensures forall i, j :: 0 <= i < j < |Plans| ==> Plans[i].id != Plans[j].id && Plans[i].price < Plans[j].price
    ensures Filter(Plans, (p: PaymentPlan) => p.popular) == [Plans[1]]
  {
    assert Plans[0].id[0] == 'b' && Plans[1].id[0] == 'p' && Plans[2].id[0] == 'c';
  }

  /** `createSubscription`'s new record: active, not set to cancel, the
      period ending thirty days on. */
  function NewSubscription(planId: string, now: nat): (s: Subscription)
    ensures s.planId == planId && s.status == Active && !s.cancelAtPeriodEnd
    ensures s.currentPeriodEnd == now + 30 * DayMs
    ensures s.id == "sub_" + NatToString(now)
  {
    Subscription("sub_" + NatToString(now), planId, Active, now + 30 * DayMs, false)
  }

  /** `cancelSubscription`: nothing without a subscription; otherwise only
      the cancel-at-period-end flag is set. */
  function Cancel(sub: Option<Subscription>): (r: Option<Subscription>)
    ensures r.None? <==> sub.None?
    ensures sub.Some? ==> r.value.cancelAtPeriodEnd && r.value.(cancelAtPeriodEnd := sub.value.cancelAtPeriodEnd) == sub.value
  {
    match sub
    case None => None
    case Some(s) => Some(s.(cancelAtPeriodEnd := true))
  }

  /** `updateSubscription(planId)`: nothing without a subscription; otherwise
      only the plan changes. */
  function ChangePlan(sub: Option<Subscription>, planId: string): (r: Option<Subscription>)
    ensures r.None? <==> sub.None?
    ensures sub.Some? ==> r.value.planId == planId && r.value.(planId := sub.value.planId) == sub.value
  {
    match sub
    case None => None
    case Some(s) => Some(s.(planId := planId))
  }

  /** Cancelling twice is cancelling once, and cancelling and changing plan
      do not interfere. */
  lemma CancelLaws(sub: Option<Subscription>, planId: string)
    ensures Cancel(Cancel(sub)) == Cancel(sub)
    ensures Cancel(ChangePlan(sub, planId)) == ChangePlan(Cancel(sub), planId)
  {
  }

  /** The saved card under its `pm_<now>` id. */
  function WithMethodId(m: NewPaymentMethod, now: nat): (pm: PaymentMethod)
    ensures pm.id == "pm_" + NatToString(now)
    ensures NewPaymentMethod(pm.last4, pm.brand, pm.expiryMonth, pm.expiryYear) == m
  {
    PaymentMethod("pm_" + NatToString(now), m.last4, m.brand, m.expiryMonth, m.expiryYear)
  }

  /** `prev.filter(pm => pm.id !== id)`. */
  function RemoveMethod(methods: seq<PaymentMethod>, id: string): seq<PaymentMethod> {
    Filter(methods, (pm: PaymentMethod) => pm.id != id)
  }

  /** Removal drops every card with the id and keeps the others, in order. */
  lemma RemoveMethodMeaning(methods: seq<PaymentMethod>, id: string)
    ensures forall pm :: pm in RemoveMethod(methods, id) <==> pm in methods && pm.id != id
    ensures IsSubsequence(RemoveMethod(methods, id), methods)
  {
    FilterIsSubsequence(methods, (pm: PaymentMethod) => pm.id != id);
    FilterMembers(methods, (pm: PaymentMethod) => pm.id != id);
  }

  class Store {
    var subscription: Option<Subscription>
    var paymentMethods: seq<PaymentMethod>
    var loading: bool

    /** The provider's first render: no data, loading. */
    constructor ()
      ensures subscription.None? && paymentMethods == [] && loading
    {
      subscription := None;
      paymentMethods := [];
      loading := true;
    }

    /** The mount effect once its load completes: the professional
        subscription `sub_123` and the card `pm_123`. */
    method FinishInitialLoad(now: nat)
      modifies this
      ensures subscription == Some(Subscription("sub_123", "professional", Active, now + 30 * DayMs, false))
      ensures paymentMethods == [PaymentMethod("pm_123", "4242", "visa", Some(12), Some(2025))]
      ensures !loading
    {
      subscription := Some(Subscription("sub_123", "professional", Active, now + 30 * DayMs, false));
      paymentMethods := [PaymentMethod("pm_123", "4242", "visa", Some(12), Some(2025))];
      loading := false;
    }

    /** `createSubscription(planId, paymentMethodId)`; the payment method is
        not used. */
    method CreateSubscription(planId: string, paymentMethodId: string, now: nat)
      modifies this`subscription, this`loading
      ensures subscription == Some(NewSubscription(planId, now))
      ensures !loading
    {
      subscription := Some(NewSubscription(planId, now));
      loading := false;
    }

    method CancelSubscription()
      modifies this`subscription, this`loading
      ensures subscription == Cancel(old(subscription))
      ensures loading == (old(loading) && old(subscription).None?)
    {
      if subscription.None? {
        return;
      }
      subscription := Cancel(subscription);
      loading := false;
    }

    method AddPaymentMethod(paymentMethod: NewPaymentMethod, now: nat)
      modifies this`paymentMethods, this`loading
      ensures paymentMethods == old(paymentMethods) + [WithMethodId(paymentMethod, now)]
      ensures |paymentMethods| == |old(paymentMethods)| + 1
      ensures !loading
    {
      paymentMethods := paymentMethods + [WithMethodId(paymentMethod, now)];
      loading := false;
    }

    method RemovePaymentMethod(id: string)
      modifies this`paymentMethods, this`loading
      ensures paymentMethods == RemoveMethod(old(paymentMethods), id)
      ensures !loading
    {
      paymentMethods := RemoveMethod(paymentMethods, id);
      loading := false;
    }

    method UpdateSubscription(planId: string)
      modifies this`subscription, this`loading
      ensures subscription == ChangePlan(old(subscription), planId)
      ensures loading == (old(loading) && old(subscription).None?)
    {
      if subscription.None? {
        return;
      }
      subscription := ChangePlan(subscription, planId);
      loading := false;
    }
  }
}

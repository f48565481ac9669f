/** A plan card's price line (components/payment/pricing-plans.tsx): the
    yearly price is `Math.floor(price * 0.8)` whole dollars, the yearly
    saving twelve times the difference, and the choose button is disabled
    on the current plan. For the small whole-dollar prices of the plan table
    `Math.floor(p * 0.8)` is `(4 * p) / 5`: the floating-point product
    never falls below an exact integer result. */
module PricingPlans {
  import opened Wrappers
  import Payments

  /** The price shown for the chosen interval. */
  function ShownPrice(price: nat, interval: Payments.Interval): (shown: nat)
    ensures shown <= price
    ensures interval == Payments.Month ==> shown == price
    ensures interval == Payments.Year ==> 5 * shown <= 4 * price < 5 * shown + 5
  {
    if interval == Payments.Year then (4 * price) / 5 else price
  }

  /** `yearlyDiscount`: what twelve months at the yearly price save. */
  function YearlyDiscount(price: nat, interval: Payments.Interval): (discount: nat)
    ensures interval == Payments.Month ==> discount == 0
    ensures interval == Payments.Year ==> discount == 12 * (price - ShownPrice(price, interval))
  {
    if interval == Payments.Year then 12 * price - 12 * ShownPrice(price, interval) else 0
  }

  /** The "Save $x/year" line is shown on the yearly interval when there is
      a saving. */
  predicate ShowsSaving(price: nat, interval: Payments.Interval) {
    interval == Payments.Year && YearlyDiscount(price, interval) > 0
  }

  /** On the yearly interval every plan that costs anything saves something,
      and at most a fifth of its yearly cost, rounded up to a whole dollar a
      month. */
  lemma SavingShownForPaidPlans(price: nat)
    ensures ShowsSaving(price, Payments.Year) <==> price > 0
    ensures !ShowsSaving(price, Payments.Month)
    ensures 5 * YearlyDiscount(price, Payments.Year) <= 12 * price + 60
  {
  }

  /** The three plans on the yearly interval: $12, $31 and $63 a month,
      saving $36, $96 and $192 a year. */
  lemma PlanTableYearly()
    ensures ShownPrice(Payments.Plans[0].price, Payments.Year) == 12
    ensures ShownPrice(Payments.Plans[1].price, Payments.Year) == 31
    ensures ShownPrice(Payments.Plans[2].price, Payments.Year) == 63
    ensures YearlyDiscount(Payments.Plans[0].price, Payments.Year) == 36
    ensures YearlyDiscount(Payments.Plans[1].price, Payments.Year) == 96
    ensures YearlyDiscount(Payments.Plans[2].price, Payments.Year) == 192
  {
    Payments.PlansShape();
  }

  /** `disabled={isCurrentPlan}`, with `isCurrentPlan` the test
      `currentPlanId === plan.id`. */
  predicate ChooseDisabled(currentPlanId: Option<string>, plan: Payments.PaymentPlan) {
    currentPlanId == Some(plan.id)
  }

  /** Ids in the plan table are distinct, so at most one card's button is
      disabled, and with no current plan none is. */
  lemma AtMostOneDisabled(currentPlanId: Option<string>, i: nat, j: nat)
    requires i < |Payments.Plans| && j < |Payments.Plans|
    ensures ChooseDisabled(currentPlanId, Payments.Plans[i]) && ChooseDisabled(currentPlanId, Payments.Plans[j]) ==> i == j
    ensures currentPlanId.None? ==> !ChooseDisabled(currentPlanId, Payments.Plans[i])
  {
    Payments.PlansShape();
    if i < j || j < i {
      assert Payments.Plans[i].id != Payments.Plans[j].id;
    }
  }
}

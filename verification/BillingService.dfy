/** The subscription endpoint over one shop's row and its payments. */
module BillingService {
  import opened Options
  import opened Billing

  datatype Outcome = Unavailable | TokenRequired | Refused | Done(plan: string, charged: bool)

  class BillingService {
    // Whether a payment provider is configured.
    const provider: bool
    var shop: Shop
    var payments: seq<Payment>
    var clock: int
    // Writes of other requests that have not reached the database.
    ghost var asking: nat
    ghost var cancels: multiset<int>
    ghost var purchases: multiset<Purchase>

    ghost function State(): State
      reads this
    {
      Billing.State(shop, payments, clock, asking, cancels, purchases)
    }

    constructor (provider: bool, now: int)
      ensures State() == Initial(now) && this.provider == provider
    {
      this.provider := provider;
      shop, payments, clock := NEW_SHOP, [], now;
      asking, cancels, purchases := 0, multiset{}, multiset{};
    }

    /** Free: cancels a running paid plan. Paid: one charge first; a refused charge leaves the shop alone. */
    method Subscribe(code: string, paymentToken: Option<string>, chargeSucceeds: bool) returns (outcome: Outcome)
      modifies this
      ensures outcome == Unavailable <==> PlanOf(code).price != 0 && !provider
      ensures outcome == TokenRequired <==>
        PlanOf(code).price != 0 && provider && (paymentToken.None? || paymentToken.value == "")
      ensures outcome == Refused <==>
        PlanOf(code).price != 0 && provider && paymentToken.Some? && paymentToken.value != "" && !chargeSucceeds
      ensures outcome.Done? ==> outcome == Done(PlanOf(code).code, PlanOf(code).price != 0)
      // Nothing happens without a charge, except that the free plan ends a running paid one.
      ensures outcome == Unavailable || outcome == TokenRequired ==> shop == old(shop) && payments == old(payments)
      ensures outcome == Refused ==>
        shop == old(shop) && payments == old(payments) + [Payment(code, PlanOf(code).price, false)]
      ensures outcome.Done? && outcome.charged ==>
        && shop == Shop(Some(code), Some(clock), None)
        && payments == old(payments) + [Payment(code, PlanOf(code).price, true)]
      ensures outcome.Done? && !outcome.charged ==>
        && payments == old(payments)
        && shop == if CurrentPlan(old(shop)).price > 0 then old(shop).(churnedAt := Some(clock)) else old(shop)
      ensures outcome.Done? ==> CurrentPlan(shop) == PlanOf(code)
      ensures clock == old(clock)
      ensures var s := old(State());
        State() ==
          if outcome == Unavailable || outcome == TokenRequired then s
          else if outcome == Refused then Apply(s, Charged(code, false))
          else if outcome.charged then
            Apply(Apply(s, Charged(code, true)), CommitPurchase(Purchase(code, s.now)))
          else if CurrentPlan(s.shop).price > 0 then Apply(Apply(Apply(s, AskFree(code)), StampCancel), CommitCancel(s.now))
          else Apply(s, AskFree(code))
    {
      var plan := PlanOf(code);
      if plan.price == 0 {
        FreePlan(code);
        if CurrentPlan(shop).price > 0 {
          CancelNow(State(), code);
          shop := shop.(churnedAt := Some(clock));
        }
        return Done(plan.code, false);
      }
      if !provider {
        return Unavailable;
      }
      if paymentToken.None? || paymentToken.value == "" {
        return TokenRequired;
      }
      var receipt := Payment(plan.code, plan.price, chargeSucceeds);
      PurchaseNow(State(), code);
      payments := payments + [receipt];
      if !chargeSucceeds {
        return Refused;
      }
      shop := Shop(Some(plan.code), Some(clock), None);
      outcome := Done(plan.code, true);
    }
  }
}

/** Subscriptions: the stored plan, the formulas that read it at a moment, and the steps that write it. */
module Billing {
  import opened Options

  datatype Plan = Plan(code: string, price: int, quota: int)

  const FREE := Plan("free", 0, 500)
  const PLANS: seq<Plan> := [FREE, Plan("starter", 79, 1500), Plan("growth", 199, 5000), Plan("pro", 449, 15000)]
  // Thirty days, in milliseconds.
  const MONTH: int := 2592000000

  function FindPlan(code: string, n: nat): Option<Plan>
    requires n <= |PLANS|
    decreases |PLANS| - n
  {
    if n == |PLANS| then None
    else if PLANS[n].code == code then Some(PLANS[n])
    else FindPlan(code, n + 1)
  }

  function PlanOf(code: string): Plan {
    var found := FindPlan(code, 0);
    if found.Some? then found.value else FREE
  }

  /** The catalogue, row by row; any other code is the free plan. */
  lemma Catalogue(code: string)
    ensures PlanOf(code) ==
      if code == "starter" then Plan("starter", 79, 1500) else if code == "growth" then Plan("growth", 199, 5000)
      else if code == "pro" then Plan("pro", 449, 15000) else Plan("free", 0, 500)
  {
    assert FindPlan(code, 4) == None;
    assert FindPlan(code, 3) == if code == "pro" then Some(PLANS[3]) else None;
    assert FindPlan(code, 2) == if code == "growth" then Some(PLANS[2]) else FindPlan(code, 3);
    assert FindPlan(code, 1) == if code == "starter" then Some(PLANS[1]) else FindPlan(code, 2);
    Different();
  }

  lemma Different()
    ensures "free" != "starter" && "free" != "growth" && "free" != "pro"
    ensures "starter" != "growth" && "starter" != "pro" && "growth" != "pro"
  {
    assert |"free"| == 4 && |"starter"| == 7 && |"growth"| == 6 && |"pro"| == 3;
  }

  lemma FreePlan(code: string)
    requires PlanOf(code).price == 0
    ensures PlanOf(code) == FREE
  {
    Catalogue(code);
  }

  // A plan with a price is the catalogue's plan of its own code, and that code is not the free one.
  lemma PaidPlans(code: string)
    requires PlanOf(code).price > 0
    ensures PlanOf(code).code == code && code != FREE.code && code != ""
  {
    Catalogue(code);
    Different();
  }

  datatype Shop = Shop(plan: Option<string>, startedAt: Option<int>, churnedAt: Option<int>)

  const NEW_SHOP := Shop(None, None, None)

  // The merchant application's view: no clock.
  function CurrentPlan(shop: Shop): Plan {
    if shop.plan.Some? && shop.plan.value != "" && shop.startedAt.Some? && shop.churnedAt.None?
    then PlanOf(shop.plan.value) else FREE
  }

  // The back office's view: the plan code at moment t.
  function PlanAt(shop: Shop, t: int): string {
    if && shop.plan.Some? && shop.startedAt.Some? && shop.startedAt.value <= t
       && (shop.churnedAt.None? || shop.churnedAt.value > t)
    then shop.plan.value else FREE.code
  }

  // Months of running time in [a, b), times the monthly price.
  function RevenueIn(shop: Shop, a: int, b: int): real {
    if shop.plan.None? || shop.startedAt.None? || FindPlan(shop.plan.value, 0).None? then 0.0
    else
      var end := if shop.churnedAt.Some? then Min(b, shop.churnedAt.value) else b;
      var start := Max(a, shop.startedAt.value);
      Prorated(PlanOf(shop.plan.value).price, Max(0, end - start))
  }

  function Prorated(price: int, running: int): real { price as real * running as real / MONTH as real }

  lemma ProratedAdds(price: int, m: int, n: int)
    ensures Prorated(price, m) + Prorated(price, n) == Prorated(price, m + n)
  {
    assert price as real * m as real + price as real * n as real == price as real * (m + n) as real;
  }

  // ---------------------------------------------------------------- the formulas against each other

  // How many instants of [a, b) the shop was on the plan.
  function InstantsOn(shop: Shop, code: string, a: int, b: int): (n: nat)
    decreases b - a
  {
    if a >= b then 0
    else InstantsOn(shop, code, a, b - 1) + if PlanAt(shop, b - 1) == code then 1 else 0
  }

  lemma {:induction false} InstantsAreOverlap(shop: Shop, code: string, a: int, b: int)
    requires shop.plan == Some(code) && code != FREE.code && shop.startedAt.Some?
    ensures InstantsOn(shop, code, a, b) ==
      Max(0, (if shop.churnedAt.Some? then Min(b, shop.churnedAt.value) else b) - Max(a, shop.startedAt.value))
    decreases b - a
  {
    if a < b {
      InstantsAreOverlap(shop, code, a, b - 1);
    }
  }

  lemma {:induction false} NeverOn(shop: Shop, code: string, a: int, b: int)
    requires forall t :: PlanAt(shop, t) != code
    ensures InstantsOn(shop, code, a, b) == 0
    decreases b - a
  {
    if a < b {
      NeverOn(shop, code, a, b - 1);
    }
  }

  /** For every stored shop and window: revenue is the price times the instants its plan was the plan. */
  lemma RevenueIsPaidTime(shop: Shop, a: int, b: int)
    requires shop.plan.Some?
    ensures RevenueIn(shop, a, b) == Prorated(PlanOf(shop.plan.value).price, InstantsOn(shop, shop.plan.value, a, b))
  {
    var code := shop.plan.value;
    Catalogue(code);
    if PlanOf(code).price > 0 {
      PaidPlans(code);
      if shop.startedAt.Some? {
        InstantsAreOverlap(shop, code, a, b);
      } else {
        NeverOn(shop, code, a, b);
      }
    }
  }

  lemma {:induction false} InstantsAdd(shop: Shop, code: string, a: int, b: int, c: int)
    requires a <= b <= c
    ensures InstantsOn(shop, code, a, b) + InstantsOn(shop, code, b, c) == InstantsOn(shop, code, a, c)
    decreases c - b
  {
    if b < c {
      InstantsAdd(shop, code, a, b, c - 1);
    }
  }

  /** Adjacent windows add up, so no report counts an instant twice or misses one. */
  lemma RevenueIsAdditive(shop: Shop, a: int, b: int, c: int)
    requires a <= b <= c
    ensures RevenueIn(shop, a, b) + RevenueIn(shop, b, c) == RevenueIn(shop, a, c)
  {
    if shop.plan.Some? {
      var code := shop.plan.value;
      RevenueIsPaidTime(shop, a, b);
      RevenueIsPaidTime(shop, b, c);
      RevenueIsPaidTime(shop, a, c);
      InstantsAdd(shop, code, a, b, c);
      ProratedAdds(PlanOf(code).price, InstantsOn(shop, code, a, b), InstantsOn(shop, code, b, c));
    }
  }

  /** Thirty days on a plan bring in its price, and the shop is on it from the moment it is bought. */
  lemma AMonthEarnsThePrice(shop: Shop, code: string, at: int)
    requires PlanOf(code).price > 0 && shop == Shop(Some(code), Some(at), None)
    ensures RevenueIn(shop, at, at + 30 * 24 * 60 * 60 * 1000) == PlanOf(code).price as real
    ensures CurrentPlan(shop) == PlanOf(code) && forall t :: PlanAt(shop, t) == if t < at then "free" else code
  {
    Catalogue(code);
    PaidPlans(code);
  }

  // ---------------------------------------------------------------- the steps

  datatype Payment = Payment(plan: string, amount: int, succeeded: bool)

  datatype Purchase = Purchase(code: string, at: int)

  // asking: requests for the free plan that have read a running paid plan. cancels, purchases: the
  // writes on their way to the database, each with the moment it was stamped.
  datatype State = State(
    shop: Shop, payments: seq<Payment>, now: int,
    asking: nat, cancels: multiset<int>, purchases: multiset<Purchase>)

  datatype Event =
    | Tick(ms: nat)
    | AskFree(free: string)
    | StampCancel
    | Charged(code: string, succeeded: bool)
    | CommitCancel(at: int)
    | CommitPurchase(purchase: Purchase)

  function Cancelled(shop: Shop, at: int): Shop { shop.(churnedAt := Some(at)) }

  function Subscribed(p: Purchase): Shop { Shop(Some(p.code), Some(p.at), None) }

  function Receipt(code: string, succeeded: bool): Payment { Payment(code, PlanOf(code).price, succeeded) }

  function Apply(s: State, e: Event): State {
    match e
    case Tick(ms) => s.(now := s.now + ms)
    // The free plan was asked for and the shop read: only a running paid plan will be cancelled.
    case AskFree(code) =>
      if PlanOf(code).price == 0 && CurrentPlan(s.shop).price > 0 then s.(asking := s.asking + 1) else s
    case StampCancel =>
      if s.asking == 0 then s else s.(asking := s.asking - 1, cancels := s.cancels + multiset{s.now})
    // The provider has answered a charge of the plan's price.
    case Charged(code, succeeded) =>
      if PlanOf(code).price == 0 then s
      else if succeeded then s.(purchases := s.purchases + multiset{Purchase(PlanOf(code).code, s.now)})
      else s.(payments := s.payments + [Receipt(PlanOf(code).code, false)])
    case CommitCancel(at) =>
      if at !in s.cancels then s
      else s.(shop := Cancelled(s.shop, at), cancels := s.cancels - multiset{at})
    case CommitPurchase(p) =>
      if p !in s.purchases then s
      else s.(shop := Subscribed(p), payments := s.payments + [Receipt(p.code, true)],
              purchases := s.purchases - multiset{p})
  }

  // A request nothing else interleaves with.
  lemma CancelNow(s: State, code: string)
    requires PlanOf(code).price == 0 && CurrentPlan(s.shop).price > 0
    ensures Apply(Apply(Apply(s, AskFree(code)), StampCancel), CommitCancel(s.now)) ==
      s.(shop := Cancelled(s.shop, s.now))
  {
    assert s.cancels + multiset{s.now} - multiset{s.now} == s.cancels;
  }

  lemma PurchaseNow(s: State, code: string)
    requires PlanOf(code).price > 0
    ensures PlanOf(code).code == code
    ensures Apply(Apply(s, Charged(code, true)), CommitPurchase(Purchase(code, s.now)))
      == s.(shop := Subscribed(Purchase(code, s.now)), payments := s.payments + [Receipt(code, true)])
  {
    PaidPlans(code);
    var p := Purchase(code, s.now);
    assert s.purchases + multiset{p} - multiset{p} == s.purchases;
  }

  function Run(s: State, events: seq<Event>): State
    decreases |events|
  {
    if events == [] then s else Apply(Run(s, events[..|events| - 1]), events[|events| - 1])
  }

  function Initial(now: int): State { State(NEW_SHOP, [], now, 0, multiset{}, multiset{}) }

  ghost predicate ShopOk(shop: Shop, now: int) {
    && (shop.plan.Some? <==> shop.startedAt.Some?)
    && (shop.plan.Some? ==> PlanOf(shop.plan.value).price > 0 && shop.startedAt.value <= now)
    && (shop.churnedAt.Some? ==> shop.plan.Some? && shop.churnedAt.value <= now)
  }

  ghost predicate CancelsOk(cancels: multiset<int>, subscribed: bool, now: int) {
    forall at :: at in cancels ==> at <= now && subscribed
  }

  ghost predicate PurchasesOk(purchases: multiset<Purchase>, now: int) {
    forall p :: p in purchases ==> p.at <= now && PlanOf(p.code).price > 0
  }

  ghost predicate Inv(s: State) {
    && ShopOk(s.shop, s.now) && (s.asking > 0 ==> s.shop.plan.Some?)
    && CancelsOk(s.cancels, s.shop.plan.Some?, s.now) && PurchasesOk(s.purchases, s.now)
  }

  lemma PurchaseAdded(purchases: multiset<Purchase>, now: int, code: string)
    requires PurchasesOk(purchases, now) && PlanOf(code).price > 0
    ensures PurchasesOk(purchases + multiset{Purchase(PlanOf(code).code, now)}, now)
  {
    PaidPlans(code);
  }

  lemma TimePasses(s: State, ms: nat)
    requires Inv(s)
    ensures Inv(s.(now := s.now + ms))
  {
  }

  lemma PurchaseCommits(s: State, p: Purchase)
    requires Inv(s) && p in s.purchases
    ensures Inv(Apply(s, CommitPurchase(p)))
  {
    assert forall q :: q in s.purchases - multiset{p} ==> q in s.purchases;
  }

  lemma ReadKeepsInv(s: State, code: string)
    requires Inv(s)
    ensures Inv(Apply(s, AskFree(code)))
  {
  }

  lemma StampKeepsInv(s: State)
    requires Inv(s)
    ensures Inv(Apply(s, StampCancel))
  {
  }

  lemma CancelCommits(s: State, at: int)
    requires Inv(s)
    ensures Inv(Apply(s, CommitCancel(at)))
  {
  }

  lemma ChargeKeepsInv(s: State, code: string, succeeded: bool)
    requires Inv(s)
    ensures Inv(Apply(s, Charged(code, succeeded)))
  {
    if PlanOf(code).price > 0 {
      PurchaseAdded(s.purchases, s.now, code);
    }
  }

  lemma StepKeepsInv(s: State, e: Event)
    requires Inv(s)
    ensures Inv(Apply(s, e))
  {
    match e
    case Tick(ms) => TimePasses(s, ms);
    case AskFree(code) => ReadKeepsInv(s, code);
    case StampCancel => StampKeepsInv(s);
    case Charged(code, succeeded) => ChargeKeepsInv(s, code, succeeded);
    case CommitCancel(at) => CancelCommits(s, at);
    case CommitPurchase(p) =>
      if p in s.purchases {
        PurchaseCommits(s, p);
      }
  }

  lemma {:induction false} RunKeepsInv(now: int, events: seq<Event>)
    ensures Inv(Run(Initial(now), events))
    decreases |events|
  {
    if events != [] {
      RunKeepsInv(now, events[..|events| - 1]);
      StepKeepsInv(Run(Initial(now), events[..|events| - 1]), events[|events| - 1]);
    }
  }

  /**
   * After any interleaving of requests, charges and commits, the merchant application and the back
   * office agree on the plan of this moment.
   */
  lemma BothViewsAgree(start: int, events: seq<Event>)
    ensures var s := Run(Initial(start), events);
      CurrentPlan(s.shop).code == PlanAt(s.shop, s.now)
  {
    RunKeepsInv(start, events);
    var s := Run(Initial(start), events);
    if s.shop.plan.Some? {
      PaidPlans(s.shop.plan.value);
    }
  }

  function Succeeded(payments: seq<Payment>): nat {
    if payments == [] then 0
    else Succeeded(payments[..|payments| - 1]) + if payments[|payments| - 1].succeeded then 1 else 0
  }

  // The step gives the shop a new paid period.
  predicate Starts(before: State, after: State) {
    after.shop != before.shop && after.shop.churnedAt.None?
  }

  /** A paid period starts only together with a succeeded payment of exactly that plan's price. */
  lemma StartsArePaid(s: State, e: Event)
    requires Inv(s)
    ensures var after := Apply(s, e);
      Starts(s, after) ==>
        && after.shop.plan.Some? && after.shop.startedAt.Some? && after.shop.startedAt.value <= after.now
        && after.payments == s.payments + [Receipt(after.shop.plan.value, true)]
        && CurrentPlan(after.shop) == PlanOf(after.shop.plan.value)
    ensures var after := Apply(s, e);
      CurrentPlan(after.shop) != CurrentPlan(s.shop) && CurrentPlan(after.shop).price > 0 ==> Starts(s, after)
    ensures s.payments <= Apply(s, e).payments
  {
    if e.CommitPurchase? && e.purchase in s.purchases {
      PaidPlans(e.purchase.code);
    }
  }

  // The charges of paid plans the provider accepted during the run.
  function Accepted(events: seq<Event>): nat {
    if events == [] then 0
    else Accepted(events[..|events| - 1]) + if IsAccepted(events[|events| - 1]) then 1 else 0
  }

  lemma SucceededAppends(payments: seq<Payment>, p: Payment)
    ensures Succeeded(payments + [p]) == Succeeded(payments) + if p.succeeded then 1 else 0
  {
    assert (payments + [p])[..|payments|] == payments;
  }

  // Succeeded payments and purchases still to commit.
  function Taken(s: State): nat { Succeeded(s.payments) + |s.purchases| }

  predicate IsAccepted(e: Event) { e.Charged? && e.succeeded && PlanOf(e.code).price > 0 }

  lemma ChargeTakes(s: State, code: string, succeeded: bool)
    ensures Taken(Apply(s, Charged(code, succeeded))) == Taken(s) + if IsAccepted(Charged(code, succeeded)) then 1 else 0
  {
    SucceededAppends(s.payments, Receipt(PlanOf(code).code, false));
  }

  lemma PurchaseTakes(s: State, p: Purchase)
    ensures Taken(Apply(s, CommitPurchase(p))) == Taken(s)
  {
    SucceededAppends(s.payments, Receipt(p.code, true));
  }

  lemma StepTakes(s: State, e: Event)
    ensures Taken(Apply(s, e)) == Taken(s) + if IsAccepted(e) then 1 else 0
  {
    match e
    case Tick(ms) =>
    case AskFree(code) =>
    case StampCancel =>
    case Charged(code, succeeded) => ChargeTakes(s, code, succeeded);
    case CommitCancel(at) =>
    case CommitPurchase(p) => PurchaseTakes(s, p);
  }

  /** Money taken is recorded: each accepted charge is one succeeded payment, or one purchase still to commit. */
  lemma {:induction false} ChargesAreConserved(now: int, events: seq<Event>)
    ensures Taken(Run(Initial(now), events)) == Accepted(events)
    decreases |events|
  {
    if events != [] {
      ChargesAreConserved(now, events[..|events| - 1]);
      StepTakes(Run(Initial(now), events[..|events| - 1]), events[|events| - 1]);
    }
  }

  // ---------------------------------------------------------------- history

  /**
   * A cancellation leaves the past as it was exactly when the plan was still running at that moment
   * (or had not begun): a late second cancellation moves the end of a period already over.
   */
  lemma CancelKeepsHistoryIff(shop: Shop, at: int)
    requires shop.plan.Some? && PlanOf(shop.plan.value).price > 0 && shop.startedAt.Some?
    ensures (forall t :: t < at ==> PlanAt(Cancelled(shop, at), t) == PlanAt(shop, t))
      <==> (shop.churnedAt.None? || shop.churnedAt.value >= at || shop.startedAt.value >= at)
    ensures forall t :: t >= at ==> PlanAt(Cancelled(shop, at), t) == FREE.code
  {
    PaidPlans(shop.plan.value);
    if shop.churnedAt.Some? && shop.churnedAt.value < at && shop.startedAt.value < at {
      var t := Max(shop.churnedAt.value, shop.startedAt.value);
      assert PlanAt(Cancelled(shop, at), t) != PlanAt(shop, t);
    }
  }

  // The paid period was never running before moment t.
  predicate NotYetPaid(shop: Shop, t: int) {
    shop.plan.None? || shop.startedAt.None? || shop.startedAt.value >= t
    || (shop.churnedAt.Some? && shop.churnedAt.value <= shop.startedAt.value)
  }

  /**
   * A purchase keeps the past exactly when there is none: an earlier paid period is forgotten, its
   * moments become free and its revenue nothing.
   */
  lemma PurchaseKeepsHistoryIff(shop: Shop, now: int, p: Purchase, a: int, b: int)
    requires ShopOk(shop, now) && p.at <= now && PlanOf(p.code).price > 0
    ensures (forall t :: t < p.at ==> PlanAt(Subscribed(p), t) == PlanAt(shop, t)) <==> NotYetPaid(shop, p.at)
    ensures forall t :: PlanAt(Subscribed(p), t) == if t < p.at then FREE.code else p.code
    ensures b <= p.at ==> RevenueIn(Subscribed(p), a, b) == 0.0
  {
    PaidPlans(p.code);
    if shop.plan.Some? {
      PaidPlans(shop.plan.value);
      var started := shop.startedAt.value;
      if !NotYetPaid(shop, p.at) {
        assert PlanAt(shop, started) == shop.plan.value != FREE.code;
        assert PlanAt(Subscribed(p), started) == FREE.code;
      }
    }
  }

  /** A cancellation leaves a purchase not one paid moment exactly when it was stamped no later than the purchase. */
  lemma CancelErasesPurchaseIff(p: Purchase, at: int)
    requires PlanOf(p.code).price > 0
    ensures (forall t :: PlanAt(Cancelled(Subscribed(p), at), t) == FREE.code) <==> at <= p.at
    ensures at <= p.at ==> forall a, b :: RevenueIn(Cancelled(Subscribed(p), at), a, b) == 0.0
    ensures CurrentPlan(Cancelled(Subscribed(p), at)) == FREE
  {
    PaidPlans(p.code);
    if at > p.at {
      assert PlanAt(Cancelled(Subscribed(p), at), p.at) == p.code;
    }
  }

  // Nobody asks for the free plan any more and no other purchase is stored.
  predicate LeftAlone(events: seq<Event>) {
    forall i :: 0 <= i < |events| ==> !events[i].AskFree? && !events[i].CommitPurchase?
  }

  // No request for the free plan is on its way.
  ghost predicate NoneLeaving(s: State) { s.asking == 0 && forall at :: at !in s.cancels }

  lemma {:induction false} NothingPending(s: State, events: seq<Event>)
    requires NoneLeaving(s) && LeftAlone(events)
    ensures Run(s, events).shop == s.shop && NoneLeaving(Run(s, events))
    decreases |events|
  {
    if events != [] {
      NothingPending(s, events[..|events| - 1]);
    }
  }

  lemma OneEvent(s: State, e: Event)
    ensures Run(s, [e]) == Apply(s, e)
  {
    assert [e][..0] == [];
    assert Run(s, []) == s;
  }

  // A cancellation on its way reaches the purchase.
  lemma PendingCancels(s: State) returns (events: seq<Event>)
    requires s.shop.churnedAt.None? && !NoneLeaving(s)
    ensures LeftAlone(events) && Run(s, events).shop.churnedAt.Some?
  {
    if at :| at in s.cancels {
      events := [CommitCancel(at)];
      OneEvent(s, CommitCancel(at));
    } else {
      events := [StampCancel] + [CommitCancel(s.now)];
      OneEvent(s, StampCancel);
      Next(s, [StampCancel], Apply(s, StampCancel), CommitCancel(s.now));
    }
  }

  /**
   * A purchase just paid for survives, whatever happens short of a new request, exactly when no
   * request for the free plan was on its way when it was stored.
   */
  lemma PurchaseSurvivesIff(s: State, p: Purchase)
    requires p in s.purchases
    ensures var bought := Apply(s, CommitPurchase(p));
      (forall events :: LeftAlone(events) ==> Run(bought, events).shop == Subscribed(p))
      <==> NoneLeaving(s)
  {
    var bought := Apply(s, CommitPurchase(p));
    if NoneLeaving(s) {
      forall events | LeftAlone(events) ensures Run(bought, events).shop == Subscribed(p) {
        NothingPending(bought, events);
      }
    } else {
      var events := PendingCancels(bought);
      assert Run(bought, events).shop != Subscribed(p);
    }
  }

  lemma Next(start: State, events: seq<Event>, s: State, e: Event)
    requires s == Run(start, events)
    ensures Run(start, events + [e]) == Apply(s, e)
  {
    assert (events + [e])[..|events|] == events;
  }

  lemma Pays(start: State, events: seq<Event>, s: State, code: string) returns (more: seq<Event>, after: State)
    requires s == Run(start, events) && PlanOf(code).price > 0
    ensures after == Run(start, more)
    ensures after == s.(shop := Subscribed(Purchase(code, s.now)), payments := s.payments + [Receipt(code, true)])
  {
    PurchaseNow(s, code);
    var charged := Apply(s, Charged(code, true));
    Next(start, events, s, Charged(code, true));
    Next(start, events + [Charged(code, true)], charged, CommitPurchase(Purchase(code, s.now)));
    more := events + [Charged(code, true)] + [CommitPurchase(Purchase(code, s.now))];
    after := Apply(charged, CommitPurchase(Purchase(code, s.now)));
  }

  lemma Waits(start: State, events: seq<Event>, s: State, ms: nat) returns (more: seq<Event>, after: State)
    requires s == Run(start, events)
    ensures after == Run(start, more) && after == s.(now := s.now + ms)
  {
    Next(start, events, s, Tick(ms));
    more, after := events + [Tick(ms)], Apply(s, Tick(ms));
  }

  // A shop two milliseconds into a paid plan.
  lemma PaidAtTwo(code: string) returns (events: seq<Event>, s: State)
    requires PlanOf(code).price > 0
    ensures s == Run(Initial(0), events)
    ensures s.shop == Shop(Some(code), Some(0), None) && s.now == 2 && s.asking == 0 && s.cancels == multiset{}
  {
    events, s := Pays(Initial(0), [], Initial(0), code);
    events, s := Waits(Initial(0), events, s, 2);
  }

  // One more request that reads the running plan, and its stamp.
  lemma Asks(start: State, events: seq<Event>, s: State, free: string) returns (more: seq<Event>, after: State)
    requires s == Run(start, events) && PlanOf(free).price == 0 && CurrentPlan(s.shop).price > 0
    ensures after == Run(start, more) && after == s.(asking := s.asking + 1)
  {
    Next(start, events, s, AskFree(free));
    more, after := events + [AskFree(free)], Apply(s, AskFree(free));
  }

  lemma Stamps(start: State, events: seq<Event>, s: State) returns (more: seq<Event>, after: State)
    requires s == Run(start, events) && s.asking > 0
    ensures after == Run(start, more) && after == s.(asking := s.asking - 1, cancels := s.cancels + multiset{s.now})
  {
    Next(start, events, s, StampCancel);
    more, after := events + [StampCancel], Apply(s, StampCancel);
  }

  lemma Commits(start: State, events: seq<Event>, s: State, at: int) returns (after: State)
    requires s == Run(start, events) && at in s.cancels
    ensures after == Run(start, events + [CommitCancel(at)])
    ensures after == s.(shop := Cancelled(s.shop, at), cancels := s.cancels - multiset{at})
  {
    Next(start, events, s, CommitCancel(at));
    after := Apply(s, CommitCancel(at));
  }

  // Both requests read the running plan; the first is committed at 2, the second is stamped at 4.
  lemma TwoCancellations(code: string, free: string) returns (events: seq<Event>, s: State)
    requires PlanOf(code).price > 0 && PlanOf(free).price == 0
    ensures s == Run(Initial(0), events) && s.shop == Shop(Some(code), Some(0), Some(2)) && 4 in s.cancels
  {
    PaidPlans(code);
    events, s := PaidAtTwo(code);
    events, s := Asks(Initial(0), events, s, free);
    events, s := Stamps(Initial(0), events, s);
    events, s := Asks(Initial(0), events, s, free);
    var committed := Commits(Initial(0), events, s, 2);
    events := events + [CommitCancel(2)];
    events, s := Waits(Initial(0), events, committed, 2);
    events, s := Stamps(Initial(0), events, s);
  }

  /**
   * The moved history is reached: after two requests that overlap, a moment that was free once the
   * plan was cancelled is paid for again.
   */
  lemma SecondCancellationMovesThePast(code: string, free: string) returns (events: seq<Event>)
    requires PlanOf(code).price > 0 && PlanOf(free).price == 0
    ensures PlanAt(Run(Initial(0), events).shop, 3) == FREE.code
    ensures PlanAt(Run(Initial(0), events + [CommitCancel(4)]).shop, 3) == code != FREE.code
  {
    PaidPlans(code);
    var s;
    events, s := TwoCancellations(code, free);
    var after := Commits(Initial(0), events, s, 4);
  }

  // A request for the free plan is stamped at 0 and stored after the second plan was paid for at 2.
  lemma LateCancellation(first: string, second: string, free: string) returns (events: seq<Event>, s: State)
    requires PlanOf(first).price > 0 && PlanOf(second).price > 0 && PlanOf(free).price == 0
    ensures s == Run(Initial(0), events) && s.payments == [Receipt(first, true), Receipt(second, true)]
    ensures s.shop == Subscribed(Purchase(second, 2)) && 0 in s.cancels
  {
    PaidPlans(first);
    events, s := Pays(Initial(0), [], Initial(0), first);
    assert s.payments == [Receipt(first, true)];
    events, s := Asks(Initial(0), events, s, free);
    events, s := Stamps(Initial(0), events, s);
    events, s := Waits(Initial(0), events, s, 2);
    events, s := Pays(Initial(0), events, s, second);
  }

  /** Two plans are paid for, and the shop is on the free one, as if the second had never run. */
  lemma PaidPurchaseIsLost(first: string, second: string, free: string) returns (events: seq<Event>)
    requires PlanOf(first).price > 0 && PlanOf(second).price > 0 && PlanOf(free).price == 0
    ensures var s := Run(Initial(0), events);
      && s.payments == [Receipt(first, true), Receipt(second, true)]
      && CurrentPlan(s.shop) == FREE && forall t :: PlanAt(s.shop, t) == FREE.code
  {
    var s;
    events, s := LateCancellation(first, second, free);
    var after := Commits(Initial(0), events, s, 0);
    events := events + [CommitCancel(0)];
    CancelErasesPurchaseIff(Purchase(second, 2), 0);
  }
}

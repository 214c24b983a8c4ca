/**
 * The price shown on each plan card of `components/pricing.tsx`, the
 * annual-bill line and the monthly/yearly toggle.
 */
module Pricing {
  import opened Wrappers

  datatype BillingCycle = Monthly | Yearly

  /** What a card shows: a whole-dollar amount per month, or the word "Custom". */
  datatype Shown = Amount(dollars: int) | Custom

  datatype Plan = Plan(name: string, monthlyPrice: Option<int>)

  const Plans := [Plan("Starter", Some(29)), Plan("Pro", Some(79)), Plan("Enterprise", None)]

  /**
   * `Math.round(p * 0.8)` for a whole-dollar `p`: the nearest integer to
   * 8p/10, which is never exactly halfway between two integers.
   */
  function YearlyMonthly(p: int): int
  {
    (8 * p + 5) / 10
  }

  /** `displayPrice`: a missing or zero price shows "Custom". */
  function DisplayPrice(monthlyPrice: Option<int>, cycle: BillingCycle): Shown
  {
    if monthlyPrice.None? || monthlyPrice.value == 0 then Custom
    else if cycle == Monthly then Amount(monthlyPrice.value)
    else Amount(YearlyMonthly(monthlyPrice.value))
  }

  /** Whether the "/month" suffix follows the price. */
  predicate ShowsPerMonth(shown: Shown) { shown.Amount? }

  /** The "Billed annually ($N/year)" line, shown only for a yearly numeric price. */
  function AnnualBill(monthlyPrice: Option<int>, cycle: BillingCycle): Option<int>
  {
    var shown := DisplayPrice(monthlyPrice, cycle);
    if cycle == Yearly && shown.Amount? then Some(shown.dollars * 12) else None
  }

  /** The toggle's next cycle. */
  function Toggled(cycle: BillingCycle): BillingCycle
  {
    if cycle == Monthly then Yearly else Monthly
  }

  function Distance(a: int, b: int): nat { if a < b then b - a else a - b }

  /** A missing or zero price shows "Custom" in both cycles, with no suffix and no annual bill. */
  lemma CustomPrice(monthlyPrice: Option<int>, cycle: BillingCycle)
    requires monthlyPrice.None? || monthlyPrice.value == 0
    ensures DisplayPrice(monthlyPrice, cycle) == Custom
    ensures !ShowsPerMonth(DisplayPrice(monthlyPrice, cycle))
    ensures AnnualBill(monthlyPrice, cycle).None?
  {
  }

  /** The monthly cycle shows the monthly price itself. */
  lemma MonthlyShowsPrice(p: int)
    requires p != 0
    ensures DisplayPrice(Some(p), Monthly) == Amount(p)
    ensures AnnualBill(Some(p), Monthly).None?
  {
  }

  /**
   * The yearly cycle shows the integer nearest to 80% of the monthly price:
   * ten times it lies strictly within 5 of 8p, and no other integer `q` is
   * closer. For a positive price it is never above the monthly price.
   */
  lemma YearlyIsNearest(p: int, q: int)
    requires p != 0
    ensures DisplayPrice(Some(p), Yearly).Amount?
    ensures var r := DisplayPrice(Some(p), Yearly).dollars;
      && Distance(10 * r, 8 * p) < 5
      && Distance(10 * r, 8 * p) <= Distance(10 * q, 8 * p)
      && (p > 0 ==> 0 <= r <= p)
  {
    var r := YearlyMonthly(p);
    assert 10 * r <= 8 * p + 5 < 10 * r + 10;
    assert 10 * r != 8 * p + 5 by {
      assert (8 * p + 5) % 2 == 1;
    }
    if q < r {
      assert 10 * q <= 10 * r - 10;
    } else if q > r {
      assert 10 * q >= 10 * r + 10;
    }
  }

  /** The annual bill is twelve times the yearly price shown, and appears only then. */
  lemma AnnualBillIsTwelveMonths(monthlyPrice: Option<int>, cycle: BillingCycle)
    ensures AnnualBill(monthlyPrice, cycle).Some? <==>
      cycle == Yearly && monthlyPrice.Some? && monthlyPrice.value != 0
    ensures AnnualBill(monthlyPrice, cycle).Some? ==>
      AnnualBill(monthlyPrice, cycle).value == 12 * YearlyMonthly(monthlyPrice.value)
  {
  }

  /** Starter ($29) and Pro ($79) show $23 and $63 per month yearly, billed $276 and $756. */
  lemma PlanExamples()
    ensures DisplayPrice(Plans[0].monthlyPrice, Yearly) == Amount(23) && AnnualBill(Plans[0].monthlyPrice, Yearly) == Some(276)
    ensures DisplayPrice(Plans[1].monthlyPrice, Yearly) == Amount(63) && AnnualBill(Plans[1].monthlyPrice, Yearly) == Some(756)
    ensures DisplayPrice(Plans[2].monthlyPrice, Monthly) == Custom
  {
  }

  /** The toggle always changes the cycle, and two presses restore it. */
  lemma ToggleInvolution(cycle: BillingCycle)
    ensures Toggled(cycle) != cycle && Toggled(Toggled(cycle)) == cycle
  {
  }

  /** The pricing section's one piece of state, `billingCycle`. */
  class PricingSection {
    var billingCycle: BillingCycle

    constructor ()
      ensures billingCycle == Monthly
    {
      billingCycle := Monthly;
    }

    /** The toggle button's `onClick`. */
    method Toggle()
      modifies this
      ensures billingCycle == Toggled(old(billingCycle))
      ensures forall plan :: ShownFor(plan) == DisplayPrice(plan.monthlyPrice, Toggled(old(billingCycle)))
    {
      billingCycle := if billingCycle == Monthly then Yearly else Monthly;
    }

    /** What the card of `plan` shows in the current cycle. */
    function ShownFor(plan: Plan): Shown
      reads this
    {
      DisplayPrice(plan.monthlyPrice, billingCycle)
    }
  }
}

/** The pricing page: a Monthly/Annual switch and three plan cards whose prices
    depend on the switch. */
module Pricing {
  import opened Sequences

  /** A plan's price: a number of dollars per month, or the word "Custom". */
  datatype Price = Dollars(amount: nat) | Custom

  /** The parts of a plan card that depend on the billing mode, and its badge. */
  datatype Plan = Plan(name: string, price: Price, originalPrice: Option<nat>, popular: bool)

  /** The plan cards in page order for one position of the switch; the numeric
      plans show a struck-through original price in both modes. */
  function Plans(isAnnual: bool): (plans: seq<Plan>)
    ensures |plans| == 3
    ensures forall k :: 0 <= k < |plans| ==> (plans[k].price.Dollars? <==> plans[k].originalPrice.Some?)
  {
    [
      Plan("Starter", Dollars(if isAnnual then 79 else 99), Some(if isAnnual then 99 else 119), false),
      Plan("Professional", Dollars(if isAnnual then 399 else 499), Some(if isAnnual then 499 else 599), true),
      Plan("Enterprise", Custom, None, false)
    ]
  }

  /** Starter and Professional cost less per month when billed annually. */
  lemma AnnualIsCheaper()
    ensures forall k :: 0 <= k < 2 ==>
      Plans(true)[k].price.Dollars? && Plans(false)[k].price.Dollars?
      && Plans(true)[k].price.amount < Plans(false)[k].price.amount
    ensures Plans(true)[0].price == Dollars(79) && Plans(false)[0].price == Dollars(99)
    ensures Plans(true)[1].price == Dollars(399) && Plans(false)[1].price == Dollars(499)
  {
  }

  /** In annual mode the struck-through price is exactly the monthly-mode price. */
  lemma AnnualOriginalIsMonthlyPrice()
    ensures forall k :: 0 <= k < 2 ==>
      Plans(true)[k].originalPrice == Some(Plans(false)[k].price.amount)
  {
  }

  /** The annual price is at most 80% of the monthly one, which backs "Save 20%". */
  lemma AnnualSavesTwentyPercent()
    ensures forall k :: 0 <= k < 2 ==>
      5 * Plans(true)[k].price.amount <= 4 * Plans(false)[k].price.amount
  {
  }

  /** Enterprise shows "Custom" in both modes and has no original price. */
  lemma EnterpriseIsCustom(isAnnual: bool)
    ensures Plans(isAnnual)[2].name == "Enterprise"
    ensures Plans(isAnnual)[2].price == Custom && Plans(isAnnual)[2].originalPrice == None
  {
  }

  function IsPopular(p: Plan): bool
  {
    p.popular
  }

  /** Exactly one plan, Professional, carries the "Most Popular" badge, in either mode. */
  lemma OnePopularPlan(isAnnual: bool)
    ensures Filter(Plans(isAnnual), IsPopular) == [Plans(isAnnual)[1]]
    ensures Plans(isAnnual)[1].name == "Professional"
  {
    var plans := Plans(isAnnual);
    assert plans == [plans[0]] + ([plans[1]] + [plans[2]]);
    FilterConcat([plans[0]], [plans[1]] + [plans[2]], IsPopular);
    FilterConcat([plans[1]], [plans[2]], IsPopular);
  }

  /** The "Save 20%" badge is rendered only in annual mode, and whenever it is shown
      each numeric plan costs at most 80% of the struck-through price beside it. */
  function ShowsSaveBadge(isAnnual: bool): (shown: bool)
    ensures shown <==> isAnnual
    ensures shown ==> forall k :: 0 <= k < 2 ==>
      && Plans(isAnnual)[k].originalPrice.Some?
      && 5 * Plans(isAnnual)[k].price.amount <= 4 * Plans(isAnnual)[k].originalPrice.value
  {
    isAnnual
  }

  /** The page's billing switch. */
  class PricingPage {
    var isAnnual: bool

    /** The page opens in monthly mode. */
    constructor ()
      ensures !isAnnual
      ensures ShownPlans() == Plans(false)
    {
      isAnnual := false;
    }

    /** Clicking the switch flips the billing mode; clicking it twice restores it. */
    method ToggleBilling()
      modifies this
      ensures isAnnual == !old(isAnnual)
      ensures ShownPlans() == Plans(!old(isAnnual))
    {
      isAnnual := !isAnnual;
    }

    /** The cards the page currently shows. */
    function ShownPlans(): (plans: seq<Plan>)
      reads this
      ensures |plans| == 3
      ensures plans[0].price == Dollars(if isAnnual then 79 else 99)
      ensures plans[1].price == Dollars(if isAnnual then 399 else 499)
      ensures plans[2].price == Custom
    {
      Plans(isAnnual)
    }
  }
}

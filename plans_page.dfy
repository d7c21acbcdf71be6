/** The public plan list (src/pages/PlansPage.tsx): the display defaults
    applied to each plan card. */
module PlansPage {
  import opened Wrappers
  import opened Types
  import CheckoutPage

  datatype PlanCard = PlanCard(
    name: string,
    description: Option<string>,
    features: seq<string>,
    showPlaceholder: bool,
    frequencyLabel: string,
    tuneUpsPerYear: int,
    discountPercentage: real,
    mostPopular: bool,
    priorityLine: bool,
    checkoutPath: string)

  /** `billing_frequency || 'annual'`. */
  function BillingFrequency(plan: MaintenancePlan): (f: string)
    ensures f == "annual" <==> plan.billingFrequency.None? || plan.billingFrequency.value in {"", "annual"}
    ensures f != "annual" ==> plan.billingFrequency == Some(f)
  {
    if plan.billingFrequency.Some? && plan.billingFrequency.value != "" then plan.billingFrequency.value
    else "annual"
  }

  /** One card of `plans.map(...)`. The features are the stored list, or none
      when the stored value is not an array, and the placeholder "Details
      coming soon." appears exactly when there are none; the price reads
      "/year" for annual billing (the default) and "/semi-annual" for any
      other; tune-ups default to 2 only when missing (0 is shown as 0);
      the discount defaults to 0; the "Most Popular" badge and the priority
      line both follow `priority_service`; the description appears only when
      it is non-empty. */
  function Card(plan: MaintenancePlan): (c: PlanCard)
    ensures c.name == plan.name
    ensures c.features == plan.features.GetOr([])
    ensures c.showPlaceholder <==> c.features == []
    ensures c.frequencyLabel == "year" <==> BillingFrequency(plan) == "annual"
    ensures c.frequencyLabel != "year" ==> c.frequencyLabel == "semi-annual"
    ensures plan.tuneUpsPerYear.Some? ==> c.tuneUpsPerYear == plan.tuneUpsPerYear.value
    ensures plan.tuneUpsPerYear.None? ==> c.tuneUpsPerYear == 2
    ensures c.discountPercentage == plan.discountPercentage.GetOr(0.0)
    ensures c.mostPopular == plan.priorityService && c.priorityLine == plan.priorityService
    ensures c.description.Some? <==> plan.description.Some? && plan.description.value != ""
    ensures c.description.Some? ==> c.description == plan.description
    ensures c.checkoutPath == "/checkout/" + plan.id
  {
    var features := if plan.features.Some? then plan.features.value else [];
    PlanCard(
      plan.name,
      if plan.description.Some? && plan.description.value != "" then plan.description else None,
      features,
      |features| == 0,
      if BillingFrequency(plan) == "annual" then "year" else "semi-annual",
      plan.tuneUpsPerYear.GetOr(2),
      plan.discountPercentage.GetOr(0.0),
      plan.priorityService,
      plan.priorityService,
      "/checkout/" + plan.id)
  }

  /** What the plan section shows: a "No plans found" note for an empty
      list, else one card per plan in the fetched order. */
  datatype PlansView = NoPlansFound | PlanGrid(cards: seq<PlanCard>)

  function View(plans: seq<MaintenancePlan>): (v: PlansView)
    ensures v.NoPlansFound? <==> plans == []
    ensures v.PlanGrid? ==> |v.cards| == |plans| && forall i :: 0 <= i < |plans| ==> v.cards[i] == Card(plans[i])
  {
    if plans == [] then NoPlansFound else PlanGrid(seq(|plans|, i requires 0 <= i < |plans| => Card(plans[i])))
  }

  /** The plan page and the checkout disagree on a plan with 0 yearly
      tune-ups: the card shows 0 while a purchase grants 2. For any other
      stored count they agree, and a missing count reads 2 on both. */
  lemma TuneUpsShownVersusGranted(plan: MaintenancePlan)
    ensures plan.tuneUpsPerYear == Some(0) ==>
              Card(plan).tuneUpsPerYear == 0 && CheckoutPage.TuneUpAllowance(Some(plan)) == 2
    ensures plan.tuneUpsPerYear != Some(0) ==>
              Card(plan).tuneUpsPerYear == CheckoutPage.TuneUpAllowance(Some(plan))
  {
  }
}

/** The public pricing section: starts from its own default plans and replaces
    them with the stored plans when there are any. */
module Pricing {
  import opened Wrappers
  import opened Content
  import AdminPricing

  /** The section's own copy of the default plans. */
  const InitialPlans: seq<Plan> := [
    Plan("1", "Basic", 199, "Perfect for small events and personal portraits",
         ["2-hour photo session", "50 edited digital photos", "Online gallery",
          "Personal use license", "1 photographer"],
         ["Printed photos", "Express delivery", "Multiple locations"],
         false, Neutral),
    Plan("2", "Premium", 499, "Ideal for weddings and special celebrations",
         ["6-hour photo session", "200 edited digital photos", "Online gallery",
          "Personal use license", "2 photographers", "Printed photo album (20 pages)",
          "Multiple locations"],
         ["Express delivery"],
         true, Amber),
    Plan("3", "Professional", 999, "Complete coverage for major events",
         ["Full-day photo session (10 hours)", "500+ edited digital photos", "Online gallery",
          "Commercial use license", "2 photographers", "Deluxe printed photo album (40 pages)",
          "Multiple locations", "Express delivery (3 days)", "Drone aerial photography"],
         [],
         false, Neutral)
  ]

  /** The public defaults and the admin editor's defaults agree field for field. */
  lemma DefaultsMatchAdmin()
    ensures InitialPlans == AdminPricing.DefaultPlans
  {
  }

  /** Exactly one default plan is marked popular: "Premium" (id "2"), the only
      one with the amber theme. */
  lemma OnePopularDefault()
    ensures forall k :: 0 <= k < |InitialPlans| ==>
      (InitialPlans[k].popular <==> InitialPlans[k].id == "2")
    ensures forall k :: 0 <= k < |InitialPlans| ==>
      (InitialPlans[k].popular <==> InitialPlans[k].color == Amber)
  {
  }

  class PricingSection {
    const store: LocalStorage
    var plans: seq<Plan>

    constructor (store: LocalStorage)
      ensures this.store == store
      ensures plans == InitialPlans
    {
      this.store := store;
      plans := InitialPlans;
    }

    /** The mount effect: the stored plans replace the current ones when the key is
        present; otherwise nothing changes. The store is only read. */
    method Mount()
      modifies this`plans
      ensures plans == old(store.pricing).GetOr(old(plans))
    {
      if store.pricing.Some? {
        plans := store.pricing.value;
      }
    }
  }
}

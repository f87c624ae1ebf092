/** The admin pricing editor: the plan list, one draft plan that the add and the
    edit buttons both open, the two draft list inputs, and the write-back of the
    whole list to local storage. */
module AdminPricing {
  import opened Wrappers
  import opened Content
  import opened Collections
  import opened Text

  /** The three plans the editor seeds an empty store with. */
  const DefaultPlans: seq<Plan> := [
    Plan("1", "Basic", 199, "Perfect for small events and personal portraits",
         ["2-hour photo session", "50 edited digital photos", "Online gallery",
          "Personal use license", "1 photographer"],
         ["Printed photos", "Express delivery", "Multiple locations"],
         false, Neutral),
    Plan("2", "Premium", 499, "Ideal for weddings and special celebrations",
         ["6-hour photo session", "200 edited digital photos", "Online gallery",
          "Personal use license", "2 photographers", "Printed photo album (20 pages)",
          "Multiple locations"],
         ["Express delivery"],
         true, Amber),
    Plan("3", "Professional", 999, "Complete coverage for major events",
         ["Full-day photo session (10 hours)", "500+ edited digital photos", "Online gallery",
          "Commercial use license", "2 photographers", "Deluxe printed photo album (40 pages)",
          "Multiple locations", "Express delivery (3 days)", "Drone aerial photography"],
         [],
         false, Neutral)
  ]

  /** The seeded defaults carry the identifiers "1", "2" and "3", one each. */
  lemma DefaultPlansIds()
    ensures |DefaultPlans| == 3
    ensures forall k :: 0 <= k < 3 ==> DefaultPlans[k].id == DecimalString(k + 1)
    ensures UniqueIds(DefaultPlans, PlanId)
  {
  }

  /** The marker the save handler looks for in a draft's identifier to tell a
      new package from an existing one. */
  const NewMarker := "new-"

  /** The draft "Add New Package" opens, with the timestamp identifier of `now`. */
  function NewPackageDraft(now: nat): (d: Plan)
    ensures !Includes(d.id, NewMarker)
  {
    TimestampLacksNewMarker(now);
    Plan(DecimalString(now), "New Package", 0, "Package description", ["Feature 1"], [], false, Neutral)
  }

  /** The plan list after saving `draft`: a draft whose identifier lacks the marker
      replaces the plans with its identifier; one that has it is appended under the
      fresh timestamp identifier of `now`. */
  function SavedPlans(plans: seq<Plan>, draft: Plan, now: nat): (r: seq<Plan>)
    ensures Includes(draft.id, NewMarker) ==>
      |r| == |plans| + 1 && r[..|plans|] == plans && r[|plans|] == draft.(id := DecimalString(now))
    ensures !Includes(draft.id, NewMarker) ==> |r| == |plans|
  {
    if !Includes(draft.id, NewMarker) then ReplaceById(plans, PlanId, draft)
    else plans + [draft.(id := DecimalString(now))]
  }

  /** Saving an existing plan's edited copy puts the copy in its place and keeps
      every other plan. */
  lemma SaveExistingReplaces(plans: seq<Plan>, draft: Plan, now: nat)
    requires !Includes(draft.id, NewMarker)
    ensures forall k :: 0 <= k < |plans| ==>
      SavedPlans(plans, draft, now)[k] == (if plans[k].id == draft.id then draft else plans[k])
  {
    ReplaceByIdAt(plans, PlanId, draft);
  }

  /** The draft "Add New Package" opens is never appended on save: saving takes
      the replace branch, which leaves the list as it was unless some plan already
      has that timestamp as its identifier. */
  lemma SaveNewPackageKeepsPlans(plans: seq<Plan>, t: nat, draft: Plan, now: nat)
    requires draft.id == NewPackageDraft(t).id
    requires !HasId(plans, PlanId, draft.id)
    ensures SavedPlans(plans, draft, now) == plans
  {
    TimestampLacksNewMarker(t);
    ReplaceByIdAbsent(plans, PlanId, draft);
  }

  /** The draft with `s` appended to its included features, if there is a draft
      and `s` is non-empty. */
  function WithFeature(draft: Option<Plan>, s: string): (r: Option<Plan>)
    ensures r.Some? <==> draft.Some?
    ensures r.Some? ==> r.value.id == draft.value.id && r.value.notIncluded == draft.value.notIncluded
    ensures r.Some? ==> s in r.value.features || s == ""
  {
    if draft.None? || s == "" then draft
    else Some(draft.value.(features := draft.value.features + [s]))
  }

  /** The draft with `s` appended to its excluded features, if there is a draft
      and `s` is non-empty. */
  function WithNotIncluded(draft: Option<Plan>, s: string): (r: Option<Plan>)
    ensures r.Some? <==> draft.Some?
    ensures r.Some? ==> r.value.id == draft.value.id && r.value.features == draft.value.features
    ensures r.Some? ==> s in r.value.notIncluded || s == ""
  {
    if draft.None? || s == "" then draft
    else Some(draft.value.(notIncluded := draft.value.notIncluded + [s]))
  }

  /** Appending a feature adds exactly one entry at the end of `features` and
      touches nothing else; no draft or an empty input leaves the draft alone. */
  lemma WithFeatureAppends(draft: Option<Plan>, s: string)
    ensures draft.None? || s == "" ==> WithFeature(draft, s) == draft
    ensures draft.Some? && s != "" ==>
      var d, r := draft.value, WithFeature(draft, s).value;
      && |r.features| == |d.features| + 1
      && r.features[..|d.features|] == d.features
      && r.features[|d.features|] == s
      && r.(features := d.features) == d
  {
  }

  /** The same for the excluded features. */
  lemma WithNotIncludedAppends(draft: Option<Plan>, s: string)
    ensures draft.None? || s == "" ==> WithNotIncluded(draft, s) == draft
    ensures draft.Some? && s != "" ==>
      var d, r := draft.value, WithNotIncluded(draft, s).value;
      && |r.notIncluded| == |d.notIncluded| + 1
      && r.notIncluded[..|d.notIncluded|] == d.notIncluded
      && r.notIncluded[|d.notIncluded|] == s
      && r.(notIncluded := d.notIncluded) == d
  {
  }

  class PricingEditor {
    const store: LocalStorage
    var plans: seq<Plan>
    /** The plan in the add/edit form: a copy of an existing plan or a new draft. */
    var editingPlan: Option<Plan>
    var showAddForm: bool
    var newFeature: string
    var newNotIncluded: string

    /** The store's pricing entry mirrors the list. */
    ghost predicate Persisted()
      reads this, store
    {
      store.pricing == Some(plans)
    }

    /** The form is rendered only when it is open and holds a draft. */
    predicate FormShown()
      reads this
    {
      showAddForm && editingPlan.Some?
    }

    /** The state of the first render, before the mount effect has run. */
    constructor (store: LocalStorage)
      ensures this.store == store
      ensures plans == [] && editingPlan == None && !showAddForm
      ensures newFeature == "" && newNotIncluded == ""
    {
      this.store := store;
      plans, editingPlan, showAddForm := [], None, false;
      newFeature, newNotIncluded := "", "";
    }

    /** The mount effect: adopt the stored list verbatim, or seed the defaults
        when the key is absent; in both cases the store then holds the list. */
    method Mount()
      modifies this`plans, store`pricing
      ensures old(store.pricing).Some? ==> plans == old(store.pricing).value
      ensures old(store.pricing).None? ==> plans == DefaultPlans
      ensures Persisted()
    {
      plans := store.pricing.GetOr(DefaultPlans);
      store.pricing := Some(plans);
    }

    /** "Add New Package": opens the form on a fresh draft. */
    method AddPlan(now: nat)
      modifies this`editingPlan, this`showAddForm
      ensures editingPlan == Some(NewPackageDraft(now)) && showAddForm
    {
      editingPlan := Some(NewPackageDraft(now));
      showAddForm := true;
    }

    /** Opens the form on a copy of an existing plan. */
    method EditPlan(plan: Plan)
      modifies this`editingPlan, this`showAddForm
      ensures editingPlan == Some(plan) && showAddForm
    {
      editingPlan := Some(plan);
      showAddForm := true;
    }

    /** The save button: stores the draft as `SavedPlans` says and closes the form.
        Without a draft nothing happens. */
    method SaveNewPlan(now: nat)
      modifies this`plans, this`editingPlan, this`showAddForm, store`pricing
      ensures old(editingPlan).None? ==> unchanged(this) && unchanged(store)
      ensures old(editingPlan).Some? ==>
        && plans == SavedPlans(old(plans), old(editingPlan).value, now)
        && editingPlan == None && !showAddForm
        && Persisted()
    {
      if editingPlan.None? {
        return;
      }
      plans := SavedPlans(plans, editingPlan.value, now);
      editingPlan := None;
      showAddForm := false;
      store.pricing := Some(plans);
    }

    /** The close icon and the Cancel button: both drop the draft and hide the form. */
    method CancelEdit()
      modifies this`editingPlan, this`showAddForm
      ensures editingPlan == None && !showAddForm
    {
      editingPlan := None;
      showAddForm := false;
    }

    /** Removes every plan with identifier `id`. */
    method DeletePlan(id: string)
      modifies this`plans, store`pricing
      ensures plans == RemoveById(old(plans), PlanId, id)
      ensures Persisted()
    {
      plans := RemoveById(plans, PlanId, id);
      store.pricing := Some(plans);
    }

    // The form's inputs exist only while the form shows a draft.

    method SetName(v: string)
      requires editingPlan.Some?
      modifies this`editingPlan
      ensures editingPlan == Some(old(editingPlan).value.(name := v))
    {
      editingPlan := Some(editingPlan.value.(name := v));
    }

    /** `v` is the integer the price input parsed to (0 when it did not parse). */
    method SetPrice(v: int)
      requires editingPlan.Some?
      modifies this`editingPlan
      ensures editingPlan == Some(old(editingPlan).value.(price := v))
    {
      editingPlan := Some(editingPlan.value.(price := v));
    }

    method SetDescription(v: string)
      requires editingPlan.Some?
      modifies this`editingPlan
      ensures editingPlan == Some(old(editingPlan).value.(description := v))
    {
      editingPlan := Some(editingPlan.value.(description := v));
    }

    method SetPopular(v: bool)
      requires editingPlan.Some?
      modifies this`editingPlan
      ensures editingPlan == Some(old(editingPlan).value.(popular := v))
    {
      editingPlan := Some(editingPlan.value.(popular := v));
    }

    method SetColor(v: Color)
      requires editingPlan.Some?
      modifies this`editingPlan
      ensures editingPlan == Some(old(editingPlan).value.(color := v))
    {
      editingPlan := Some(editingPlan.value.(color := v));
    }

    method SetNewFeature(v: string)
      modifies this`newFeature
      ensures newFeature == v
    {
      newFeature := v;
    }

    method SetNewNotIncluded(v: string)
      modifies this`newNotIncluded
      ensures newNotIncluded == v
    {
      newNotIncluded := v;
    }

    /** Appends the feature input to the draft's features and clears the input;
        no draft or an empty input changes nothing. */
    method AddFeature()
      modifies this`editingPlan, this`newFeature
      ensures old(editingPlan).None? || old(newFeature) == "" ==> unchanged(this)
      ensures old(editingPlan).Some? && old(newFeature) != "" ==>
        editingPlan == WithFeature(old(editingPlan), old(newFeature)) && newFeature == ""
    {
      if editingPlan.None? || newFeature == "" {
        return;
      }
      editingPlan := WithFeature(editingPlan, newFeature);
      newFeature := "";
    }

    /** Removes the draft's feature at `index`, as `splice(index, 1)` does. */
    method RemoveFeature(index: int)
      modifies this`editingPlan
      ensures old(editingPlan).None? ==> editingPlan == None
      ensures old(editingPlan).Some? ==>
        editingPlan == Some(old(editingPlan).value.(features := SpliceOne(old(editingPlan).value.features, index)))
    {
      if editingPlan.None? {
        return;
      }
      var features := SpliceOne(editingPlan.value.features, index);
      editingPlan := Some(editingPlan.value.(features := features));
    }

    /** Appends the excluded-feature input to the draft and clears the input;
        no draft or an empty input changes nothing. */
    method AddNotIncluded()
      modifies this`editingPlan, this`newNotIncluded
      ensures old(editingPlan).None? || old(newNotIncluded) == "" ==> unchanged(this)
      ensures old(editingPlan).Some? && old(newNotIncluded) != "" ==>
        editingPlan == WithNotIncluded(old(editingPlan), old(newNotIncluded)) && newNotIncluded == ""
    {
      if editingPlan.None? || newNotIncluded == "" {
        return;
      }
      editingPlan := WithNotIncluded(editingPlan, newNotIncluded);
      newNotIncluded := "";
    }

    /** Removes the draft's excluded feature at `index`, as `splice(index, 1)` does. */
    method RemoveNotIncluded(index: int)
      modifies this`editingPlan
      ensures old(editingPlan).None? ==> editingPlan == None
      ensures old(editingPlan).Some? ==>
        editingPlan == Some(old(editingPlan).value.(notIncluded := SpliceOne(old(editingPlan).value.notIncluded, index)))
    {
      if editingPlan.None? {
        return;
      }
      var notIncluded := SpliceOne(editingPlan.value.notIncluded, index);
      editingPlan := Some(editingPlan.value.(notIncluded := notIncluded));
    }
  }

  /** "Add New Package" followed by Save on the seeded defaults: the form closes,
      and the list is the three defaults again, since the draft's timestamp
      identifier is none of "1", "2", "3" when the clock reads 4 or later. */
  method ScenarioAddPackageThenSave(t: nat, now: nat)
    requires t >= 4
  {
    var store := new LocalStorage();
    var editor := new PricingEditor(store);
    editor.Mount();
    editor.AddPlan(t);
    editor.SetName("Gold");
    editor.SetPrice(-5);
    var draft := editor.editingPlan.value;
    assert draft.id == DecimalString(t);
    assert !HasId(DefaultPlans, PlanId, draft.id) by {
      DefaultPlansIds();
      DecimalStringInjective(t, 1);
      DecimalStringInjective(t, 2);
      DecimalStringInjective(t, 3);
    }
    SaveNewPackageKeepsPlans(DefaultPlans, t, draft, now);
    editor.SaveNewPlan(now);
    assert editor.plans == DefaultPlans && store.pricing == Some(DefaultPlans);
    assert !editor.FormShown();
  }
}

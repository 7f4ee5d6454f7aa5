/**
 * The plan-selection screen's controller: loads the catalog and, when no plan
 * is chosen yet, picks the first recommended one.
 */
module SelectPlanScreen {
  import opened Models
  import opened Repository

  /** `first(where: isRecommended)`. */
  function FirstRecommended(plans: seq<Plan>): (r: Option<Plan>)
    ensures r.None? <==> forall i :: 0 <= i < |plans| ==> !plans[i].isRecommended
    ensures r.Some? ==> exists i :: 0 <= i < |plans| && plans[i] == r.value && plans[i].isRecommended &&
                                    forall j :: 0 <= j < i ==> !plans[j].isRecommended
  {
    if plans == [] then None
    else if plans[0].isRecommended then Some(plans[0])
    else
      var r := FirstRecommended(plans[1..]);
      assert r.Some? ==> exists i :: 0 <= i < |plans[1..]| && plans[1..][i] == r.value && plans[1..][i].isRecommended &&
                                    forall j :: 0 <= j < i ==> !plans[1..][j].isRecommended;
      r
  }

  /** In the mock catalog the pick is the weekly pass. */
  lemma CatalogRecommendsWeekly(ids: seq<string>)
    requires |ids| == 3
    ensures FirstRecommended(StudyNestRepository.GetPlans(ids)) == Some(StudyNestRepository.GetPlans(ids)[1])
    ensures StudyNestRepository.GetPlans(ids)[1].name == "Weekly Pass"
  {
    var plans := StudyNestRepository.GetPlans(ids);
    assert !plans[0].isRecommended && plans[1].isRecommended;
    assert plans[1..][0] == plans[1];
  }

  class SelectPlanViewModel {
    var state: ViewState<seq<Plan>>
    var selectedPlan: Option<Plan>
    ghost var published: seq<ViewState<seq<Plan>>>
    const repository: StudyNestRepository

    constructor (repository: StudyNestRepository)
      ensures this.repository == repository
      ensures state == Idle && selectedPlan.None? && published == []
    {
      this.repository := repository;
      state := Idle;
      selectedPlan := None;
      published := [];
    }

    /** Loads the catalog; `ids` are the plans' fresh identifiers. */
    method LoadPlans(ids: seq<string>)
      requires |ids| == 3
      modifies this
      ensures state == Success(StudyNestRepository.GetPlans(ids))
      ensures published == old(published) + [Loading, state]
      ensures old(selectedPlan).Some? ==> selectedPlan == old(selectedPlan)
      ensures old(selectedPlan).None? ==> selectedPlan == FirstRecommended(state.value)
      ensures old(selectedPlan).None? ==> selectedPlan == Some(state.value[1]) && selectedPlan.value.name == "Weekly Pass"
    {
      state := Loading;
      published := published + [state];
      var plans := StudyNestRepository.GetPlans(ids);
      state := Success(plans);
      published := published + [state];
      if selectedPlan.None? {
        selectedPlan := FirstRecommended(plans);
        CatalogRecommendsWeekly(ids);
      }
    }

    method SelectPlan(plan: Plan)
      modifies this
      ensures selectedPlan == Some(plan)
      ensures state == old(state) && published == old(published)
    {
      selectedPlan := Some(plan);
    }
  }
}

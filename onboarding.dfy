/** The seeker's onboarding wizard (src/components/onboarding-wizard/OnboardingWizard.tsx):
    five steps (university, budget, type, priorities, notes) over the onboarding store.
    The 300 ms animation delay before a step change is not modelled; the change is applied
    at once. */
module Onboarding {
  import opened Wrappers
  import opened Seqs
  import opened Text
  import opened Types
  import opened Store

  /** canProceed: the gate on the Next button. */
  function CanProceed(step: int, c: MatchingCriteria): (ok: bool)
    ensures step == 1 ==> (ok <==> c.university != "")
    ensures step == 2 ==> (ok <==> c.budget > 0.0)
    ensures step == 3 ==> (ok <==> c.propertyType != "")
    ensures step == 4 || step == 5 ==> ok
    ensures !(1 <= step <= 5) ==> !ok
  {
    match step
    case 1 => c.university != ""
    case 2 => c.budget > 0.0
    case 3 => c.propertyType != ""
    case 4 => true
    case 5 => true
    case _ => false
  }

  /** The default criteria stop the wizard at step 1 only: no university is chosen yet,
      and the default budget and type let steps 2 and 3 through. */
  lemma DefaultCriteriaGates()
    ensures !CanProceed(1, DefaultCriteria)
    ensures CanProceed(2, DefaultCriteria) && CanProceed(3, DefaultCriteria)
  {
  }

  /** handleNext: one step forward below step 5; at step 5 the onboarding completes. */
  method HandleNext(store: OnboardingStore)
    modifies store
    ensures old(store.step) < 5 ==> store.step == old(store.step) + 1 && store.isComplete == old(store.isComplete)
    ensures old(store.step) >= 5 ==> store.step == old(store.step) && store.isComplete
    ensures store.criteria == old(store.criteria) && store.matches == old(store.matches)
  {
    if store.step < 5 {
      store.SetStep(store.step + 1);
    } else {
      store.CompleteOnboarding();
    }
  }

  /** handleBack: one step back above step 1. */
  method HandleBack(store: OnboardingStore)
    modifies store
    ensures store.step == if old(store.step) > 1 then old(store.step) - 1 else old(store.step)
    ensures store.criteria == old(store.criteria) && store.matches == old(store.matches)
    ensures store.isComplete == old(store.isComplete)
  {
    if store.step > 1 {
      store.SetStep(store.step - 1);
    }
  }

  /** A click on Next, disabled unless canProceed; from steps 1..5 the step stays in 1..5,
      and it only completes the onboarding from step 5. */
  method ClickNext(store: OnboardingStore)
    requires 1 <= store.step <= 5
    modifies store
    ensures 1 <= store.step <= 5
    ensures !old(CanProceed(store.step, store.criteria)) ==>
              store.step == old(store.step) && store.isComplete == old(store.isComplete)
    ensures old(CanProceed(store.step, store.criteria)) && old(store.step) < 5 ==> store.step == old(store.step) + 1
    ensures store.isComplete && !old(store.isComplete) ==> old(store.step) == 5
    ensures store.criteria == old(store.criteria)
  {
    if CanProceed(store.step, store.criteria) {
      HandleNext(store);
    }
  }

  /** A click on Back, disabled at step 1. */
  method ClickBack(store: OnboardingStore)
    requires 1 <= store.step <= 5
    modifies store
    ensures 1 <= store.step <= 5
    ensures store.step == if old(store.step) == 1 then 1 else old(store.step) - 1
    ensures store.criteria == old(store.criteria) && store.isComplete == old(store.isComplete)
  {
    if store.step != 1 {
      HandleBack(store);
    }
  }

  // ---------------------------------------------------------------- step 1

  /** The university search: the Arabic name or city contains the term, or the English
      name does ignoring the case of ASCII letters. */
  predicate UniversityMatches(u: University, term: string) {
    Contains(u.name, term) || Contains(Lower(u.nameEn), Lower(term)) || Contains(u.city, term)
  }

  function UniversityFilter(term: string): University -> bool {
    (u: University) => UniversityMatches(u, term)
  }

  /** filteredUniversities, over the list of supported universities. */
  function SearchUniversities(universities: seq<University>, term: string): (r: seq<University>)
    ensures IsSublist(r, universities)
    ensures forall i :: 0 <= i < |r| ==> UniversityMatches(r[i], term)
    ensures forall i :: 0 <= i < |universities| && UniversityMatches(universities[i], term) ==>
              universities[i] in r
    ensures forall u :: multiset(r)[u] == if UniversityMatches(u, term) then multiset(universities)[u] else 0
  {
    FilterIsSublist(universities, UniversityFilter(term));
    FilterMultiset(universities, UniversityFilter(term));
    Filter(universities, UniversityFilter(term))
  }

  /** An empty search lists every university. */
  lemma EmptySearchListsAll(universities: seq<University>)
    ensures SearchUniversities(universities, "") == universities
  {
    forall i | 0 <= i < |universities|
      ensures UniversityMatches(universities[i], "")
    {
      ContainsEmpty(universities[i].name);
    }
    FilterKeepsAll(universities, UniversityFilter(""));
  }

  /** Choosing a university card: `setCriteria({ university: id })`. */
  method ChooseUniversity(store: OnboardingStore, id: string)
    modifies store
    ensures store.criteria == old(store.criteria).(university := id)
    ensures store.step == old(store.step) && store.isComplete == old(store.isComplete)
  {
    store.SetCriteria(CriteriaPatch(Some(id), None, None, None, None));
  }

  // ---------------------------------------------------------------- step 2

  const SliderMin := 500
  const SliderMax := 3000
  const SliderStep := 50
  const BudgetPresets: set<int> := {800, 1500, 2500}

  /** A value the budget slider can produce. */
  predicate SliderValue(b: int) {
    SliderMin <= b <= SliderMax && b % SliderStep == 0
  }

  /** Every budget the step can set is a slider value, so positive, which is what the
      price score needs; the default budget is one too. */
  lemma BudgetInputsPositive(b: int)
    requires SliderValue(b) || b in BudgetPresets
    ensures SliderValue(b) && b > 0
    ensures SliderValue(DefaultCriteria.budget.Floor)
  {
  }

  /** Moving the slider to `value`. */
  method SlideBudget(store: OnboardingStore, value: int)
    requires SliderValue(value)
    modifies store
    ensures store.criteria == old(store.criteria).(budget := value as real)
    ensures store.criteria.budget > 0.0
    ensures store.step == old(store.step) && store.isComplete == old(store.isComplete)
  {
    store.SetCriteria(CriteriaPatch(None, Some(value as real), None, None, None));
  }

  /** A preset budget button. */
  method ChooseBudgetPreset(store: OnboardingStore, amount: int)
    requires amount in BudgetPresets
    modifies store
    ensures store.criteria == old(store.criteria).(budget := amount as real)
    ensures store.criteria.budget > 0.0
    ensures store.step == old(store.step) && store.isComplete == old(store.isComplete)
  {
    store.SetCriteria(CriteriaPatch(None, Some(amount as real), None, None, None));
  }

  // ---------------------------------------------------------------- steps 3 to 5

  /** A housing-type card: `setCriteria({ type: id })`. */
  method ChooseType(store: OnboardingStore, id: string)
    modifies store
    ensures store.criteria == old(store.criteria).(propertyType := id)
    ensures store.step == old(store.step) && store.isComplete == old(store.isComplete)
  {
    store.SetCriteria(CriteriaPatch(None, None, Some(id), None, None));
  }

  /** togglePriority: one priority in or out of the preferences, nothing else changed. */
  method TogglePriority(store: OnboardingStore, id: string)
    modifies store
    ensures store.criteria == old(store.criteria).(preferences := Toggled(old(store.criteria.preferences), id))
    ensures id in store.criteria.preferences <==> id !in old(store.criteria.preferences)
    ensures NoDuplicates(old(store.criteria.preferences)) ==> NoDuplicates(store.criteria.preferences)
    ensures store.step == old(store.step) && store.isComplete == old(store.isComplete)
  {
    var current := store.criteria.preferences;
    if id in current {
      store.SetCriteria(CriteriaPatch(None, None, None, Some(Filter(current, NotEquals(id))), None));
    } else {
      store.SetCriteria(CriteriaPatch(None, None, None, Some(current + [id]), None));
    }
  }

  /** The notes box: `setCriteria({ additionalNotes: text })`. */
  method SetNotes(store: OnboardingStore, text: string)
    modifies store
    ensures store.criteria == old(store.criteria).(additionalNotes := Some(text))
    ensures store.step == old(store.step) && store.isComplete == old(store.isComplete)
  {
    store.SetCriteria(CriteriaPatch(None, None, None, None, Some(text)));
  }
}

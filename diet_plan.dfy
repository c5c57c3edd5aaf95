/**
 * The three-step diet-plan wizard (src/pages/DietPlan.tsx): member details,
 * then meals chosen per time slot, then a review.
 */
module DietPlanPage {
  import opened Collections

  datatype Step = Info | Meals | Review

  datatype Meal = Meal(id: string, name: string, category: string)

  datatype MealTime = Morning | Afternoon | BeforeGym | AfterGym | Evening | Night

  /** `Record<MealTime, Meal[]>`: one list of meals per time slot. */
  type Slots = map<MealTime, seq<Meal>>

  /** Every time slot has its list. */
  ghost predicate Complete(slots: Slots)
  {
    forall t: MealTime :: t in slots
  }

  /** The position of a step in the wizard. */
  function StepIndex(s: Step): nat
  {
    match s
    case Info => 0
    case Meals => 1
    case Review => 2
  }

  /** `handleNextStep`: one step forward, staying on the last step. */
  function NextStep(s: Step): (r: Step)
    ensures s != Review ==> StepIndex(r) == StepIndex(s) + 1
    ensures s == Review ==> r == Review
  {
    match s
    case Info => Meals
    case Meals => Review
    case Review => Review
  }

  /** `handlePrevStep`: one step back, staying on the first step. */
  function PrevStep(s: Step): (r: Step)
    ensures s != Info ==> StepIndex(r) + 1 == StepIndex(s)
    ensures s == Info ==> r == Info
  {
    match s
    case Info => Info
    case Meals => Info
    case Review => Meals
  }

  lemma PrevUndoesNext(s: Step)
    requires s != Review
    ensures PrevStep(NextStep(s)) == s
  {
  }

  lemma NextUndoesPrev(s: Step)
    requires s != Info
    ensures NextStep(PrevStep(s)) == s
  {
  }

  const InitialSlots: Slots :=
    map[Morning := [], Afternoon := [], BeforeGym := [], AfterGym := [], Evening := [], Night := []]

  lemma InitialSlotsAreEmpty()
    ensures Complete(InitialSlots)
    ensures forall t :: InitialSlots[t] == []
  {
    forall t: MealTime
      ensures t in InitialSlots
    {
      match t
      case Morning =>
      case Afternoon =>
      case BeforeGym =>
      case AfterGym =>
      case Evening =>
      case Night =>
    }
  }

  /** `handleMealSelect`: the meal goes at the end of the given slot's list. */
  function AppendMeal(slots: Slots, t: MealTime, meal: Meal): (r: Slots)
    requires Complete(slots)
    ensures Complete(r)
    ensures r[t] == slots[t] + [meal]
    ensures forall u :: u != t ==> r[u] == slots[u]
  {
    slots[t := slots[t] + [meal]]
  }

  function IdIsNot(id: string): Meal -> bool
  {
    (m: Meal) => m.id != id
  }

  /** `handleRemoveMeal`: the slot keeps, in order, the meals with another id. */
  function RemoveMealFrom(slots: Slots, t: MealTime, id: string): (r: Slots)
    requires Complete(slots)
    ensures Complete(r)
    ensures IsSubsequence(r[t], slots[t])
    ensures forall m :: m in r[t] <==> m in slots[t] && m.id != id
    ensures forall m :: multiset(r[t])[m] == if m.id != id then multiset(slots[t])[m] else 0
    ensures forall u :: u != t ==> r[u] == slots[u]
  {
    FilterCounts(slots[t], IdIsNot(id));
    slots[t := Filter(slots[t], IdIsNot(id))]
  }

  /** Choosing a meal already in the slot adds a second copy. */
  lemma AppendKeepsDuplicates(slots: Slots, t: MealTime, meal: Meal)
    requires Complete(slots)
    ensures multiset(AppendMeal(slots, t, meal)[t])[meal] == multiset(slots[t])[meal] + 1
  {
  }

  /** Removing a freshly chosen meal by its id, when no other meal in the slot has it, restores the slots. */
  lemma {:induction false} RemoveUndoesAppend(slots: Slots, t: MealTime, meal: Meal)
    requires Complete(slots)
    requires forall i :: 0 <= i < |slots[t]| ==> slots[t][i].id != meal.id
    ensures RemoveMealFrom(AppendMeal(slots, t, meal), t, meal.id) == slots
  {
    var p := IdIsNot(meal.id);
    FilterAppend(slots[t], meal, p);
    FilterAll(slots[t], p);
    var r := RemoveMealFrom(AppendMeal(slots, t, meal), t, meal.id);
    assert r[t] == slots[t];
    assert r.Keys == slots.Keys;
  }

  datatype MemberInfo = MemberInfo(admissionNumber: string, fullName: string, weight: string)

  /** The `name` attributes of the three inputs. */
  datatype InfoField = AdmissionNumberField | FullNameField | WeightField

  const EmptyInfo := MemberInfo("", "", "")

  function FieldValue(info: MemberInfo, f: InfoField): string
  {
    match f
    case AdmissionNumberField => info.admissionNumber
    case FullNameField => info.fullName
    case WeightField => info.weight
  }

  /** `handleInputChange`: the named field takes the input's value. */
  function UpdateInfo(info: MemberInfo, f: InfoField, value: string): (r: MemberInfo)
    ensures FieldValue(r, f) == value
    ensures forall g :: g != f ==> FieldValue(r, g) == FieldValue(info, g)
  {
    match f
    case AdmissionNumberField => info.(admissionNumber := value)
    case FullNameField => info.(fullName := value)
    case WeightField => info.(weight := value)
  }

  /** The Next button of the info step is enabled when no field is empty. */
  function NextEnabled(info: MemberInfo): (b: bool)
    ensures b <==> forall f :: FieldValue(info, f) != ""
  {
    assert FieldValue(info, AdmissionNumberField) == info.admissionNumber;
    assert FieldValue(info, FullNameField) == info.fullName;
    assert FieldValue(info, WeightField) == info.weight;
    info.admissionNumber != "" && info.fullName != "" && info.weight != ""
  }

  lemma {:induction false} FillingEveryFieldEnablesNext(number: string, name: string, weight: string)
    requires number != "" && name != "" && weight != ""
    ensures !NextEnabled(EmptyInfo)
    ensures NextEnabled(UpdateInfo(UpdateInfo(UpdateInfo(EmptyInfo, AdmissionNumberField, number),
                                              FullNameField, name), WeightField, weight))
  {
    assert FieldValue(EmptyInfo, WeightField) == "";
  }

  lemma {:induction false} ClearingAFieldDisablesNext(info: MemberInfo, f: InfoField)
    ensures !NextEnabled(UpdateInfo(info, f, ""))
  {
    assert FieldValue(UpdateInfo(info, f, ""), f) == "";
  }

  class DietPlanState {
    var currentStep: Step
    var memberInfo: MemberInfo
    var selectedMeals: Slots
    var currentMealTime: MealTime

    ghost predicate Valid()
      reads this
    {
      Complete(selectedMeals)
    }

    constructor ()
      ensures Valid()
      ensures currentStep == Info && memberInfo == EmptyInfo
      ensures selectedMeals == InitialSlots && currentMealTime == Morning
    {
      currentStep, memberInfo := Info, EmptyInfo;
      selectedMeals, currentMealTime := InitialSlots, Morning;
      InitialSlotsAreEmpty();
    }

    method HandleNextStep()
      modifies this`currentStep
      ensures currentStep == NextStep(old(currentStep))
    {
      if currentStep == Info {
        currentStep := Meals;
      } else if currentStep == Meals {
        currentStep := Review;
      }
    }

    method HandlePrevStep()
      modifies this`currentStep
      ensures currentStep == PrevStep(old(currentStep))
    {
      if currentStep == Meals {
        currentStep := Info;
      } else if currentStep == Review {
        currentStep := Meals;
      }
    }

    method HandleInputChange(f: InfoField, value: string)
      modifies this`memberInfo
      ensures memberInfo == UpdateInfo(old(memberInfo), f, value)
    {
      memberInfo := UpdateInfo(memberInfo, f, value);
    }

    /** Adds the meal to the slot currently selected. */
    method HandleMealSelect(meal: Meal)
      requires Valid()
      modifies this`selectedMeals
      ensures Valid()
      ensures selectedMeals == AppendMeal(old(selectedMeals), currentMealTime, meal)
    {
      selectedMeals := AppendMeal(selectedMeals, currentMealTime, meal);
    }

    method HandleRemoveMeal(t: MealTime, id: string)
      requires Valid()
      modifies this`selectedMeals
      ensures Valid()
      ensures selectedMeals == RemoveMealFrom(old(selectedMeals), t, id)
    {
      selectedMeals := RemoveMealFrom(selectedMeals, t, id);
    }

    method SetCurrentMealTime(t: MealTime)
      modifies this`currentMealTime
      ensures currentMealTime == t
    {
      currentMealTime := t;
    }
  }
}

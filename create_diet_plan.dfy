/**
 * The diet-plan editor for one member (src/pages/CreateDietPlan.tsx): the
 * editable list of meals and the save that inserts a `diet_plans` row and then
 * one `diet_meals` row per meal.
 *
 * `Date.now()` and today's date are passed in; the members table is a map from
 * id to member, and each insert's failure is an input.
 */
module CreateDietPlanPage {
  import opened Collections
  import opened Text
  import opened Auth

  datatype Member = Member(id: string, name: string, admissionNumber: string, phone: string)

  /** A meal of the list. `timeSlot` is the column's text. */
  datatype PlanMeal = PlanMeal(id: string, timeSlot: string, name: string, category: string, quantity: string)

  /** `keyof Meal`. */
  datatype MealField = IdField | TimeSlotField | NameField | CategoryField | QuantityField

  datatype PlanInsert = PlanInsert(memberId: string, date: string, createdBy: string)

  datatype MealInsert = MealInsert(dietPlanId: string, timeSlot: string, name: string, category: string, quantity: string)

  datatype SaveOutcome =
    | MissingMemberOrUser
    | InvalidMeals
    | PlanInsertFailed(plan: PlanInsert)
    | MealsInsertFailed(plan: PlanInsert, rows: seq<MealInsert>)
    | PlanSaved(plan: PlanInsert, rows: seq<MealInsert>)

  /** The three meals the list starts with once the member has loaded. */
  const InitialMeals := [
    PlanMeal("temp-1", "morning", "", "Protein", ""),
    PlanMeal("temp-2", "afternoon", "", "Carbs", ""),
    PlanMeal("temp-3", "evening", "", "Fruits", "")
  ]

  /** The id `handleAddMeal` gives the meal it adds. */
  function TempId(now: nat): string
  {
    "temp-" + NatToString(now)
  }

  /** `handleAddMeal`: one blank morning protein meal at the end; the others stay as they were. */
  function AddMeal(meals: seq<PlanMeal>, now: nat): (r: seq<PlanMeal>)
    ensures |r| == |meals| + 1 && r[..|meals|] == meals
    ensures r[|meals|] == PlanMeal(TempId(now), "morning", "", "Protein", "")
  {
    meals + [PlanMeal(TempId(now), "morning", "", "Protein", "")]
  }

  function IdIsNot(id: string): PlanMeal -> bool
  {
    (m: PlanMeal) => m.id != id
  }

  /** `handleRemoveMeal`: every meal with that id goes; the rest keep their order. */
  function RemoveMeal(meals: seq<PlanMeal>, id: string): (r: seq<PlanMeal>)
    ensures IsSubsequence(r, meals) && |r| <= |meals|
    ensures forall m :: m in r <==> m in meals && m.id != id
    ensures forall m :: multiset(r)[m] == if m.id != id then multiset(meals)[m] else 0
  {
    FilterLength(meals, IdIsNot(id));
    FilterCounts(meals, IdIsNot(id));
    Filter(meals, IdIsNot(id))
  }

  function FieldOf(m: PlanMeal, f: MealField): string
  {
    match f
    case IdField => m.id
    case TimeSlotField => m.timeSlot
    case NameField => m.name
    case CategoryField => m.category
    case QuantityField => m.quantity
  }

  /** `{ ...meal, [field]: value }` */
  function SetField(m: PlanMeal, f: MealField, value: string): (r: PlanMeal)
    ensures FieldOf(r, f) == value
    ensures forall g :: g != f ==> FieldOf(r, g) == FieldOf(m, g)
  {
    match f
    case IdField => m.(id := value)
    case TimeSlotField => m.(timeSlot := value)
    case NameField => m.(name := value)
    case CategoryField => m.(category := value)
    case QuantityField => m.(quantity := value)
  }

  /**
   * `handleMealChange`: in every meal with that id, the named field takes the
   * value and the other fields stay; every other meal stays as it was.
   */
  function ChangeMeal(meals: seq<PlanMeal>, id: string, f: MealField, value: string): (r: seq<PlanMeal>)
    ensures |r| == |meals|
    ensures forall i :: 0 <= i < |r| && meals[i].id == id ==> FieldOf(r[i], f) == value
    ensures forall i, g :: 0 <= i < |r| && meals[i].id == id && g != f ==> FieldOf(r[i], g) == FieldOf(meals[i], g)
    ensures forall i :: 0 <= i < |r| && meals[i].id != id ==> r[i] == meals[i]
  {
    if meals == [] then []
    else
      var head := if meals[0].id == id then SetField(meals[0], f, value) else meals[0];
      [head] + ChangeMeal(meals[1..], id, f, value)
  }

  /** Changing a field other than the id never changes which meals have which id. */
  lemma {:induction false} ChangeKeepsIds(meals: seq<PlanMeal>, id: string, f: MealField, value: string)
    requires f != IdField
    ensures forall i :: 0 <= i < |meals| ==> ChangeMeal(meals, id, f, value)[i].id == meals[i].id
  {
    var r := ChangeMeal(meals, id, f, value);
    forall i | 0 <= i < |meals|
      ensures r[i].id == meals[i].id
    {
      if meals[i].id == id {
        assert FieldOf(r[i], IdField) == FieldOf(meals[i], IdField);
      }
    }
  }

  /** Typing the same value twice has the effect of typing it once. */
  lemma {:induction false} ChangeIsIdempotent(meals: seq<PlanMeal>, id: string, f: MealField, value: string)
    ensures ChangeMeal(ChangeMeal(meals, id, f, value), id, f, value) == ChangeMeal(meals, id, f, value)
  {
    if meals != [] {
      ChangeIsIdempotent(meals[1..], id, f, value);
      if meals[0].id == id {
        var m := SetField(meals[0], f, value);
        assert SetField(m, f, value) == m;
      }
    }
  }

  /** Removing the meal just added, when its id was new, gives back the earlier list. */
  lemma {:induction false} RemoveUndoesAdd(meals: seq<PlanMeal>, now: nat)
    requires forall i :: 0 <= i < |meals| ==> meals[i].id != TempId(now)
    ensures RemoveMeal(AddMeal(meals, now), TempId(now)) == meals
  {
    var p := IdIsNot(TempId(now));
    FilterAppend(meals, PlanMeal(TempId(now), "morning", "", "Protein", ""), p);
    FilterAll(meals, p);
  }

  /**
   * Two meals added at the same millisecond share one id, so removing either
   * removes both.
   */
  lemma {:induction false} SameInstantAddsShareAnId(meals: seq<PlanMeal>, now: nat)
    ensures var twice := AddMeal(AddMeal(meals, now), now);
      twice[|meals|].id == twice[|meals| + 1].id
      && RemoveMeal(twice, TempId(now)) == RemoveMeal(meals, TempId(now))
  {
    var p := IdIsNot(TempId(now));
    var m := PlanMeal(TempId(now), "morning", "", "Protein", "");
    FilterAppend(meals, m, p);
    FilterAppend(meals + [m], m, p);
  }

  /** A meal the save refuses: its name or its quantity is empty. */
  predicate IsIncomplete(m: PlanMeal)
  {
    m.name == "" || m.quantity == ""
  }

  /** `meals.filter(meal => !meal.name || !meal.quantity)` */
  function InvalidMealsOf(meals: seq<PlanMeal>): (r: seq<PlanMeal>)
    ensures r == [] <==> forall i :: 0 <= i < |meals| ==> !IsIncomplete(meals[i])
  {
    var r := Filter(meals, IsIncomplete);
    if r != [] then
      assert r[0] in meals;
      r
    else
      assert forall i :: 0 <= i < |meals| ==> meals[i] in meals;
      r
  }

  /** `mealsToInsert`: one row per meal, in order, each carrying the new plan's id. */
  function MealsToInsert(planId: string, meals: seq<PlanMeal>): (rows: seq<MealInsert>)
    ensures |rows| == |meals|
    ensures forall i :: 0 <= i < |rows| ==> rows[i].dietPlanId == planId
    ensures forall i :: 0 <= i < |rows| ==>
      && rows[i].timeSlot == meals[i].timeSlot && rows[i].name == meals[i].name
      && rows[i].category == meals[i].category && rows[i].quantity == meals[i].quantity
  {
    if meals == [] then []
    else
      var m := meals[0];
      [MealInsert(planId, m.timeSlot, m.name, m.category, m.quantity)] + MealsToInsert(planId, meals[1..])
  }

  /** A row read back, with the meal's temporary id supplied again. */
  function MealOfRow(row: MealInsert, id: string): PlanMeal
  {
    PlanMeal(id, row.timeSlot, row.name, row.category, row.quantity)
  }

  /** The rows lose only the temporary ids: putting them back recovers the list. */
  lemma {:induction false} RowsRecoverMeals(planId: string, meals: seq<PlanMeal>)
    ensures var rows := MealsToInsert(planId, meals);
      forall i :: 0 <= i < |meals| ==> MealOfRow(rows[i], meals[i].id) == meals[i]
  {
  }

  /** The rows of two lists one after the other are the rows of each, one after the other. */
  lemma {:induction false} MealsToInsertAppend(planId: string, a: seq<PlanMeal>, b: seq<PlanMeal>)
    ensures MealsToInsert(planId, a + b) == MealsToInsert(planId, a) + MealsToInsert(planId, b)
  {
    if a != [] {
      assert (a + b)[0] == a[0];
      assert (a + b)[1..] == a[1..] + b;
      MealsToInsertAppend(planId, a[1..], b);
    }
  }

  /**
   * `saveDietPlan`: the member and the user must be present, then no meal may be
   * incomplete; then the plan is inserted (`planId` is the new row's id, `None`
   * when that insert fails) and then its meals.
   */
  function SaveDietPlan(
    member: Option<Member>, user: Option<User>, meals: seq<PlanMeal>, today: string,
    planId: Option<string>, mealsInsertFails: bool): (r: SaveOutcome)
    ensures r == MissingMemberOrUser <==> member.None? || user.None?
    ensures r == InvalidMeals <==>
      member.Some? && user.Some? && exists i :: 0 <= i < |meals| && IsIncomplete(meals[i])
    ensures (r.PlanInsertFailed? || r.MealsInsertFailed? || r.PlanSaved?) ==>
      && member.Some? && user.Some?
      && r.plan == PlanInsert(member.value.id, today, user.value.id)
    ensures r.PlanInsertFailed? <==> (r.PlanInsertFailed? || r.MealsInsertFailed? || r.PlanSaved?) && planId.None?
    ensures (r.MealsInsertFailed? || r.PlanSaved?) ==> planId.Some? && r.rows == MealsToInsert(planId.value, meals)
    ensures r.MealsInsertFailed? <==>
      && member.Some? && user.Some? && (forall i :: 0 <= i < |meals| ==> !IsIncomplete(meals[i]))
      && planId.Some? && mealsInsertFails
    ensures r.PlanSaved? <==>
      && member.Some? && user.Some? && (forall i :: 0 <= i < |meals| ==> !IsIncomplete(meals[i]))
      && planId.Some? && !mealsInsertFails
  {
    if member.None? || user.None? then MissingMemberOrUser
    else if |InvalidMealsOf(meals)| > 0 then InvalidMeals
    else
      var plan := PlanInsert(member.value.id, today, user.value.id);
      if planId.None? then PlanInsertFailed(plan)
      else
        var rows := MealsToInsert(planId.value, meals);
        if mealsInsertFails then MealsInsertFailed(plan, rows) else PlanSaved(plan, rows)
  }

  /** The list as first loaded cannot be saved: its names and quantities are empty. */
  lemma InitialMealsAreRejected(member: Member, user: User, today: string, planId: Option<string>, fails: bool)
    ensures SaveDietPlan(Some(member), Some(user), InitialMeals, today, planId, fails) == InvalidMeals
  {
    assert IsIncomplete(InitialMeals[0]);
  }

  /** A freshly added meal is blank, so the list cannot be saved until it is filled in. */
  lemma AddedMealMustBeFilledIn(meals: seq<PlanMeal>, now: nat, member: Member, user: User,
                                today: string, planId: Option<string>, fails: bool)
    ensures SaveDietPlan(Some(member), Some(user), AddMeal(meals, now), today, planId, fails) == InvalidMeals
  {
    assert IsIncomplete(AddMeal(meals, now)[|meals|]);
  }

  /** An empty list passes the check and saves a plan with no meals. */
  lemma EmptyListSavesBarePlan(member: Member, user: User, today: string, planId: string)
    ensures SaveDietPlan(Some(member), Some(user), [], today, Some(planId), false)
         == PlanSaved(PlanInsert(member.id, today, user.id), [])
  {
  }

  class CreateDietPlanState {
    var member: Option<Member>
    var meals: seq<PlanMeal>
    var isLoading: bool
    var isSaving: bool

    constructor ()
      ensures member == None && meals == [] && isLoading && !isSaving
    {
      member, meals, isLoading, isSaving := None, [], true, false;
    }

    /**
     * `fetchMember`: on success the member is shown and the list starts over
     * with the three initial meals; on failure nothing changes and the page
     * goes back to the diet-plan list.
     */
    method FetchMember(members: map<string, Member>, id: string, queryFails: bool)
      returns (navigateTo: Option<string>)
      modifies this`member, this`meals, this`isLoading
      ensures !isLoading
      ensures !queryFails && id in members ==>
        member == Some(members[id]) && meals == InitialMeals && navigateTo == None
      ensures queryFails || id !in members ==>
        member == old(member) && meals == old(meals) && navigateTo == Some("/diet-plan")
    {
      isLoading := true;
      if !queryFails && id in members {
        member := Some(members[id]);
        meals := InitialMeals;
        navigateTo := None;
      } else {
        navigateTo := Some("/diet-plan");
      }
      isLoading := false;
    }

    /** The mount effect: the member is fetched only when the route gives a non-empty id. */
    method Mount(memberId: Option<string>, members: map<string, Member>, queryFails: bool)
      returns (navigateTo: Option<string>)
      modifies this`member, this`meals, this`isLoading
      ensures memberId.None? || memberId.value == "" ==>
        member == old(member) && meals == old(meals) && isLoading == old(isLoading) && navigateTo == None
      ensures memberId.Some? && memberId.value != "" ==> !isLoading
      ensures memberId.Some? && memberId.value != "" && !queryFails && memberId.value in members ==>
        member == Some(members[memberId.value]) && meals == InitialMeals && navigateTo == None
      ensures memberId.Some? && memberId.value != "" && (queryFails || memberId.value !in members) ==>
        member == old(member) && meals == old(meals) && navigateTo == Some("/diet-plan")
    {
      navigateTo := None;
      if memberId.Some? && memberId.value != "" {
        navigateTo := FetchMember(members, memberId.value, queryFails);
      }
    }

    method HandleAddMeal(now: nat)
      modifies this`meals
      ensures meals == AddMeal(old(meals), now)
    {
      meals := AddMeal(meals, now);
    }

    method HandleRemoveMeal(id: string)
      modifies this`meals
      ensures meals == RemoveMeal(old(meals), id)
    {
      meals := RemoveMeal(meals, id);
    }

    method HandleMealChange(id: string, f: MealField, value: string)
      modifies this`meals
      ensures meals == ChangeMeal(old(meals), id, f, value)
    {
      meals := ChangeMeal(meals, id, f, value);
    }

    /** Saving: only a plan whose meals were inserted navigates back to the list. */
    method Save(user: Option<User>, today: string, planId: Option<string>, mealsInsertFails: bool)
      returns (outcome: SaveOutcome, navigateTo: Option<string>)
      modifies this`isSaving
      ensures outcome == SaveDietPlan(member, user, meals, today, planId, mealsInsertFails)
      ensures navigateTo == if outcome.PlanSaved? then Some("/diet-plan") else None
      ensures isSaving == if outcome == MissingMemberOrUser || outcome == InvalidMeals then old(isSaving) else false
    {
      outcome := SaveDietPlan(member, user, meals, today, planId, mealsInsertFails);
      navigateTo := None;
      if outcome != MissingMemberOrUser && outcome != InvalidMeals {
        isSaving := true;
        if outcome.PlanSaved? {
          navigateTo := Some("/diet-plan");
        }
        isSaving := false;
      }
    }
  }
}

/** The meal planner of src/components/MealPlanner.tsx: a list of planned
    foods, the form for the next one, and the grouping of the plan by meal
    type that the page renders, one card per group. */
module MealPlanning {
  import opened Sequences

  datatype PlannedFood = PlannedFood(id: string, name: string, amount: string, mealType: string)

  /** The three fields of the "new food" form. */
  datatype FoodForm = FoodForm(name: string, amount: string, mealType: string)

  /** The form as it starts and as a successful add leaves it. */
  const EmptyForm := FoodForm("", "", "breakfast")

  /** The validation of `addFood`: both text fields filled in. */
  predicate IsComplete(form: FoodForm) {
    form.name != "" && form.amount != ""
  }

  /** `{ id: Date.now().toString(), ...newFood }`. */
  function FoodFrom(id: string, form: FoodForm): (f: PlannedFood)
    ensures f.id == id && f.name == form.name && f.amount == form.amount && f.mealType == form.mealType
  {
    PlannedFood(id, form.name, form.amount, form.mealType)
  }

  function IdIsNot(id: string): PlannedFood -> bool {
    (f: PlannedFood) => f.id != id
  }

  /** `removeFood`: every item with the id dropped. */
  function RemoveFoodFrom(plan: seq<PlannedFood>, id: string): (r: seq<PlannedFood>)
    ensures forall f :: f in r <==> f in plan && f.id != id
    ensures |r| <= |plan|
  {
    Filter(plan, IdIsNot(id))
  }

  /** `removeFood` keeps the other items in order: it distributes over any
      split of the plan and keeps or drops each item by its id alone. */
  lemma RemoveFoodKeepsOrder(a: seq<PlannedFood>, b: seq<PlannedFood>, f: PlannedFood, id: string)
    ensures RemoveFoodFrom(a + b, id) == RemoveFoodFrom(a, id) + RemoveFoodFrom(b, id)
    ensures RemoveFoodFrom([f], id) == if f.id == id then [] else [f]
  {
    FilterAppend(a, b, IdIsNot(id));
    FilterSingleton(f, IdIsNot(id));
  }

  // ---------------------------------------------------------------------
  // Grouping by meal type

  function HasType(mealType: string): PlannedFood -> bool {
    (f: PlannedFood) => f.mealType == mealType
  }

  function MealTypes(plan: seq<PlannedFood>): seq<string> {
    seq(|plan|, i requires 0 <= i < |plan| => plan[i].mealType)
  }

  lemma MealTypesSnoc(plan: seq<PlannedFood>, f: PlannedFood)
    ensures MealTypes(plan + [f]) == MealTypes(plan) + [f.mealType]
  {
  }

  lemma MealTypeIn(plan: seq<PlannedFood>, f: PlannedFood)
    requires f in plan
    ensures f.mealType in MealTypes(plan)
  {
    var i :| 0 <= i < |plan| && plan[i] == f;
    assert MealTypes(plan)[i] == f.mealType;
  }

  /** What the grouping holds after the items of `done`: the meal types in
      first-occurrence order, and for each the items of that type. */
  ghost predicate GroupedSoFar(done: seq<PlannedFood>, keys: seq<string>, groups: map<string, seq<PlannedFood>>) {
    && keys == Dedup(MealTypes(done))
    && (forall t :: t in groups <==> t in keys)
    && (forall t :: t in groups ==> groups[t] == Filter(done, HasType(t)))
  }

  /** One step of the reduce on the record: create the group of the item's
      meal type if missing, then push the item onto it. */
  function Push(groups: map<string, seq<PlannedFood>>, food: PlannedFood): map<string, seq<PlannedFood>> {
    groups[food.mealType := (if food.mealType in groups then groups[food.mealType] else []) + [food]]
  }

  /** The same step on the key order: a new meal type goes last. */
  function PushKey(keys: seq<string>, groups: map<string, seq<PlannedFood>>, food: PlannedFood): seq<string> {
    if food.mealType in groups then keys else keys + [food.mealType]
  }

  lemma GroupStep(done: seq<PlannedFood>, food: PlannedFood,
                  keys: seq<string>, groups: map<string, seq<PlannedFood>>)
    requires GroupedSoFar(done, keys, groups)
    ensures GroupedSoFar(done + [food], PushKey(keys, groups, food), Push(groups, food))
  {
    MealTypesSnoc(done, food);
    DedupSnoc(MealTypes(done), food.mealType);
    if food.mealType !in groups {
      forall f | f in done ensures !HasType(food.mealType)(f) {
        MealTypeIn(done, f);
      }
      FilterKeepsNone(done, HasType(food.mealType));
    }
    PushFilters(done, food, groups);
  }

  lemma PushFilters(done: seq<PlannedFood>, food: PlannedFood, groups: map<string, seq<PlannedFood>>)
    requires forall t :: t in groups ==> groups[t] == Filter(done, HasType(t))
    requires food.mealType !in groups ==> Filter(done, HasType(food.mealType)) == []
    ensures forall t :: t in Push(groups, food) ==> Push(groups, food)[t] == Filter(done + [food], HasType(t))
  {
    forall t | t in Push(groups, food)
      ensures Push(groups, food)[t] == Filter(done + [food], HasType(t))
    {
      FilterSnoc(done, food, HasType(t));
    }
  }

  /** The key order and the record of meal type to items. */
  datatype Grouping = Grouping(keys: seq<string>, groups: map<string, seq<PlannedFood>>)

  /** The reduce, as a fold over the plan from the left. */
  function GroupFold(plan: seq<PlannedFood>): Grouping {
    if plan == [] then Grouping([], map[])
    else
      var g := GroupFold(plan[..|plan| - 1]);
      var food := plan[|plan| - 1];
      Grouping(PushKey(g.keys, g.groups, food), Push(g.groups, food))
  }

  /** The fold groups the plan: the meal types in first-occurrence order,
      each with the items of that type. */
  lemma {:induction false} GroupFoldGroups(plan: seq<PlannedFood>)
    ensures GroupedSoFar(plan, GroupFold(plan).keys, GroupFold(plan).groups)
  {
    if plan != [] {
      var init := plan[..|plan| - 1];
      var food := plan[|plan| - 1];
      GroupFoldGroups(init);
      GroupStep(init, food, GroupFold(init).keys, GroupFold(init).groups);
      assert plan == init + [food];
    }
  }

  /** The `groupedMeals` reduce: a record from meal type to the items of
      that type, its keys in insertion order (`Object.entries` lists keys
      that are not array indices in the order they were added). Returns the
      keys in that order and the record. */
  method GroupByMealType(plannedMeals: seq<PlannedFood>)
    returns (keys: seq<string>, groups: map<string, seq<PlannedFood>>)
    ensures keys == Dedup(MealTypes(plannedMeals))
    ensures forall t :: t in groups <==> t in keys
    ensures forall t :: t in groups ==> groups[t] == Filter(plannedMeals, HasType(t))
  {
    keys, groups := [], map[];
    var i := 0;
    while i < |plannedMeals|
      invariant 0 <= i <= |plannedMeals|
      invariant Grouping(keys, groups) == GroupFold(plannedMeals[..i])
    {
      var food := plannedMeals[i];
      ghost var before := Grouping(keys, groups);
      if food.mealType !in groups {
        keys := keys + [food.mealType];
        groups := groups[food.mealType := []];
      }
      groups := groups[food.mealType := groups[food.mealType] + [food]];
      assert keys == PushKey(before.keys, before.groups, food);
      assert groups == Push(before.groups, food);
      assert plannedMeals[..i + 1][..i] == plannedMeals[..i];
      i := i + 1;
    }
    assert plannedMeals[..i] == plannedMeals;
    GroupFoldGroups(plannedMeals);
  }

  /** The sizes of the groups of `keys`, summed. */
  function GroupSizes(keys: seq<string>, groups: map<string, seq<PlannedFood>>): nat
    requires forall t :: t in keys ==> t in groups
  {
    if keys == [] then 0
    else GroupSizes(keys[..|keys| - 1], groups) + |groups[keys[|keys| - 1]]|
  }

  lemma {:induction false} TypeCount(plan: seq<PlannedFood>, t: string)
    ensures |Filter(plan, HasType(t))| == Occurrences(MealTypes(plan), t)
  {
    if plan != [] {
      var init := plan[..|plan| - 1];
      var f := plan[|plan| - 1];
      assert plan == init + [f];
      TypeCount(init, t);
      FilterSnoc(init, f, HasType(t));
      MealTypesSnoc(init, f);
      OccurrencesSnoc(MealTypes(init), f.mealType, t);
    }
  }

  lemma {:induction false} GroupSizesAreCounts(plan: seq<PlannedFood>, keys: seq<string>, groups: map<string, seq<PlannedFood>>)
    requires forall t :: t in keys ==> t in groups && groups[t] == Filter(plan, HasType(t))
    ensures GroupSizes(keys, groups) == SumOccurrences(keys, MealTypes(plan))
  {
    if keys != [] {
      var init := keys[..|keys| - 1];
      assert forall t :: t in init ==> t in keys;
      GroupSizesAreCounts(plan, init, groups);
      TypeCount(plan, keys[|keys| - 1]);
    }
  }

  /** The group sizes sum to the plan's length. */
  lemma GroupSizesSumToPlanLength(plan: seq<PlannedFood>, keys: seq<string>, groups: map<string, seq<PlannedFood>>)
    requires GroupedSoFar(plan, keys, groups)
    ensures GroupSizes(keys, groups) == |plan|
  {
    GroupSizesAreCounts(plan, keys, groups);
    DedupCountsEveryEntry(MealTypes(plan));
  }

  /** Every planned item lands in the group of its meal type, and a group
      holds only planned items of its own type, so no item is in two groups. */
  lemma EveryItemInItsOwnGroup(plan: seq<PlannedFood>, keys: seq<string>, groups: map<string, seq<PlannedFood>>)
    requires GroupedSoFar(plan, keys, groups)
    ensures forall f :: f in plan ==> f.mealType in groups && f in groups[f.mealType]
    ensures forall t, f :: t in groups && f in groups[t] ==> f in plan && f.mealType == t
  {
    forall f | f in plan ensures f.mealType in groups {
      MealTypeIn(plan, f);
    }
  }

  /** No group is empty. */
  lemma NoEmptyGroup(plan: seq<PlannedFood>, keys: seq<string>, groups: map<string, seq<PlannedFood>>)
    requires GroupedSoFar(plan, keys, groups)
    ensures forall t :: t in groups ==> groups[t] != []
  {
    forall t | t in groups ensures groups[t] != [] {
      var i := FirstIndex(MealTypes(plan), t);
      assert plan[i] in groups[t];
    }
  }

  /** Group keys appear in the order in which their meal type first occurs
      in the plan. */
  lemma GroupKeysInFirstOccurrenceOrder(plan: seq<PlannedFood>)
    ensures forall p, q :: 0 <= p < q < |Dedup(MealTypes(plan))| ==>
      FirstIndex(MealTypes(plan), Dedup(MealTypes(plan))[p]) <
      FirstIndex(MealTypes(plan), Dedup(MealTypes(plan))[q])
  {
    DedupFirstOccurrenceOrder(MealTypes(plan));
  }

  // ---------------------------------------------------------------------
  // The component

  class MealPlanner {
    var plannedMeals: seq<PlannedFood>
    var newFood: FoodForm

    constructor ()
      ensures plannedMeals == [] && newFood == EmptyForm
    {
      plannedMeals := [];
      newFood := EmptyForm;
    }

    /** The form's `onChange` handlers, each replacing one field. */
    method SetName(name: string)
      modifies this
      ensures newFood == old(newFood).(name := name) && plannedMeals == old(plannedMeals)
    {
      newFood := newFood.(name := name);
    }

    method SetAmount(amount: string)
      modifies this
      ensures newFood == old(newFood).(amount := amount) && plannedMeals == old(plannedMeals)
    {
      newFood := newFood.(amount := amount);
    }

    method SetMealType(mealType: string)
      modifies this
      ensures newFood == old(newFood).(mealType := mealType) && plannedMeals == old(plannedMeals)
    {
      newFood := newFood.(mealType := mealType);
    }

    /** `addFood`; `id` stands for `Date.now().toString()`. An incomplete
        form shows an error and changes nothing; otherwise the food is
        appended and the form reset. `added` tells which happened. */
    method AddFood(id: string) returns (added: bool)
      modifies this
      ensures added == IsComplete(old(newFood))
      ensures !added ==> plannedMeals == old(plannedMeals) && newFood == old(newFood)
      ensures added ==> plannedMeals == old(plannedMeals) + [FoodFrom(id, old(newFood))] && newFood == EmptyForm
    {
      if !IsComplete(newFood) {
        return false;
      }
      var food := FoodFrom(id, newFood);
      plannedMeals := plannedMeals + [food];
      newFood := EmptyForm;
      return true;
    }

    method RemoveFood(id: string)
      modifies this
      ensures plannedMeals == RemoveFoodFrom(old(plannedMeals), id)
      ensures newFood == old(newFood)
    {
      plannedMeals := RemoveFoodFrom(plannedMeals, id);
    }

    /** `saveMealPlan`: an empty plan is refused with an error; otherwise the
        plan is reported saved. */
    method SaveMealPlan() returns (saved: bool)
      ensures saved <==> |plannedMeals| > 0
    {
      saved := |plannedMeals| != 0;
    }

    /** The groups the page renders for the current plan. */
    method GroupedMeals() returns (keys: seq<string>, groups: map<string, seq<PlannedFood>>)
      ensures keys == Dedup(MealTypes(plannedMeals))
      ensures forall t :: t in groups <==> t in keys
      ensures forall t :: t in groups ==> groups[t] == Filter(plannedMeals, HasType(t))
    {
      keys, groups := GroupByMealType(plannedMeals);
    }
  }
}

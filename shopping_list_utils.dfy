/** The shopping-list aggregation of src/services/utils/shoppingListUtils.ts:
    every ingredient line of every selected meal, scaled by the meal's
    quantity, is folded into an insertion-ordered map keyed by
    `name + "-" + unit`; the map's values, in insertion order, are the list. */
module ShoppingListUtils {
  import opened Sequences

  /** An ingredient line of a meal option. `amount` is the number that
      `parseFloat` reads from the line's amount text. */
  datatype MealIngredient = MealIngredient(name: string, amount: real, unit: string)

  datatype MealOption = MealOption(name: string, ingredients: seq<MealIngredient>)

  /** One entry of the selection: a meal option and how many portions of it. */
  datatype Selection = Selection(option: MealOption, quantity: real)

  datatype ShoppingListItem = ShoppingListItem(
    ingredient: string,
    totalAmount: real,
    unit: string,
    meals: seq<string>)

  /** The map key of an ingredient: its name and unit joined by a hyphen. */
  function Key(name: string, unit: string): string {
    name + "-" + unit
  }

  function ItemKey(item: ShoppingListItem): string {
    Key(item.ingredient, item.unit)
  }

  function ItemKeys(items: seq<ShoppingListItem>): seq<string> {
    seq(|items|, i requires 0 <= i < |items| => ItemKey(items[i]))
  }

  // ---------------------------------------------------------------------
  // The ingredient uses that the two nested loops visit, in visiting order

  /** One visit of the inner loop: the meal's name, the ingredient's name and
      unit, and its amount already multiplied by the meal's quantity. */
  datatype Use = Use(meal: string, name: string, unit: string, amount: real)

  function UseKey(u: Use): string {
    Key(u.name, u.unit)
  }

  /** `parseFloat(ingredient.amount) * quantity`. */
  function Scale(amount: real, quantity: real): real {
    amount * quantity
  }

  function MealUses(sel: Selection): seq<Use> {
    var ings := sel.option.ingredients;
    seq(|ings|, j requires 0 <= j < |ings| =>
      Use(sel.option.name, ings[j].name, ings[j].unit, Scale(ings[j].amount, sel.quantity)))
  }

  function Uses(selected: seq<Selection>): seq<Use> {
    if selected == [] then []
    else Uses(selected[..|selected| - 1]) + MealUses(selected[|selected| - 1])
  }

  function UseKeys(uses: seq<Use>): seq<string> {
    seq(|uses|, i requires 0 <= i < |uses| => UseKey(uses[i]))
  }

  function HasKey(k: string): Use -> bool {
    (u: Use) => UseKey(u) == k
  }

  function TotalAmount(uses: seq<Use>): real {
    if uses == [] then 0.0
    else TotalAmount(uses[..|uses| - 1]) + uses[|uses| - 1].amount
  }

  function MealNames(uses: seq<Use>): seq<string> {
    seq(|uses|, i requires 0 <= i < |uses| => uses[i].meal)
  }

  // ---------------------------------------------------------------------
  // Reference definition: the item for a key, read off all of its uses

  /** The item the list should hold for key `k`: named and united after the
      first use of `k`, summing and listing every use of `k` in order. */
  function ExpectedItem(uses: seq<Use>, k: string): ShoppingListItem
    requires k in UseKeys(uses)
  {
    var first := uses[FirstIndex(UseKeys(uses), k)];
    var mine := Filter(uses, HasKey(k));
    ShoppingListItem(first.name, TotalAmount(mine), first.unit, MealNames(mine))
  }

  // ---------------------------------------------------------------------
  // The map as the loops fill it

  /** The JavaScript `Map`: its keys in insertion order and its entries. */
  datatype Table = Table(order: seq<string>, entries: map<string, ShoppingListItem>)

  ghost predicate WellFormed(t: Table) {
    Distinct(t.order) && forall k :: k in t.order <==> k in t.entries
  }

  /** One visit of the inner loop body. */
  function Step(t: Table, u: Use): Table {
    var key := UseKey(u);
    if key in t.entries then
      var existing := t.entries[key];
      Table(t.order, t.entries[key := existing.(
        totalAmount := existing.totalAmount + u.amount,
        meals := existing.meals + [u.meal])])
    else
      Table(t.order + [key], t.entries[key := ShoppingListItem(u.name, u.amount, u.unit, [u.meal])])
  }

  function Fold(uses: seq<Use>): Table {
    if uses == [] then Table([], map[])
    else Step(Fold(uses[..|uses| - 1]), uses[|uses| - 1])
  }

  /** `Array.from(map.values())`. */
  function Values(t: Table): seq<ShoppingListItem>
    requires forall k :: k in t.order ==> k in t.entries
  {
    Lookup(t.order, t.entries)
  }

  function Lookup(keys: seq<string>, entries: map<string, ShoppingListItem>): seq<ShoppingListItem>
    requires forall k :: k in keys ==> k in entries
  {
    seq(|keys|, i requires 0 <= i < |keys| => entries[keys[i]])
  }

  /** What `generateShoppingList` returns for a selection. */
  function Aggregate(selected: seq<Selection>): seq<ShoppingListItem> {
    FoldWellFormed(Uses(selected));
    Values(Fold(Uses(selected)))
  }

  // ---------------------------------------------------------------------
  // The imperative procedure

  method GenerateShoppingList(selectedMeals: seq<Selection>) returns (items: seq<ShoppingListItem>)
    ensures items == Aggregate(selectedMeals)
  {
    var order: seq<string> := [];
    var entries: map<string, ShoppingListItem> := map[];
    var i := 0;
    while i < |selectedMeals|
      invariant 0 <= i <= |selectedMeals|
      invariant Table(order, entries) == Fold(Uses(selectedMeals[..i]))
    {
      order, entries := AddMeal(Uses(selectedMeals[..i]), order, entries, selectedMeals[i]);
      assert selectedMeals[..i + 1][..i] == selectedMeals[..i];
      i := i + 1;
    }
    assert selectedMeals[..i] == selectedMeals;
    FoldWellFormed(Uses(selectedMeals));
    items := Values(Table(order, entries));
  }

  /** The outer `forEach` callback: visits the ingredients of one selected
      meal, updating the map in place. `done` are the uses already folded. */
  method AddMeal(ghost done: seq<Use>, order0: seq<string>, entries0: map<string, ShoppingListItem>, sel: Selection)
    returns (order: seq<string>, entries: map<string, ShoppingListItem>)
    requires Table(order0, entries0) == Fold(done)
    ensures Table(order, entries) == Fold(done + MealUses(sel))
  {
    order, entries := order0, entries0;
    var option := sel.option;
    var quantity := sel.quantity;
    ghost var visits := MealUses(sel);
    ghost var folded := done;
    var j := 0;
    while j < |option.ingredients|
      invariant 0 <= j <= |option.ingredients|
      invariant folded == done + visits[..j]
      invariant Table(order, entries) == Fold(folded)
    {
      ghost var visit := visits[j];
      order, entries := VisitIngredient(order, entries, option.name, option.ingredients[j], quantity);
      FoldSnoc(folded, visit);
      assert visits[..j + 1] == visits[..j] + [visit];
      folded := folded + [visit];
      j := j + 1;
    }
    assert visits[..j] == visits;
  }

  /** The inner `forEach` callback: adds one ingredient line, scaled by the
      meal's quantity, to the map. */
  method VisitIngredient(order0: seq<string>, entries0: map<string, ShoppingListItem>,
                         mealName: string, ingredient: MealIngredient, quantity: real)
    returns (order: seq<string>, entries: map<string, ShoppingListItem>)
    ensures Table(order, entries) ==
      Step(Table(order0, entries0), Use(mealName, ingredient.name, ingredient.unit, Scale(ingredient.amount, quantity)))
  {
    order, entries := order0, entries0;
    var key := Key(ingredient.name, ingredient.unit);
    var amount := Scale(ingredient.amount, quantity);
    if key in entries {
      var existing := entries[key];
      entries := entries[key := existing.(
        totalAmount := existing.totalAmount + amount,
        meals := existing.meals + [mealName])];
    } else {
      order := order + [key];
      entries := entries[key := ShoppingListItem(ingredient.name, amount, ingredient.unit, [mealName])];
    }
  }

  // ---------------------------------------------------------------------
  // The fold agrees with the reference definition

  lemma FoldSnoc(uses: seq<Use>, u: Use)
    ensures Fold(uses + [u]) == Step(Fold(uses), u)
  {
    assert (uses + [u])[..|uses|] == uses;
  }

  lemma UseKeysSnoc(uses: seq<Use>, u: Use)
    ensures UseKeys(uses + [u]) == UseKeys(uses) + [UseKey(u)]
  {
  }

  lemma MealNamesSnoc(uses: seq<Use>, u: Use)
    ensures MealNames(uses + [u]) == MealNames(uses) + [u.meal]
  {
  }

  lemma TotalAmountSnoc(uses: seq<Use>, u: Use)
    ensures TotalAmount(uses + [u]) == TotalAmount(uses) + u.amount
  {
    assert (uses + [u])[..|uses|] == uses;
  }

  /** The map's entries agree with the reference definition. */
  ghost predicate Expected(uses: seq<Use>, t: Table) {
    forall k :: k in t.entries ==> k in UseKeys(uses) && t.entries[k] == ExpectedItem(uses, k)
  }

  /** A key seen again: its item gains the new use, and its first use stays. */
  lemma StepExistingKey(init: seq<Use>, u: Use)
    requires UseKey(u) in UseKeys(init)
    ensures UseKey(u) in UseKeys(init + [u])
    ensures ExpectedItem(init + [u], UseKey(u)) ==
      var e := ExpectedItem(init, UseKey(u));
      e.(totalAmount := e.totalAmount + u.amount, meals := e.meals + [u.meal])
  {
    var k := UseKey(u);
    UseKeysSnoc(init, u);
    FirstIndexPrefix(UseKeys(init), [k], k);
    FilterSnoc(init, u, HasKey(k));
    MealNamesSnoc(Filter(init, HasKey(k)), u);
    TotalAmountSnoc(Filter(init, HasKey(k)), u);
  }

  lemma NoUseOfAbsentKey(uses: seq<Use>, k: string)
    requires k !in UseKeys(uses)
    ensures Filter(uses, HasKey(k)) == []
  {
    forall v | v in uses
      ensures !HasKey(k)(v)
    {
      var i :| 0 <= i < |uses| && uses[i] == v;
      assert UseKeys(uses)[i] == UseKey(v);
    }
    FilterKeepsNone(uses, HasKey(k));
  }

  /** A key seen for the first time: its item is made from this use alone. */
  lemma StepNewKey(init: seq<Use>, u: Use)
    requires UseKey(u) !in UseKeys(init)
    ensures UseKey(u) in UseKeys(init + [u])
    ensures ExpectedItem(init + [u], UseKey(u)) == ShoppingListItem(u.name, u.amount, u.unit, [u.meal])
  {
    var k := UseKey(u);
    UseKeysSnoc(init, u);
    FirstIndexUnique(UseKeys(init + [u]), k, |init|);
    FilterSnoc(init, u, HasKey(k));
    NoUseOfAbsentKey(init, k);
    assert TotalAmount([u]) == u.amount by {
      assert [u][..0] == [];
    }
  }

  /** Another key: its item is untouched by this use. */
  lemma StepOtherKey(init: seq<Use>, u: Use, k: string)
    requires k in UseKeys(init) && k != UseKey(u)
    ensures k in UseKeys(init + [u]) && ExpectedItem(init + [u], k) == ExpectedItem(init, k)
  {
    UseKeysSnoc(init, u);
    FirstIndexPrefix(UseKeys(init), [UseKey(u)], k);
    FilterSnoc(init, u, HasKey(k));
  }

  /** The entry of any key after one step agrees with the reference
      definition over the longer list of uses. */
  lemma StepEntry(init: seq<Use>, u: Use, t: Table, k: string)
    requires Expected(init, t)
    requires forall k :: k in t.entries <==> k in UseKeys(init)
    requires k in Step(t, u).entries
    ensures k in UseKeys(init + [u]) && Step(t, u).entries[k] == ExpectedItem(init + [u], k)
  {
    UseKeysSnoc(init, u);
    if k == UseKey(u) {
      if k in t.entries {
        StepExistingKey(init, u);
      } else {
        StepNewKey(init, u);
      }
    } else {
      StepOtherKey(init, u, k);
    }
  }

  lemma StepPreservesExpected(init: seq<Use>, u: Use, t: Table)
    requires Expected(init, t)
    requires forall k :: k in t.entries <==> k in UseKeys(init)
    ensures Expected(init + [u], Step(t, u))
    ensures forall k :: k in Step(t, u).entries <==> k in UseKeys(init + [u])
  {
    UseKeysSnoc(init, u);
    forall k | k in Step(t, u).entries
      ensures k in UseKeys(init + [u]) && Step(t, u).entries[k] == ExpectedItem(init + [u], k)
    {
      StepEntry(init, u, t, k);
    }
  }

  /** The filled map holds, in first-occurrence order, exactly the keys that
      occur, and under each key the item of the reference definition. */
  lemma {:induction false} FoldIsExpected(uses: seq<Use>)
    ensures Fold(uses).order == Dedup(UseKeys(uses))
    ensures forall k :: k in Fold(uses).entries <==> k in UseKeys(uses)
    ensures Expected(uses, Fold(uses))
  {
    if uses != [] {
      var init := uses[..|uses| - 1];
      var u := uses[|uses| - 1];
      assert uses == init + [u];
      FoldIsExpected(init);
      UseKeysSnoc(init, u);
      DedupSnoc(UseKeys(init), UseKey(u));
      StepPreservesExpected(init, u, Fold(init));
    }
  }

  lemma FoldWellFormed(uses: seq<Use>)
    ensures WellFormed(Fold(uses))
  {
    FoldIsExpected(uses);
  }

  /** An item's key is the key it is stored under. */
  lemma ExpectedItemKey(uses: seq<Use>, k: string)
    requires k in UseKeys(uses)
    ensures ItemKey(ExpectedItem(uses, k)) == k
  {
    var i := FirstIndex(UseKeys(uses), k);
    assert UseKeys(uses)[i] == UseKey(uses[i]);
  }

  // ---------------------------------------------------------------------
  // Properties of the shopping list

  /** Nothing selected, nothing to buy. */
  lemma EmptySelection()
    ensures Aggregate([]) == []
  {
  }

  /** The items' keys are the distinct keys of the ingredient uses, in the
      order in which each key first occurred. */
  lemma {:induction false} ItemKeysAreFirstOccurrences(selected: seq<Selection>)
    ensures ItemKeys(Aggregate(selected)) == Dedup(UseKeys(Uses(selected)))
  {
    var uses := Uses(selected);
    FoldIsExpected(uses);
    var t := Fold(uses);
    var items := Aggregate(selected);
    forall i | 0 <= i < |items|
      ensures ItemKeys(items)[i] == t.order[i]
    {
      ExpectedItemKey(uses, t.order[i]);
    }
  }

  /** One item per distinct key encountered, and no key twice. */
  lemma ItemKeysUnique(selected: seq<Selection>)
    ensures Distinct(ItemKeys(Aggregate(selected)))
    ensures forall k :: k in ItemKeys(Aggregate(selected)) <==> k in UseKeys(Uses(selected))
  {
    ItemKeysAreFirstOccurrences(selected);
  }

  /** Items appear in the order in which their keys first occurred. */
  lemma ItemsInFirstOccurrenceOrder(selected: seq<Selection>)
    ensures forall p, q :: 0 <= p < q < |Aggregate(selected)| ==>
      ItemKey(Aggregate(selected)[p]) in UseKeys(Uses(selected)) &&
      ItemKey(Aggregate(selected)[q]) in UseKeys(Uses(selected)) &&
      FirstIndex(UseKeys(Uses(selected)), ItemKey(Aggregate(selected)[p])) <
      FirstIndex(UseKeys(Uses(selected)), ItemKey(Aggregate(selected)[q]))
  {
    ItemKeysAreFirstOccurrences(selected);
    var keys := UseKeys(Uses(selected));
    DedupFirstOccurrenceOrder(keys);
    var items := Aggregate(selected);
    assert forall p :: 0 <= p < |items| ==> ItemKey(items[p]) == ItemKeys(items)[p];
  }

  /** Each item totals `amount × quantity` over every use of its key, lists
      one meal name per use in visiting order, and carries the ingredient
      name and unit of the first use, which later uses never overwrite. */
  lemma ItemsSumEveryUse(selected: seq<Selection>)
    ensures forall i :: 0 <= i < |Aggregate(selected)| ==>
      var item := Aggregate(selected)[i];
      var uses := Uses(selected);
      var mine := Filter(uses, HasKey(ItemKey(item)));
      && ItemKey(item) in UseKeys(uses)
      && item.totalAmount == TotalAmount(mine)
      && item.meals == MealNames(mine)
      && item.ingredient == uses[FirstIndex(UseKeys(uses), ItemKey(item))].name
      && item.unit == uses[FirstIndex(UseKeys(uses), ItemKey(item))].unit
  {
    var uses := Uses(selected);
    FoldIsExpected(uses);
    var t := Fold(uses);
    forall i | 0 <= i < |t.order|
      ensures ItemKey(t.entries[t.order[i]]) == t.order[i]
    {
      ExpectedItemKey(uses, t.order[i]);
    }
  }

  /** The number of uses of key `k` is how often `k` occurs among the keys. */
  lemma {:induction false} UsesOfKeyCount(uses: seq<Use>, k: string)
    ensures |Filter(uses, HasKey(k))| == Occurrences(UseKeys(uses), k)
  {
    if uses != [] {
      var init := uses[..|uses| - 1];
      var u := uses[|uses| - 1];
      assert uses == init + [u];
      UsesOfKeyCount(init, k);
      FilterSnoc(init, u, HasKey(k));
      UseKeysSnoc(init, u);
      OccurrencesSnoc(UseKeys(init), UseKey(u), k);
    }
  }

  function MealCount(items: seq<ShoppingListItem>): nat {
    if items == [] then 0
    else MealCount(items[..|items| - 1]) + |items[|items| - 1].meals|
  }

  lemma {:induction false} MealCountIsSumOccurrences(keys: seq<string>, entries: map<string, ShoppingListItem>, s: seq<string>)
    requires forall k :: k in keys ==> k in entries && |entries[k].meals| == Occurrences(s, k)
    ensures MealCount(Lookup(keys, entries)) == SumOccurrences(keys, s)
  {
    if keys != [] {
      var init := keys[..|keys| - 1];
      assert forall k :: k in init ==> k in keys;
      MealCountIsSumOccurrences(init, entries, s);
      var items := Lookup(keys, entries);
      assert items[..|items| - 1] == Lookup(init, entries);
    }
  }

  /** Every ingredient use adds exactly one meal name to exactly one item. */
  lemma MealNamesCountUses(selected: seq<Selection>)
    ensures MealCount(Aggregate(selected)) == |Uses(selected)|
  {
    var uses := Uses(selected);
    FoldIsExpected(uses);
    var t := Fold(uses);
    forall k | k in t.order
      ensures k in t.entries && |t.entries[k].meals| == Occurrences(UseKeys(uses), k)
    {
      UsesOfKeyCount(uses, k);
    }
    MealCountIsSumOccurrences(t.order, t.entries, UseKeys(uses));
    DedupCountsEveryEntry(UseKeys(uses));
  }

  /** There are never more items than ingredient uses. */
  lemma AtMostOneItemPerUse(selected: seq<Selection>)
    ensures |Aggregate(selected)| <= |Uses(selected)|
  {
    ItemKeysAreFirstOccurrences(selected);
  }

  /** The plain hyphen-joined key merges distinct ingredients: name "a-b"
      with unit "c" and name "a" with unit "b-c" become one item, which keeps
      the first one's name and unit and adds the second one's amount to it. */
  lemma KeyCollisionMergesIngredients(meal: string)
    ensures Aggregate([Selection(MealOption(meal,
              [MealIngredient("a-b", 1.0, "c"), MealIngredient("a", 2.0, "b-c")]), 1.0)])
         == [ShoppingListItem("a-b", 3.0, "c", [meal, meal])]
  {
    var sel := Selection(MealOption(meal,
      [MealIngredient("a-b", 1.0, "c"), MealIngredient("a", 2.0, "b-c")]), 1.0);
    var u1 := Use(meal, "a-b", "c", 1.0);
    var u2 := Use(meal, "a", "b-c", 2.0);
    assert [sel][..0] == [];
    assert MealUses(sel) == [u1, u2];
    assert Uses([sel]) == [u1, u2];
    assert UseKey(u1) == "a-b-c" && UseKey(u2) == "a-b-c";
    var t1 := Table(["a-b-c"], map["a-b-c" := ShoppingListItem("a-b", 1.0, "c", [meal])]);
    assert Fold([u1]) == t1 by {
      assert [u1][..0] == [];
    }
    var t2 := Table(["a-b-c"], map["a-b-c" := ShoppingListItem("a-b", 3.0, "c", [meal, meal])]);
    assert Fold([u1, u2]) == t2 by {
      assert [u1, u2][..1] == [u1];
      var merged := ShoppingListItem("a-b", 3.0, "c", [meal, meal]);
      assert t1.entries["a-b-c"].(totalAmount := 1.0 + 2.0, meals := [meal] + [meal]) == merged;
      assert t1.entries["a-b-c" := merged] == t2.entries;
      assert Step(t1, u2) == t2;
    }
  }
}

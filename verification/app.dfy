/** The food list of the React front end (src/App.tsx, shapes from
    src/types.ts). State is replaced wholesale through `setFoods`, so every
    handler is a function from the old list to the new one; ids and dates,
    which the source takes from the clock, are parameters. */
module App {
  import opened Common
  import opened NutrientTotals

  /** `FoodItem` of src/types.ts. */
  datatype FoodItem = FoodItem(id: string, name: string, calories: real, protein: real, carbs: real, fat: real, date: Timestamp)

  /** The four nutrient fields of an item. */
  function ItemNutrients(food: FoodItem): Nutrients
  {
    Nutrients(food.calories, food.protein, food.carbs, food.fat)
  }

  /** `foodDatabase`: approximate nutrients of the nine foods the detector
      can report, keyed by lower-case name. */
  const FoodDatabase: map<string, Nutrients> := map[
    "banana" := Nutrients(105.0, 1.3, 27.0, 0.3),
    "apple" := Nutrients(95.0, 0.5, 25.0, 0.3),
    "orange" := Nutrients(62.0, 1.2, 15.0, 0.2),
    "carrot" := Nutrients(41.0, 0.9, 10.0, 0.2),
    "broccoli" := Nutrients(55.0, 3.7, 11.0, 0.6),
    "sandwich" := Nutrients(300.0, 15.0, 35.0, 12.0),
    "pizza" := Nutrients(285.0, 12.0, 36.0, 10.0),
    "donut" := Nutrients(250.0, 4.0, 30.0, 14.0),
    "cake" := Nutrients(350.0, 5.0, 50.0, 15.0)
  ]

  /** `handleAddFood`: the old list with the new food at the end. */
  function HandleAddFood(foods: seq<FoodItem>, food: FoodItem): (r: seq<FoodItem>)
    ensures |r| == |foods| + 1 && r[..|foods|] == foods && r[|foods|] == food
  {
    foods + [food]
  }

  /** `handleDeleteFood`: `foods.filter(food => food.id !== id)`. */
  function HandleDeleteFood(foods: seq<FoodItem>, id: string): (r: seq<FoodItem>)
    ensures |r| <= |foods|
  {
    if foods == [] then []
    else
      var last := foods[|foods| - 1];
      HandleDeleteFood(foods[..|foods| - 1], id) + if last.id != id then [last] else []
  }

  /** The items `handleDeleteFood(id)` drops: those whose id is `id`. */
  function ItemsWithId(foods: seq<FoodItem>, id: string): seq<FoodItem>
  {
    if foods == [] then []
    else
      var last := foods[|foods| - 1];
      ItemsWithId(foods[..|foods| - 1], id) + if last.id == id then [last] else []
  }

  /** `handleFoodDetected`: look the name up in lower case; a known food is
      appended with the table's nutrients and the name as given, an unknown
      one changes nothing. */
  function HandleFoodDetected(foods: seq<FoodItem>, foodName: string, id: string, now: Timestamp): (r: seq<FoodItem>)
    ensures Lower(foodName) !in FoodDatabase ==> r == foods
    ensures Lower(foodName) in FoodDatabase ==>
      |r| == |foods| + 1 && r[..|foods|] == foods
      && r[|foods|].id == id && r[|foods|].name == foodName && r[|foods|].date == now
      && ItemNutrients(r[|foods|]) == FoodDatabase[Lower(foodName)]
  {
    var key := Lower(foodName);
    if key in FoodDatabase then
      var detectedFood := FoodDatabase[key];
      var newFood := FoodItem(id, foodName, detectedFood.calories, detectedFood.protein,
                              detectedFood.carbs, detectedFood.fat, now);
      HandleAddFood(foods, newFood)
    else
      foods
  }

  /** The nutrients of each item, in list order. */
  function NutrientsOfItems(foods: seq<FoodItem>): (r: seq<Nutrients>)
    ensures |r| == |foods|
  {
    seq(|foods|, i requires 0 <= i < |foods| => ItemNutrients(foods[i]))
  }

  /** `nutritionSummary`: the `reduce` from all-zero totals that adds each
      item's four fields. */
  function NutritionSummary(foods: seq<FoodItem>): (summary: Nutrients)
    ensures foods == [] ==> summary == Zero
  {
    Total(NutrientsOfItems(foods))
  }

  lemma NutrientsOfItemsConcat(xs: seq<FoodItem>, ys: seq<FoodItem>)
    ensures NutrientsOfItems(xs + ys) == NutrientsOfItems(xs) + NutrientsOfItems(ys)
  {
  }

  /** The summary of two lists put together is the sum of their summaries. */
  lemma SummaryConcat(xs: seq<FoodItem>, ys: seq<FoodItem>)
    ensures NutritionSummary(xs + ys) == Add(NutritionSummary(xs), NutritionSummary(ys))
  {
    NutrientsOfItemsConcat(xs, ys);
    TotalConcat(NutrientsOfItems(xs), NutrientsOfItems(ys));
  }

  /** Each summary field is the sum of that field over the list. */
  lemma SummaryIsFieldwiseSum(foods: seq<FoodItem>)
    ensures NutritionSummary(foods).calories == FieldSum(NutrientsOfItems(foods), (n: Nutrients) => n.calories)
    ensures NutritionSummary(foods).protein == FieldSum(NutrientsOfItems(foods), (n: Nutrients) => n.protein)
    ensures NutritionSummary(foods).carbs == FieldSum(NutrientsOfItems(foods), (n: Nutrients) => n.carbs)
    ensures NutritionSummary(foods).fat == FieldSum(NutrientsOfItems(foods), (n: Nutrients) => n.fat)
  {
    TotalIsFieldwiseSum(NutrientsOfItems(foods));
  }

  /** After adding a food the summary is the old summary plus that food. */
  lemma SummaryAfterAdd(foods: seq<FoodItem>, food: FoodItem)
    ensures NutritionSummary(HandleAddFood(foods, food)) == Add(NutritionSummary(foods), ItemNutrients(food))
  {
    SummaryConcat(foods, [food]);
    SummaryOfSingleton(food);
  }

  /** Deleting by id keeps the remaining items in their original order: it
      works piecewise on any split of the list. */
  lemma {:induction false} DeleteDistributes(xs: seq<FoodItem>, ys: seq<FoodItem>, id: string)
    ensures HandleDeleteFood(xs + ys, id) == HandleDeleteFood(xs, id) + HandleDeleteFood(ys, id)
  {
    if ys == [] {
      assert xs + ys == xs;
    } else {
      var init := ys[..|ys| - 1];
      assert (xs + ys)[..|xs + ys| - 1] == xs + init;
      DeleteDistributes(xs, init, id);
    }
  }

  /** After deleting an id, exactly the items with another id remain. */
  lemma {:induction false} DeleteKeepsExactlyOtherIds(foods: seq<FoodItem>, id: string)
    ensures forall f :: f in HandleDeleteFood(foods, id) <==> f in foods && f.id != id
  {
    if foods != [] {
      var init := foods[..|foods| - 1];
      DeleteKeepsExactlyOtherIds(init, id);
      assert foods == init + [foods[|foods| - 1]];
    }
  }

  /** Deleting an id that no item carries leaves the list unchanged. */
  lemma {:induction false} DeleteAbsentIdIsIdentity(foods: seq<FoodItem>, id: string)
    requires forall i :: 0 <= i < |foods| ==> foods[i].id != id
    ensures HandleDeleteFood(foods, id) == foods
  {
    if foods != [] {
      var init := foods[..|foods| - 1];
      DeleteAbsentIdIsIdentity(init, id);
      assert HandleDeleteFood(foods, id) == HandleDeleteFood(init, id) + [foods[|foods| - 1]];
      assert foods == init + [foods[|foods| - 1]];
    }
  }

  lemma SummaryOfSingleton(food: FoodItem)
    ensures NutritionSummary([food]) == ItemNutrients(food)
  {
    assert NutrientsOfItems([food]) == [ItemNutrients(food)];
    TotalOfSingleton(ItemNutrients(food));
  }

  /** Every item is either kept or dropped by a delete, so the summaries of
      the two parts add up to the summary of the whole list. */
  lemma {:induction false} DeletePartitionsSummary(foods: seq<FoodItem>, id: string)
    ensures NutritionSummary(foods)
         == Add(NutritionSummary(HandleDeleteFood(foods, id)), NutritionSummary(ItemsWithId(foods, id)))
  {
    if foods != [] {
      var init, last := foods[..|foods| - 1], foods[|foods| - 1];
      DeletePartitionsSummary(init, id);
      assert foods == init + [last];
      SummaryConcat(init, [last]);
      SummaryOfSingleton(last);
      var kept, dropped := HandleDeleteFood(init, id), ItemsWithId(init, id);
      var item := ItemNutrients(last);
      if last.id != id {
        assert HandleDeleteFood(foods, id) == kept + [last];
        assert ItemsWithId(foods, id) == dropped + [] == dropped;
        SummaryConcat(kept, [last]);
        AddRightSwap(NutritionSummary(kept), NutritionSummary(dropped), item);
      } else {
        assert HandleDeleteFood(foods, id) == kept + [] == kept;
        assert ItemsWithId(foods, id) == dropped + [last];
        SummaryConcat(dropped, [last]);
      }
    }
  }

  /** After deleting an id the summary is the old summary minus the items
      that carried it. */
  lemma SummaryAfterDelete(foods: seq<FoodItem>, id: string)
    ensures NutritionSummary(HandleDeleteFood(foods, id))
         == Sub(NutritionSummary(foods), NutritionSummary(ItemsWithId(foods, id)))
  {
    DeletePartitionsSummary(foods, id);
  }

  /** Detecting a known food grows the summary by exactly its table entry;
      an unknown name leaves it as it was. */
  lemma SummaryAfterFoodDetected(foods: seq<FoodItem>, foodName: string, id: string, now: Timestamp)
    ensures NutritionSummary(HandleFoodDetected(foods, foodName, id, now))
         == if Lower(foodName) in FoodDatabase
            then Add(NutritionSummary(foods), FoodDatabase[Lower(foodName)])
            else NutritionSummary(foods)
  {
    var key := Lower(foodName);
    if key in FoodDatabase {
      var d := FoodDatabase[key];
      var newFood := FoodItem(id, foodName, d.calories, d.protein, d.carbs, d.fat, now);
      SummaryAfterAdd(foods, newFood);
    }
  }
}

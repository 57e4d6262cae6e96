/**
 * The supply-requirement engine (`SupplyCalculator` in SupplyCalculator.js), for one call of
 * `getSupplyList` on a freshly constructed calculator: expand every item of every selected
 * category into per-class quantities for the duration, consolidate by name, attach a grand
 * total to each entry, and fold the nutrition category into nutrient totals.
 */
module Calculator {
  import opened Wrappers
  import opened Catalog
  import opened Items
  import opened Consolidation

  /** The calculator's inputs: head counts per class and the duration in days. */
  datatype Household = Household(adults: int, children: int, dogs: int, cats: int, duration: int) {
    function HeadCounts(): Counts {
      Counts(adults, children, dogs, cats)
    }
  }

  datatype IndividualClass = Adult | Child | Dog | Cat

  // ---------------------------------------------------------------------------
  // Expanding one item.
  // ---------------------------------------------------------------------------

  /**
   * The daily rate of one class: its own field if present, else the shared field
   * (`perPersonPerDay` for people, `perAnimalPerDay` for animals), else 0.
   */
  function DailyRate(item: ItemDef, c: IndividualClass): (r: real)
    ensures c == Adult ==> r == (if item.perAdultPerDay.Some? then item.perAdultPerDay.value
                                 else if item.perPersonPerDay.Some? then item.perPersonPerDay.value else 0.0)
    ensures c == Child ==> r == (if item.perChildPerDay.Some? then item.perChildPerDay.value
                                 else if item.perPersonPerDay.Some? then item.perPersonPerDay.value else 0.0)
    ensures c == Dog ==> r == (if item.perDogPerDay.Some? then item.perDogPerDay.value
                               else if item.perAnimalPerDay.Some? then item.perAnimalPerDay.value else 0.0)
    ensures c == Cat ==> r == (if item.perCatPerDay.Some? then item.perCatPerDay.value
                               else if item.perAnimalPerDay.Some? then item.perAnimalPerDay.value else 0.0)
  {
    var (own, shared) := match c
      case Adult => (item.perAdultPerDay, item.perPersonPerDay)
      case Child => (item.perChildPerDay, item.perPersonPerDay)
      case Dog => (item.perDogPerDay, item.perAnimalPerDay)
      case Cat => (item.perCatPerDay, item.perAnimalPerDay);
    own.GetOr(shared.GetOr(0.0))
  }

  /** JavaScript's `x || fallback` on an optional number: absent or zero gives the fallback. */
  function OrElse(x: Option<real>, fallback: real): real {
    if x.Some? && x.value != 0.0 then x.value else fallback
  }

  /** `Math.ceil`: the least integer not below `x`. */
  function Ceil(x: real): (n: int)
    ensures n as real >= x && (n - 1) as real < x
  {
    if x.Floor as real == x then x.Floor else x.Floor + 1
  }

  /**
   * A flat household or family amount after the threshold and sharing rules: zero when the
   * duration is below the threshold; divided by `sharedAmong` and rounded up when that is
   * above 1, with non-positive amounts becoming 0.
   */
  function SharedAmount(amount: real, duration: int, threshold: real, sharedAmong: real): (r: real)
    ensures duration as real < threshold ==> r == 0.0
    ensures threshold <= duration as real && sharedAmong <= 1.0 ==> r == amount
    ensures sharedAmong > 1.0 && amount <= 0.0 ==> r == 0.0
    ensures threshold <= duration as real && sharedAmong > 1.0 && amount > 0.0 ==>
              r == r.Floor as real && r * sharedAmong >= amount && (r - 1.0) * sharedAmong < amount
  {
    var kept := if duration as real < threshold then 0.0 else amount;
    if sharedAmong > 1.0 then
      if kept > 0.0 then
        var n := Ceil(kept / sharedAmong);
        CeilOfQuotient(kept, sharedAmong, n);
        n as real
      else 0.0
    else kept
  }

  lemma CeilOfQuotient(x: real, s: real, n: int)
    requires s > 0.0 && n as real >= x / s && (n - 1) as real < x / s
    ensures n as real * s >= x && (n as real - 1.0) * s < x
  {
    var q := x / s;
    assert q * s == x;
    MulLeftMonotone(q, n as real, s);
    MulStrict(n as real - 1.0, q, s);
  }

  lemma MulLeftMonotone(a: real, b: real, s: real)
    requires a <= b && s > 0.0
    ensures a * s <= b * s
  {
    assert b * s - a * s == (b - a) * s;
  }

  lemma MulStrict(a: real, b: real, s: real)
    requires a < b && s > 0.0
    ensures a * s < b * s
  {
    assert b * s - a * s == (b - a) * s;
  }

  /** The amount added once to each adult and each child, regardless of duration. */
  function PerPerson(item: ItemDef): real {
    item.perPerson.GetOr(0.0)
  }

  /** The per-class quantities before the flat per-person amount is added. */
  function DurationAmount(item: ItemDef, c: IndividualClass, duration: int): real {
    DailyRate(item, c) * duration as real
  }

  /** One catalog item expanded for a duration. */
  function ExpandItem(item: ItemDef, duration: int): (e: ExpandedItem)
    ensures e.name == item.name && e.unit == item.unit
    ensures e.amounts.perAdult == DailyRate(item, Adult) * duration as real + PerPerson(item)
    ensures e.amounts.perChild == DailyRate(item, Child) * duration as real + PerPerson(item)
    ensures e.amounts.perDog == DailyRate(item, Dog) * duration as real
    ensures e.amounts.perCat == DailyRate(item, Cat) * duration as real
    ensures e.amounts.perHousehold == SharedAmount(item.perHousehold.GetOr(0.0), duration,
                                                   OrElse(item.thresholdDuration, 0.0), OrElse(item.sharedAmong, 1.0))
    ensures e.amounts.perFamily == SharedAmount(item.perFamily.GetOr(0.0), duration,
                                                OrElse(item.thresholdDuration, 0.0), OrElse(item.sharedAmong, 1.0))
  {
    var threshold := OrElse(item.thresholdDuration, 0.0);
    var sharedAmong := OrElse(item.sharedAmong, 1.0);
    ExpandedItem(
      item.name,
      Quantities(
        DurationAmount(item, Adult, duration) + PerPerson(item),
        DurationAmount(item, Child, duration) + PerPerson(item),
        DurationAmount(item, Dog, duration),
        DurationAmount(item, Cat, duration),
        SharedAmount(item.perHousehold.GetOr(0.0), duration, threshold, sharedAmong),
        SharedAmount(item.perFamily.GetOr(0.0), duration, threshold, sharedAmong)),
      item.unit,
      NutrientsPerUnit(item.caloriesPerUnit.GetOr(0.0), item.proteinPerUnit.GetOr(0.0),
                       item.fatPerUnit.GetOr(0.0), item.carbsPerUnit.GetOr(0.0)))
  }

  // ---------------------------------------------------------------------------
  // Expanding a selection of categories.
  // ---------------------------------------------------------------------------

  function ExpandItems(items: seq<ItemDef>, duration: int): (r: seq<ExpandedItem>)
    ensures |r| == |items|
  {
    seq(|items|, i requires 0 <= i < |items| => ExpandItem(items[i], duration))
  }

  /** What one selected key contributes: the expansion of its category, or nothing if the key is unknown. */
  function KeyItems(catalog: Catalog, key: string, duration: int): seq<ExpandedItem> {
    match Lookup(catalog, key)
    case Some(category) => ExpandItems(category.items, duration)
    case None => []
  }

  /** The expanded items of all selected keys, in selection order (the calculator's `allItems`). */
  function ExpandSelection(catalog: Catalog, keys: seq<string>, duration: int): (r: seq<ExpandedItem>)
    ensures |r| == |SelectedItems(catalog, keys)|
    decreases |keys|
  {
    if |keys| == 0 then []
    else ExpandSelection(catalog, keys[..|keys| - 1], duration) + KeyItems(catalog, keys[|keys| - 1], duration)
  }

  // ---------------------------------------------------------------------------
  // Nutrition.
  // ---------------------------------------------------------------------------

  datatype Nutrition = Nutrition(calories: real, protein: real, fat: real, carbs: real)

  const NoNutrition := Nutrition(0.0, 0.0, 0.0, 0.0)

  const NutritionKey := "nutrition"

  /** An item's quantity over all individuals, from the per-class amounts before `perPerson`. */
  function HeadTotal(item: ItemDef, h: Household): real {
    DurationAmount(item, Adult, h.duration) * h.adults as real
    + DurationAmount(item, Child, h.duration) * h.children as real
    + DurationAmount(item, Dog, h.duration) * h.dogs as real
    + DurationAmount(item, Cat, h.duration) * h.cats as real
  }

  /** The item names the nutrition fold adds up. */
  const NutrientNames: set<string> := {"Calories", "Protein", "Fat", "Carbohydrates"}

  /** The four totals added together. */
  function NutritionSum(n: Nutrition): real {
    n.calories + n.protein + n.fat + n.carbs
  }

  /** Every total of `n` is at least the corresponding total of `m`. */
  predicate AtLeast(n: Nutrition, m: Nutrition) {
    n.calories >= m.calories && n.protein >= m.protein && n.fat >= m.fat && n.carbs >= m.carbs
  }

  /** The `switch` on the item name: the amount goes to the field it names, or nowhere. */
  function AddNutrient(n: Nutrition, name: string, amount: real): (r: Nutrition)
    ensures name !in NutrientNames ==> r == n
    ensures NutritionSum(r) == NutritionSum(n) + (if name in NutrientNames then amount else 0.0)
    ensures name != "Calories" ==> r.calories == n.calories
    ensures name != "Protein" ==> r.protein == n.protein
    ensures name != "Fat" ==> r.fat == n.fat
    ensures name != "Carbohydrates" ==> r.carbs == n.carbs
  {
    match name
    case "Calories" => n.(calories := n.calories + amount)
    case "Protein" => n.(protein := n.protein + amount)
    case "Fat" => n.(fat := n.fat + amount)
    case "Carbohydrates" => n.(carbs := n.carbs + amount)
    case _ => n
  }

  /** Folds the items of the nutrition category into the running totals. */
  function AccumulateItems(n: Nutrition, items: seq<ItemDef>, h: Household): (r: Nutrition)
    ensures (forall i :: 0 <= i < |items| ==> items[i].name !in NutrientNames) ==> r == n
    ensures (forall i :: 0 <= i < |items| ==> HeadTotal(items[i], h) >= 0.0) ==> AtLeast(r, n)
    decreases |items|
  {
    if |items| == 0 then n
    else
      var last := items[|items| - 1];
      AddNutrient(AccumulateItems(n, items[..|items| - 1], h), last.name, HeadTotal(last, h))
  }

  /** The nutrition totals after expanding every selected key. */
  function NutritionOf(h: Household, catalog: Catalog, keys: seq<string>): (r: Nutrition)
    ensures NutritionKey !in keys ==> r == NoNutrition
    decreases |keys|
  {
    if |keys| == 0 then NoNutrition
    else
      var before := NutritionOf(h, catalog, keys[..|keys| - 1]);
      var key := keys[|keys| - 1];
      if key == NutritionKey then
        match Lookup(catalog, key)
        case Some(category) => AccumulateItems(before, category.items, h)
        case None => before
      else before
  }

  // ---------------------------------------------------------------------------
  // Totals and the supply list.
  // ---------------------------------------------------------------------------

  /** A consolidated item together with its grand total (`{ ...item, total }`). */
  datatype SupplyEntry = SupplyEntry(item: ConsolidatedItem, total: real)

  function CalculateTotals(entries: seq<ConsolidatedItem>, h: Household): (r: seq<SupplyEntry>)
    ensures |r| == |entries|
    ensures forall k :: 0 <= k < |r| ==> r[k].item == entries[k]
    ensures forall k :: 0 <= k < |r| ==> r[k].total == Total(entries[k].amounts, h.HeadCounts())
  {
    seq(|entries|, k requires 0 <= k < |entries| => SupplyEntry(entries[k], Total(entries[k].amounts, h.HeadCounts())))
  }

  datatype SupplyList = SupplyList(entries: seq<SupplyEntry>, nutrition: Nutrition)

  /** `getSupplyList` on a fresh calculator. */
  function GetSupplyList(h: Household, catalog: Catalog, keys: seq<string>): (r: SupplyList)
    ensures |r.entries| <= |SelectedItems(catalog, keys)|
    ensures forall k :: 0 <= k < |r.entries| ==> r.entries[k].total == Total(r.entries[k].item.amounts, h.HeadCounts())
    ensures NutritionKey !in keys ==> r.nutrition == NoNutrition
  {
    SupplyList(CalculateTotals(Consolidate(ExpandSelection(catalog, keys, h.duration)), h),
               NutritionOf(h, catalog, keys))
  }

  // ---------------------------------------------------------------------------
  // Properties of expansion.
  // ---------------------------------------------------------------------------

  /** The flat `perPerson` amount moves the adult and child quantities by exactly its value and nothing else. */
  lemma PerPersonOnlyForPeople(item: ItemDef, duration: int, v: real)
    ensures var with, without := ExpandItem(item.(perPerson := Some(v)), duration).amounts,
                                 ExpandItem(item.(perPerson := None), duration).amounts;
            && with.perAdult == without.perAdult + v && with.perChild == without.perChild + v
            && with.perDog == without.perDog && with.perCat == without.perCat
            && with.perHousehold == without.perHousehold && with.perFamily == without.perFamily
  {
  }

  /** Without class-specific fields, adults and children share one rate, and so do dogs and cats. */
  lemma SharedRatesAgree(item: ItemDef)
    ensures item.perAdultPerDay.None? && item.perChildPerDay.None? ==> DailyRate(item, Adult) == DailyRate(item, Child)
    ensures item.perDogPerDay.None? && item.perCatPerDay.None? ==> DailyRate(item, Dog) == DailyRate(item, Cat)
  {
  }

  /** Threshold boundary: one below the threshold the household amount is 0, at the threshold it is kept. */
  lemma ThresholdBoundary()
    ensures var radio := Bare("Radio", "units").(perHousehold := Some(1.0), thresholdDuration := Some(7.0));
            && ExpandItem(radio, 6).amounts.perHousehold == 0.0
            && ExpandItem(radio, 7).amounts.perHousehold == 1.0
  {
  }

  lemma CeilIs(x: real, n: int)
    requires n as real >= x && (n - 1) as real < x
    ensures Ceil(x) == n
  {
  }

  /** Sharing rounds up: one tent among three is 1, seven among three is 3. */
  lemma SharingRoundsUp()
    ensures ExpandItem(Bare("Tent", "units").(perFamily := Some(1.0), sharedAmong := Some(3.0)), 1).amounts.perFamily == 1.0
    ensures ExpandItem(Bare("Tent", "units").(perFamily := Some(7.0), sharedAmong := Some(3.0)), 1).amounts.perFamily == 3.0
  {
    CeilIs(1.0 / 3.0, 1);
    CeilIs(7.0 / 3.0, 3);
    assert SharedAmount(1.0, 1, 0.0, 3.0) == 1.0;
    assert SharedAmount(7.0, 1, 0.0, 3.0) == 3.0;
  }

  lemma ExpandItemsAppend(a: seq<ItemDef>, b: seq<ItemDef>, duration: int)
    ensures ExpandItems(a + b, duration) == ExpandItems(a, duration) + ExpandItems(b, duration)
  {
  }

  /** Expanding a selection expands, one by one, exactly the catalog items the selection reaches. */
  lemma {:induction false} ExpandSelectionItemwise(catalog: Catalog, keys: seq<string>, duration: int)
    ensures ExpandSelection(catalog, keys, duration) == ExpandItems(SelectedItems(catalog, keys), duration)
    decreases |keys|
  {
    if |keys| > 0 {
      var p, key := keys[..|keys| - 1], keys[|keys| - 1];
      ExpandSelectionItemwise(catalog, p, duration);
      match Lookup(catalog, key)
      case Some(category) =>
        ExpandItemsAppend(SelectedItems(catalog, p), category.items, duration);
      case None =>
        assert SelectedItems(catalog, keys) == SelectedItems(catalog, p) + [];
        assert SelectedItems(catalog, p) + [] == SelectedItems(catalog, p);
    }
  }

  /**
   * Selecting every key of a catalog with distinct keys, once each and in order, expands
   * every catalog item in order.
   */
  lemma ExpandAllKeys(catalog: Catalog, duration: int)
    requires DistinctKeys(catalog)
    ensures ExpandSelection(catalog, CatalogKeys(catalog), duration) == ExpandItems(AllItems(catalog), duration)
  {
    SelectAllKeys(catalog, |catalog|);
    assert catalog[..|catalog|] == catalog && CatalogKeys(catalog)[..|catalog|] == CatalogKeys(catalog);
    ExpandSelectionItemwise(catalog, CatalogKeys(catalog), duration);
  }

  /**
   * When the catalog's keys and item names are all distinct, selecting every key and
   * consolidating merges nothing: one supply entry per catalog item.
   */
  lemma FullSelectionMergesNothing(catalog: Catalog, duration: int)
    requires DistinctKeys(catalog)
    requires forall i, j :: 0 <= i < j < |AllItems(catalog)| ==> AllItems(catalog)[i].name != AllItems(catalog)[j].name
    ensures var expanded := ExpandSelection(catalog, CatalogKeys(catalog), duration);
            |Consolidation.Consolidate(expanded)| == |expanded| == |AllItems(catalog)|
  {
    ExpandAllKeys(catalog, duration);
    var expanded := ExpandItems(AllItems(catalog), duration);
    assert Consolidation.DistinctNames(expanded) by {
      forall i, j | 0 <= i < j < |expanded|
        ensures expanded[i].name != expanded[j].name
      {
        assert expanded[i].name == AllItems(catalog)[i].name;
        assert expanded[j].name == AllItems(catalog)[j].name;
      }
    }
    Consolidation.ConsolidateLength(expanded);
  }


  /** A selected key missing from the catalog contributes no items. */
  lemma UnknownKeyContributesNothing(catalog: Catalog, keys: seq<string>, key: string, duration: int)
    requires !HasKey(catalog, key)
    ensures ExpandSelection(catalog, keys + [key], duration) == ExpandSelection(catalog, keys, duration)
  {
    assert (keys + [key])[..|keys|] == keys;
  }

  /** A key selected twice contributes each of its items twice, before consolidation. */
  lemma RepeatedKeyContributesTwice(catalog: Catalog, key: string, duration: int)
    ensures ExpandSelection(catalog, [key, key], duration) == KeyItems(catalog, key, duration) + KeyItems(catalog, key, duration)
  {
    assert [key, key][..1] == [key];
    assert ExpandSelection(catalog, [key], duration) == KeyItems(catalog, key, duration) by {
      assert [key][..0] == [];
    }
  }

  // ---------------------------------------------------------------------------
  // Properties of the nutrition fold.
  // ---------------------------------------------------------------------------

  /** The summed head totals of the items called `name`. */
  function NutrientSum(items: seq<ItemDef>, name: string, h: Household): real
    decreases |items|
  {
    if |items| == 0 then 0.0
    else
      var before := NutrientSum(items[..|items| - 1], name, h);
      if items[|items| - 1].name == name then before + HeadTotal(items[|items| - 1], h) else before
  }

  /**
   * Each nutrient total grows by exactly the head totals of the items bearing its name;
   * items with any other name change nothing.
   */
  lemma {:induction false} AccumulateByName(n: Nutrition, items: seq<ItemDef>, h: Household)
    ensures AccumulateItems(n, items, h) == Nutrition(
              n.calories + NutrientSum(items, "Calories", h), n.protein + NutrientSum(items, "Protein", h),
              n.fat + NutrientSum(items, "Fat", h), n.carbs + NutrientSum(items, "Carbohydrates", h))
    decreases |items|
  {
    if |items| > 0 {
      AccumulateByName(n, items[..|items| - 1], h);
    }
  }

  /** What selecting the nutrition key once adds to the totals. */
  function CategoryNutrition(h: Household, catalog: Catalog): Nutrition {
    match Lookup(catalog, NutritionKey)
    case Some(category) => AccumulateItems(NoNutrition, category.items, h)
    case None => NoNutrition
  }

  function Times(k: real, n: Nutrition): Nutrition {
    Nutrition(k * n.calories, k * n.protein, k * n.fat, k * n.carbs)
  }

  function PlusNutrition(a: Nutrition, b: Nutrition): Nutrition {
    Nutrition(a.calories + b.calories, a.protein + b.protein, a.fat + b.fat, a.carbs + b.carbs)
  }

  lemma TimesSucc(k: real, n: Nutrition)
    ensures PlusNutrition(Times(k, n), n) == Times(k + 1.0, n)
  {
    assert k * n.calories + n.calories == (k + 1.0) * n.calories;
    assert k * n.protein + n.protein == (k + 1.0) * n.protein;
    assert k * n.fat + n.fat == (k + 1.0) * n.fat;
    assert k * n.carbs + n.carbs == (k + 1.0) * n.carbs;
  }

  /** Folding a category onto running totals adds what it would add to zero totals. */
  lemma AccumulateShifts(before: Nutrition, items: seq<ItemDef>, h: Household)
    ensures AccumulateItems(before, items, h) == PlusNutrition(before, AccumulateItems(NoNutrition, items, h))
  {
    AccumulateByName(before, items, h);
    AccumulateByName(NoNutrition, items, h);
  }

  /** Selecting the nutrition key once more adds the category's contribution once more. */
  lemma OneMoreSelection(h: Household, catalog: Catalog, before: Nutrition, k: real)
    requires before == Times(k, CategoryNutrition(h, catalog))
    ensures (match Lookup(catalog, NutritionKey)
             case Some(category) => AccumulateItems(before, category.items, h)
             case None => before) == Times(k + 1.0, CategoryNutrition(h, catalog))
  {
    var once := CategoryNutrition(h, catalog);
    TimesSucc(k, once);
    match Lookup(catalog, NutritionKey)
    case Some(category) =>
      AccumulateShifts(before, category.items, h);
    case None =>
      assert PlusNutrition(Times(k, once), NoNutrition) == Times(k, once);
  }

  /**
   * Only the nutrition key feeds the totals, and each time it is selected it adds the same
   * amount: the totals are the category's contribution times the number of selections.
   */
  lemma {:induction false} NutritionCountsSelections(h: Household, catalog: Catalog, keys: seq<string>)
    ensures NutritionOf(h, catalog, keys) == Times(multiset(keys)[NutritionKey] as real, CategoryNutrition(h, catalog))
    decreases |keys|
  {
    var once := CategoryNutrition(h, catalog);
    if |keys| == 0 {
      assert Times(0.0, once) == NoNutrition;
    } else {
      var p, key := keys[..|keys| - 1], keys[|keys| - 1];
      assert keys == p + [key];
      assert multiset(keys) == multiset(p) + multiset{key};
      NutritionCountsSelections(h, catalog, p);
      var k := multiset(p)[NutritionKey] as real;
      var before := NutritionOf(h, catalog, p);
      assert before == Times(k, once);
      if key == NutritionKey {
        assert multiset(keys)[NutritionKey] as real == k + 1.0;
        OneMoreSelection(h, catalog, before, k);
      } else {
        assert multiset(keys)[NutritionKey] == multiset(p)[NutritionKey];
      }
    }
  }

  /** A selection without the nutrition key leaves every nutrient total at 0. */
  lemma NoNutritionWithoutKey(h: Household, catalog: Catalog, keys: seq<string>)
    requires NutritionKey !in keys
    ensures NutritionOf(h, catalog, keys) == NoNutrition
  {
    NutritionCountsSelections(h, catalog, keys);
    assert multiset(keys)[NutritionKey] == 0;
  }

  /**
   * For an item with no flat amounts, the nutrition fold's head total equals the grand total
   * the supply list shows for it, so folding before consolidation agrees with the list.
   */
  lemma HeadTotalMatchesSupplyTotal(item: ItemDef, h: Household)
    requires item.perPerson.None? && item.perHousehold.None? && item.perFamily.None?
    ensures HeadTotal(item, h) == Total(ExpandItem(item, h.duration).amounts, h.HeadCounts())
  {
  }

  // ---------------------------------------------------------------------------
  // Properties of the totals.
  // ---------------------------------------------------------------------------

  /** The summed grand totals of the expanded items called `name`. */
  function TotalNamed(items: seq<ExpandedItem>, name: string, c: Counts): real
    decreases |items|
  {
    if |items| == 0 then 0.0
    else
      var before := TotalNamed(items[..|items| - 1], name, c);
      if items[|items| - 1].name == name then before + Total(items[|items| - 1].amounts, c) else before
  }

  lemma {:induction false} TotalOfSumNamed(items: seq<ExpandedItem>, name: string, c: Counts)
    ensures Total(SumNamed(items, name), c) == TotalNamed(items, name, c)
    decreases |items|
  {
    if |items| == 0 {
      TotalOfNoQuantities(c);
    } else {
      TotalOfSumNamed(items[..|items| - 1], name, c);
      if items[|items| - 1].name == name {
        TotalOfPlus(SumNamed(items[..|items| - 1], name), items[|items| - 1].amounts, c);
      }
    }
  }

  /** Each entry's total is the sum of the totals of the expanded items that were merged into it. */
  lemma SupplyEntryTotals(h: Household, catalog: Catalog, keys: seq<string>)
    ensures var expanded, entries := ExpandSelection(catalog, keys, h.duration), GetSupplyList(h, catalog, keys).entries;
            forall k :: 0 <= k < |entries| ==>
              entries[k].total == TotalNamed(expanded, entries[k].item.name, h.HeadCounts())
  {
    var expanded := ExpandSelection(catalog, keys, h.duration);
    var consolidated := Consolidate(expanded);
    ConsolidateCorrect(expanded);
    var entries := CalculateTotals(consolidated, h);
    forall k | 0 <= k < |entries|
      ensures entries[k].total == TotalNamed(expanded, entries[k].item.name, h.HeadCounts())
    {
      TotalOfSumNamed(expanded, consolidated[k].name, h.HeadCounts());
    }
  }

  /** Sum of the grand totals of a list of items. */
  function ItemTotals(items: seq<ExpandedItem>, c: Counts): real
    decreases |items|
  {
    if |items| == 0 then 0.0 else ItemTotals(items[..|items| - 1], c) + Total(items[|items| - 1].amounts, c)
  }

  function EntryTotals(entries: seq<SupplyEntry>): real
    decreases |entries|
  {
    if |entries| == 0 then 0.0 else EntryTotals(entries[..|entries| - 1]) + entries[|entries| - 1].total
  }

  lemma {:induction false} TotalOfItemAmounts(items: seq<ExpandedItem>, c: Counts)
    ensures Total(ItemAmounts(items), c) == ItemTotals(items, c)
    decreases |items|
  {
    if |items| == 0 {
      TotalOfNoQuantities(c);
    } else {
      TotalOfItemAmounts(items[..|items| - 1], c);
      TotalOfPlus(ItemAmounts(items[..|items| - 1]), items[|items| - 1].amounts, c);
    }
  }

  lemma {:induction false} TotalOfEntryAmounts(entries: seq<ConsolidatedItem>, h: Household)
    ensures Total(EntryAmounts(entries), h.HeadCounts()) == EntryTotals(CalculateTotals(entries, h))
    decreases |entries|
  {
    if |entries| == 0 {
      TotalOfNoQuantities(h.HeadCounts());
    } else {
      var p := entries[..|entries| - 1];
      TotalOfEntryAmounts(p, h);
      TotalOfPlus(EntryAmounts(p), entries[|entries| - 1].amounts, h.HeadCounts());
      assert CalculateTotals(entries, h)[..|entries| - 1] == CalculateTotals(p, h);
    }
  }

  /** Consolidation neither adds nor loses anything: the list's totals add up to the expanded items' totals. */
  lemma GrandTotalConserved(h: Household, catalog: Catalog, keys: seq<string>)
    ensures EntryTotals(GetSupplyList(h, catalog, keys).entries) ==
            ItemTotals(ExpandSelection(catalog, keys, h.duration), h.HeadCounts())
  {
    var expanded := ExpandSelection(catalog, keys, h.duration);
    ConsolidateConserves(expanded);
    TotalOfEntryAmounts(Consolidate(expanded), h);
    TotalOfItemAmounts(expanded, h.HeadCounts());
  }

  /** The list has one entry per distinct expanded name, in order of first occurrence, each with its summed quantities. */
  lemma SupplyListShape(h: Household, catalog: Catalog, keys: seq<string>)
    ensures var expanded, entries := ExpandSelection(catalog, keys, h.duration), GetSupplyList(h, catalog, keys).entries;
            && |entries| == |Dedup(NameList(expanded))|
            && (forall k :: 0 <= k < |entries| ==> entries[k].item.name == Dedup(NameList(expanded))[k])
            && (forall k :: 0 <= k < |entries| ==> entries[k].item.amounts == SumNamed(expanded, entries[k].item.name))
  {
    var expanded := ExpandSelection(catalog, keys, h.duration);
    ConsolidateNames(expanded);
    ConsolidateCorrect(expanded);
  }

  // ---------------------------------------------------------------------------
  // A longer duration never asks for less.
  // ---------------------------------------------------------------------------

  predicate NonNegative(x: Option<real>) {
    x.Some? ==> x.value >= 0.0
  }

  /** Every rate and flat amount that is present is non-negative. */
  predicate NonNegativeItem(item: ItemDef) {
    && NonNegative(item.perAdultPerDay) && NonNegative(item.perChildPerDay) && NonNegative(item.perPersonPerDay)
    && NonNegative(item.perDogPerDay) && NonNegative(item.perCatPerDay) && NonNegative(item.perAnimalPerDay)
    && NonNegative(item.perPerson) && NonNegative(item.perHousehold) && NonNegative(item.perFamily)
  }

  predicate NonNegativeCatalog(catalog: Catalog) {
    forall i, j :: 0 <= i < |catalog| && 0 <= j < |catalog[i].category.items| ==> NonNegativeItem(catalog[i].category.items[j])
  }

  predicate NonNegativeCounts(c: Counts) {
    c.adults >= 0 && c.children >= 0 && c.dogs >= 0 && c.cats >= 0
  }

  lemma SharedAmountMonotone(amount: real, d1: int, d2: int, threshold: real, sharedAmong: real)
    requires amount >= 0.0 && d1 <= d2
    ensures 0.0 <= SharedAmount(amount, d1, threshold, sharedAmong) <= SharedAmount(amount, d2, threshold, sharedAmong)
  {
  }

  lemma DurationAmountMonotone(item: ItemDef, cls: IndividualClass, d1: int, d2: int)
    requires NonNegativeItem(item) && d1 <= d2
    ensures DurationAmount(item, cls, d1) <= DurationAmount(item, cls, d2)
  {
    var rate := DailyRate(item, cls);
    assert rate >= 0.0;
    assert DurationAmount(item, cls, d2) - DurationAmount(item, cls, d1) == rate * (d2 - d1) as real;
    NonNegativeProduct(rate, (d2 - d1) as real);
  }

  lemma NonNegativeProduct(x: real, y: real)
    requires x >= 0.0 && y >= 0.0
    ensures x * y >= 0.0
  {
  }

  lemma ExpandItemMonotone(item: ItemDef, d1: int, d2: int, c: Counts)
    requires NonNegativeItem(item) && NonNegativeCounts(c) && d1 <= d2
    ensures Total(ExpandItem(item, d1).amounts, c) <= Total(ExpandItem(item, d2).amounts, c)
  {
    var threshold, sharedAmong := OrElse(item.thresholdDuration, 0.0), OrElse(item.sharedAmong, 1.0);
    DurationAmountMonotone(item, Adult, d1, d2);
    DurationAmountMonotone(item, Child, d1, d2);
    DurationAmountMonotone(item, Dog, d1, d2);
    DurationAmountMonotone(item, Cat, d1, d2);
    SharedAmountMonotone(item.perHousehold.GetOr(0.0), d1, d2, threshold, sharedAmong);
    SharedAmountMonotone(item.perFamily.GetOr(0.0), d1, d2, threshold, sharedAmong);
    TotalMonotone(ExpandItem(item, d1).amounts, ExpandItem(item, d2).amounts, c);
  }

  /** The expansions for two durations line up name by name, the longer one never smaller. */
  ghost predicate Dominated(a: seq<ExpandedItem>, b: seq<ExpandedItem>, c: Counts) {
    && NameList(a) == NameList(b)
    && forall i :: 0 <= i < |a| ==> Total(a[i].amounts, c) <= Total(b[i].amounts, c)
  }

  lemma KeyItemsMonotone(catalog: Catalog, key: string, d1: int, d2: int, c: Counts)
    requires NonNegativeCatalog(catalog) && NonNegativeCounts(c) && d1 <= d2
    ensures Dominated(KeyItems(catalog, key, d1), KeyItems(catalog, key, d2), c)
  {
    match Lookup(catalog, key)
    case Some(category) =>
      var a, b := ExpandItems(category.items, d1), ExpandItems(category.items, d2);
      var i :| 0 <= i < |catalog| && catalog[i].key == key && catalog[i].category == category;
      forall j | 0 <= j < |a|
        ensures Total(a[j].amounts, c) <= Total(b[j].amounts, c)
      {
        assert NonNegativeItem(catalog[i].category.items[j]);
        ExpandItemMonotone(category.items[j], d1, d2, c);
      }
      assert NameList(a) == NameList(b);
    case None =>
  }

  lemma DominatedAppend(a: seq<ExpandedItem>, b: seq<ExpandedItem>, a': seq<ExpandedItem>, b': seq<ExpandedItem>, c: Counts)
    requires Dominated(a, b, c) && Dominated(a', b', c)
    ensures Dominated(a + a', b + b', c)
  {
    assert |a| == |NameList(a)| == |NameList(b)| == |b|;
    assert NameList(a + a') == NameList(a) + NameList(a');
    assert NameList(b + b') == NameList(b) + NameList(b');
    forall i | 0 <= i < |a + a'|
      ensures Total((a + a')[i].amounts, c) <= Total((b + b')[i].amounts, c)
    {
      if i >= |a| {
        assert (a + a')[i] == a'[i - |a|] && (b + b')[i] == b'[i - |a|];
      }
    }
  }

  lemma {:induction false} ExpandSelectionMonotone(catalog: Catalog, keys: seq<string>, d1: int, d2: int, c: Counts)
    requires NonNegativeCatalog(catalog) && NonNegativeCounts(c) && d1 <= d2
    ensures Dominated(ExpandSelection(catalog, keys, d1), ExpandSelection(catalog, keys, d2), c)
    decreases |keys|
  {
    if |keys| > 0 {
      var p, key := keys[..|keys| - 1], keys[|keys| - 1];
      ExpandSelectionMonotone(catalog, p, d1, d2, c);
      KeyItemsMonotone(catalog, key, d1, d2, c);
      DominatedAppend(ExpandSelection(catalog, p, d1), ExpandSelection(catalog, p, d2),
                      KeyItems(catalog, key, d1), KeyItems(catalog, key, d2), c);
    }
  }

  lemma {:induction false} TotalNamedMonotone(a: seq<ExpandedItem>, b: seq<ExpandedItem>, name: string, c: Counts)
    requires Dominated(a, b, c)
    ensures TotalNamed(a, name, c) <= TotalNamed(b, name, c)
    decreases |a|
  {
    if |a| > 0 {
      var n := |a|;
      assert NameList(a[..n - 1]) == NameList(b[..n - 1]) by {
        assert NameList(a[..n - 1]) == NameList(a)[..n - 1];
        assert NameList(b[..n - 1]) == NameList(b)[..n - 1];
      }
      assert a[n - 1].name == NameList(a)[n - 1];
      TotalNamedMonotone(a[..n - 1], b[..n - 1], name, c);
    }
  }

  /**
   * With non-negative rates, amounts and head counts, a longer duration gives a list with the same
   * names in the same order and no smaller total anywhere: the threshold can only switch a flat
   * amount from 0 to its value.
   */
  lemma LongerDurationNeverNeedsLess(h1: Household, h2: Household, catalog: Catalog, keys: seq<string>)
    requires h1.HeadCounts() == h2.HeadCounts() && NonNegativeCounts(h1.HeadCounts())
    requires h1.duration <= h2.duration && NonNegativeCatalog(catalog)
    ensures var l1, l2 := GetSupplyList(h1, catalog, keys).entries, GetSupplyList(h2, catalog, keys).entries;
            && |l1| == |l2|
            && forall k :: 0 <= k < |l1| ==> l1[k].item.name == l2[k].item.name && l1[k].total <= l2[k].total
  {
    var c := h1.HeadCounts();
    var e1, e2 := ExpandSelection(catalog, keys, h1.duration), ExpandSelection(catalog, keys, h2.duration);
    ExpandSelectionMonotone(catalog, keys, h1.duration, h2.duration, c);
    ConsolidateSameNames(e1, e2);
    SupplyEntryTotals(h1, catalog, keys);
    SupplyEntryTotals(h2, catalog, keys);
    var l1, l2 := GetSupplyList(h1, catalog, keys).entries, GetSupplyList(h2, catalog, keys).entries;
    forall k | 0 <= k < |l1|
      ensures l1[k].item.name == l2[k].item.name && l1[k].total <= l2[k].total
    {
      TotalNamedMonotone(e1, e2, l1[k].item.name, c);
    }
  }
}

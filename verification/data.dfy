/**
 * The shipped catalog (`categories` in data.js) and its UI grouping (`categoryGroups`),
 * with the facts about them that the engine's edge cases depend on.
 */
module Data {
  import opened Wrappers
  import opened Catalog
  import opened Items
  import Consolidation
  import Calculator

  function WaterCategory(): Category {
    Category("Water", [
      Bare("Water", "gallons").(perAdultPerDay := Some(1.0), perChildPerDay := Some(0.5),
                                perDogPerDay := Some(1.0), perCatPerDay := Some(0.5))])
  }

  function FoodCategory(): Category {
    Category("Food", [
      Bare("Rice (lbs)", "lbs").(perAdultPerDay := Some(0.625), perChildPerDay := Some(0.3),
                                   caloriesPerUnit := Some(1600.0), proteinPerUnit := Some(30.0),
                                   fatPerUnit := Some(1.0), carbsPerUnit := Some(350.0)),
      Bare("Canned Meat (cans)", "cans").(perAdultPerDay := Some(0.875), perChildPerDay := Some(0.4),
                                            caloriesPerUnit := Some(400.0), proteinPerUnit := Some(20.0),
                                            fatPerUnit := Some(25.0), carbsPerUnit := Some(10.0)),
      Bare("Dog Food (lbs)", "lbs").(perDogPerDay := Some(2.5),
                                       caloriesPerUnit := Some(350.0), proteinPerUnit := Some(10.0),
                                       fatPerUnit := Some(15.0), carbsPerUnit := Some(30.0)),
      Bare("Cat Food (lbs)", "lbs").(perCatPerDay := Some(0.5),
                                       caloriesPerUnit := Some(300.0), proteinPerUnit := Some(30.0),
                                       fatPerUnit := Some(10.0), carbsPerUnit := Some(15.0))])
  }

  function NutritionCategory(): Category {
    Category("Nutrition", [
      Bare("Calories", "kcal").(perAdultPerDay := Some(2000.0), perChildPerDay := Some(1500.0),
                                perDogPerDay := Some(700.0), perCatPerDay := Some(250.0)),
      Bare("Protein", "g").(perAdultPerDay := Some(50.0), perChildPerDay := Some(30.0),
                              perDogPerDay := Some(10.0), perCatPerDay := Some(30.0)),
      Bare("Fat", "g").(perAdultPerDay := Some(70.0), perChildPerDay := Some(40.0),
                          perDogPerDay := Some(15.0), perCatPerDay := Some(10.0)),
      Bare("Carbohydrates", "g").(perAdultPerDay := Some(300.0), perChildPerDay := Some(200.0),
                                    perDogPerDay := Some(30.0), perCatPerDay := Some(15.0))])
  }

  function MedicalCategory(): Category {
    Category("Medical Supplies", [
      Bare("Basic First-Aid Kit", "kits").(perPersonPerDay := Some(1.0 / 30.0)),
      Bare("Pet First Aid Kit", "kits").(perDogPerDay := Some(1.0 / 30.0), perCatPerDay := Some(1.0 / 30.0))])
  }

  function HygieneCategory(): Category {
    Category("Sanitation & Hygiene", [
      Bare("Toilet Paper (rolls)", "rolls").(perPersonPerDay := Some(0.2))])
  }

  function CommunicationCategory(): Category {
    Category("Communication", [
      Bare("Battery-powered Radio", "units").(perHousehold := Some(1.0))])
  }

  function ShelterCategory(): Category {
    Category("Shelter", [
      Bare("Tent", "units").(perFamily := Some(1.0))])
  }

  function ToolsCategory(): Category {
    Category("Tools & Equipment", [
      Bare("Multi-tool", "units").(perPerson := Some(1.0))])
  }

  function PowerCategory(): Category {
    Category("Power & Energy", [
      Bare("Batteries (AA)", "units").(perPersonPerDay := Some(2.0))])
  }

  function CookingCategory(): Category {
    Category("Cooking and Heating", [
      Bare("Portable Stove", "units").(perHousehold := Some(1.0))])
  }

  function SecurityCategory(): Category {
    Category("Personal Security", [
      Bare("Pepper Spray", "units").(perPerson := Some(1.0))])
  }

  /** The `categories` object, keys in declaration order. */
  function Categories(): Catalog {
    [ CatalogEntry("water", WaterCategory()),
      CatalogEntry("food", FoodCategory()),
      CatalogEntry("nutrition", NutritionCategory()),
      CatalogEntry("medical", MedicalCategory()),
      CatalogEntry("hygiene", HygieneCategory()),
      CatalogEntry("communication", CommunicationCategory()),
      CatalogEntry("shelter", ShelterCategory()),
      CatalogEntry("tools", ToolsCategory()),
      CatalogEntry("power", PowerCategory()),
      CatalogEntry("cooking", CookingCategory()),
      CatalogEntry("security", SecurityCategory())
    ]
  }

  function CategoryGroups(): seq<Group> {
    [ Group("critical", "Critical Supplies", ["water", "nutrition"]),
      Group("essential", "Essential Supplies", ["food", "medical"]),
      Group("comfort", "Comfort Supplies", ["hygiene", "communication", "shelter", "tools"]),
      Group("powerAndSecurity", "Power & Security", ["power", "security"]),
      Group("cookingAndGear", "Cooking & Gear", ["cooking", "gear"])
    ]
  }

  /** Every group key, group by group. */
  function GroupedKeys(groups: seq<Group>): seq<string>
    decreases |groups|
  {
    if |groups| == 0 then [] else GroupedKeys(groups[..|groups| - 1]) + groups[|groups| - 1].keys
  }

  predicate Distinct(names: seq<string>) {
    forall i, j :: 0 <= i < j < |names| ==> names[i] != names[j]
  }

  function ItemNames(items: seq<ItemDef>): seq<string> {
    seq(|items|, i requires 0 <= i < |items| => items[i].name)
  }

  // ---------------------------------------------------------------------------
  // Facts about the shipped data.
  // ---------------------------------------------------------------------------

  lemma CatalogKeysAre()
    ensures CatalogKeys(Categories()) == KeyList
  {
  }

  /** Extending the keys so far by one group's keys. */
  lemma KeysStep(groups: seq<Group>, k: nat, before: seq<string>)
    requires k < |groups| && GroupedKeys(groups[..k]) == before
    ensures GroupedKeys(groups[..k + 1]) == before + groups[k].keys
  {
    assert groups[..k + 1][..k] == groups[..k];
  }

  lemma KeysFirst(groups: seq<Group>)
    requires 0 < |groups|
    ensures GroupedKeys(groups[..1]) == groups[0].keys
  {
    assert groups[..1][..0] == [];
  }

  lemma {:induction false} ShapeKeys(groups: seq<Group>)
    requires |groups| == 5
    requires groups[0].keys == ["water", "nutrition"] && groups[1].keys == ["food", "medical"]
    requires groups[2].keys == ["hygiene", "communication", "shelter", "tools"]
    requires groups[3].keys == ["power", "security"] && groups[4].keys == ["cooking", "gear"]
    ensures GroupedKeys(groups) == GroupedKeyList
  {
    KeysFirst(groups);
    var b1 := groups[0].keys;
    KeysStep(groups, 1, b1);
    var b2 := b1 + groups[1].keys;
    KeysStep(groups, 2, b2);
    var b3 := b2 + groups[2].keys;
    KeysStep(groups, 3, b3);
    var b4 := b3 + groups[3].keys;
    KeysStep(groups, 4, b4);
    assert groups[..5] == groups;
  }

  lemma GroupedKeysAre()
    ensures GroupedKeys(CategoryGroups()) == GroupedKeyList
  {
    ShapeKeys(CategoryGroups());
  }

  lemma GearIsNotAKey()
    ensures !HasKey(Categories(), "gear")
  {
    CatalogKeysAre();
    forall i | 0 <= i < |Categories()|
      ensures Categories()[i].key != "gear"
    {
      assert CatalogKeys(Categories())[i] == Categories()[i].key;
    }
  }

  /** The "gear" key of the cooking group has no category: selecting it contributes nothing. */
  lemma GearContributesNothing(keys: seq<string>, duration: int)
    ensures !HasKey(Categories(), "gear")
    ensures Calculator.ExpandSelection(Categories(), keys + ["gear"], duration) ==
            Calculator.ExpandSelection(Categories(), keys, duration)
  {
    GearIsNotAKey();
    Calculator.UnknownKeyContributesNothing(Categories(), keys, "gear", duration);
  }

  /** The catalog keys, the group keys and the item names, as written in data.js. */
  const KeyList: seq<string> :=
    ["water", "food", "nutrition", "medical", "hygiene", "communication", "shelter", "tools", "power", "cooking", "security"]
  const GroupedKeyList: seq<string> :=
    ["water", "nutrition", "food", "medical", "hygiene", "communication", "shelter", "tools", "power", "security", "cooking", "gear"]
  const ItemNameList: seq<string> := ProvisionNames + CareNames + EquipmentNames
  /** The items of the water and food categories. */
  const ProvisionNames: seq<string> :=
    ["Water", "Rice (lbs)", "Canned Meat (cans)", "Dog Food (lbs)", "Cat Food (lbs)"]
  /** The items of the nutrition, medical and hygiene categories. */
  const CareNames: seq<string> :=
    ["Calories", "Protein", "Fat", "Carbohydrates", "Basic First-Aid Kit", "Pet First Aid Kit", "Toilet Paper (rolls)"]
  /** The items of the remaining six categories, one each. */
  const EquipmentNames: seq<string> :=
    ["Battery-powered Radio", "Tent", "Multi-tool", "Batteries (AA)", "Portable Stove", "Pepper Spray"]

  /** Two lists without repeats and without a common name join into one without repeats. */
  lemma DistinctAppend(a: seq<string>, b: seq<string>)
    requires Distinct(a) && Distinct(b)
    requires forall x :: x in a ==> x !in b
    ensures Distinct(a + b)
  {
    forall i, j | 0 <= i < j < |a + b|
      ensures (a + b)[i] != (a + b)[j]
    {
      if i >= |a| {
        assert (a + b)[i] == b[i - |a|] && (a + b)[j] == b[j - |a|];
      } else if j >= |a| {
        assert (a + b)[i] in a && (a + b)[j] == b[j - |a|];
      }
    }
  }

  lemma KeyListsDistinct()
    ensures Distinct(KeyList) && Distinct(GroupedKeyList)
  {
  }

  lemma KeyListsAgree()
    ensures forall k :: k in KeyList <==> k in GroupedKeyList && k != "gear"
  {
  }

  lemma ItemNameChunksDistinct()
    ensures Distinct(ProvisionNames) && Distinct(CareNames) && Distinct(EquipmentNames)
  {
  }

  lemma ItemNameChunksDisjoint()
    ensures forall x :: x in ProvisionNames + CareNames ==> x !in EquipmentNames
    ensures forall x :: x in ProvisionNames ==> x !in CareNames
  {
  }

  lemma ItemNameListDistinct()
    ensures Distinct(ItemNameList)
  {
    ItemNameChunksDistinct();
    ItemNameChunksDisjoint();
    DistinctAppend(ProvisionNames, CareNames);
    DistinctAppend(ProvisionNames + CareNames, EquipmentNames);
  }

  /** Every other grouped key is a catalog key, and each catalog key is in exactly one group. */
  lemma GroupsCoverCatalog()
    ensures Distinct(GroupedKeys(CategoryGroups()))
    ensures Distinct(CatalogKeys(Categories()))
    ensures forall k :: k in CatalogKeys(Categories()) <==> k in GroupedKeys(CategoryGroups()) && k != "gear"
  {
    CatalogKeysAre();
    GroupedKeysAre();
    KeyListsDistinct();
    KeyListsAgree();
  }

  /** One more category adds its items after those of the categories before it. */
  lemma AllItemsSnoc(c: Catalog, k: nat)
    requires k < |c|
    ensures AllItems(c[..k + 1]) == AllItems(c[..k]) + c[k].category.items
  {
    assert c[..k + 1][..k] == c[..k];
  }

  lemma ItemNamesAppend(a: seq<ItemDef>, b: seq<ItemDef>)
    ensures ItemNames(a + b) == ItemNames(a) + ItemNames(b)
  {
  }

  /** The names of the items of the first `k + 1` categories. */
  lemma NamesSnoc(c: Catalog, k: nat)
    requires k < |c|
    ensures ItemNames(AllItems(c[..k + 1])) == ItemNames(AllItems(c[..k])) + ItemNames(c[k].category.items)
  {
    AllItemsSnoc(c, k);
    ItemNamesAppend(AllItems(c[..k]), c[k].category.items);
  }

  /** A catalog holding the shipped categories in the shipped order, whatever its keys. */
  predicate ShippedShape(c: Catalog) {
    && |c| == 11
    && c[0].category == WaterCategory() && c[1].category == FoodCategory() && c[2].category == NutritionCategory()
    && c[3].category == MedicalCategory() && c[4].category == HygieneCategory()
    && c[5].category == CommunicationCategory() && c[6].category == ShelterCategory()
    && c[7].category == ToolsCategory() && c[8].category == PowerCategory()
    && c[9].category == CookingCategory() && c[10].category == SecurityCategory()
  }

  lemma CategoriesHaveShippedShape()
    ensures ShippedShape(Categories())
  {
  }

  lemma FirstCategoryNames()
    ensures ItemNames(WaterCategory().items) == ["Water"]
    ensures ItemNames(FoodCategory().items) == ["Rice (lbs)", "Canned Meat (cans)", "Dog Food (lbs)", "Cat Food (lbs)"]
    ensures ItemNames(NutritionCategory().items) == ["Calories", "Protein", "Fat", "Carbohydrates"]
    ensures ItemNames(MedicalCategory().items) == ["Basic First-Aid Kit", "Pet First Aid Kit"]
    ensures ItemNames(HygieneCategory().items) == ["Toilet Paper (rolls)"]
  {
  }

  lemma LastCategoryNames()
    ensures ItemNames(CommunicationCategory().items) == ["Battery-powered Radio"]
    ensures ItemNames(ShelterCategory().items) == ["Tent"]
    ensures ItemNames(ToolsCategory().items) == ["Multi-tool"]
    ensures ItemNames(PowerCategory().items) == ["Batteries (AA)"]
    ensures ItemNames(CookingCategory().items) == ["Portable Stove"]
    ensures ItemNames(SecurityCategory().items) == ["Pepper Spray"]
  {
  }

  /** Extending the names so far by one category's names. */
  lemma NamesStep(c: Catalog, k: nat, before: seq<string>, here: seq<string>)
    requires k < |c|
    requires ItemNames(AllItems(c[..k])) == before && ItemNames(c[k].category.items) == here
    ensures ItemNames(AllItems(c[..k + 1])) == before + here
  {
    NamesSnoc(c, k);
  }

  /** The names of the first category's items. */
  lemma NamesFirst(c: Catalog)
    requires 0 < |c|
    ensures ItemNames(AllItems(c[..1])) == ItemNames(c[0].category.items)
  {
    assert c[..1][..0] == [];
  }

  /** A catalog's items are those of a prefix of its categories followed by those of the rest. */
  lemma {:induction false} AllItemsJoin(c: Catalog, k: nat)
    requires k <= |c|
    ensures AllItems(c) == AllItems(c[..k]) + AllItems(c[k..])
    decreases |c|
  {
    if k < |c| {
      var init := c[..|c| - 1];
      AllItemsJoin(init, k);
      assert init[..k] == c[..k];
      assert c[k..][..|c| - k - 1] == init[k..];
      assert AllItems(c[k..]) == AllItems(init[k..]) + c[|c| - 1].category.items;
    } else {
      assert c[..k] == c;
      assert AllItems(c[k..]) == [];
    }
  }

  lemma {:induction false} ProvisionNamesAre(d: Catalog)
    requires |d| == 2 && d[0].category == WaterCategory() && d[1].category == FoodCategory()
    ensures ItemNames(AllItems(d)) == ProvisionNames
  {
    FirstCategoryNames();
    NamesFirst(d);
    NamesStep(d, 1, ["Water"], ["Rice (lbs)", "Canned Meat (cans)", "Dog Food (lbs)", "Cat Food (lbs)"]);
    assert d[..2] == d;
  }

  lemma {:induction false} CareNamesAre(d: Catalog)
    requires |d| == 3 && d[0].category == NutritionCategory() && d[1].category == MedicalCategory()
    requires d[2].category == HygieneCategory()
    ensures ItemNames(AllItems(d)) == CareNames
  {
    FirstCategoryNames();
    NamesFirst(d);
    var n1: seq<string> := ["Calories", "Protein", "Fat", "Carbohydrates"];
    NamesStep(d, 1, n1, ["Basic First-Aid Kit", "Pet First Aid Kit"]);
    NamesStep(d, 2, n1 + ["Basic First-Aid Kit", "Pet First Aid Kit"], ["Toilet Paper (rolls)"]);
    assert d[..3] == d;
  }

  lemma {:induction false} EquipmentNamesAre(d: Catalog)
    requires |d| == 6 && d[0].category == CommunicationCategory() && d[1].category == ShelterCategory()
    requires d[2].category == ToolsCategory() && d[3].category == PowerCategory()
    requires d[4].category == CookingCategory() && d[5].category == SecurityCategory()
    ensures ItemNames(AllItems(d)) == EquipmentNames
  {
    LastCategoryNames();
    NamesFirst(d);
    var n1: seq<string> := ["Battery-powered Radio"];
    NamesStep(d, 1, n1, ["Tent"]);
    var n2 := n1 + ["Tent"];
    NamesStep(d, 2, n2, ["Multi-tool"]);
    var n3 := n2 + ["Multi-tool"];
    NamesStep(d, 3, n3, ["Batteries (AA)"]);
    var n4 := n3 + ["Batteries (AA)"];
    NamesStep(d, 4, n4, ["Portable Stove"]);
    NamesStep(d, 5, n4 + ["Portable Stove"], ["Pepper Spray"]);
    assert d[..6] == d;
  }

  lemma {:induction false} ShapeNames(c: Catalog)
    requires ShippedShape(c)
    ensures ItemNames(AllItems(c)) == ItemNameList
  {
    var head := c[..5];
    AllItemsJoin(c, 5);
    AllItemsJoin(head, 2);
    ProvisionNamesAre(head[..2]);
    CareNamesAre(head[2..]);
    EquipmentNamesAre(c[5..]);
    ItemNamesAppend(AllItems(head[..2]), AllItems(head[2..]));
    ItemNamesAppend(AllItems(head), AllItems(c[5..]));
  }

  /** The eighteen item names of the catalog, in catalog order. */
  lemma AllItemsAre()
    ensures ItemNames(AllItems(Categories())) == ItemNameList
  {
    CategoriesHaveShippedShape();
    ShapeNames(Categories());
  }

  /** Every item has a unit, and none uses a threshold, a sharing divisor or the generic animal rate. */
  predicate Plain(item: ItemDef) {
    item.unit.Some? && item.thresholdDuration.None? && item.sharedAmong.None? && item.perAnimalPerDay.None?
  }

  /** A property every item of every category has holds for every item of the catalog. */
  lemma {:induction false} AllItemsSatisfy(c: Catalog, p: ItemDef -> bool)
    requires forall i, j :: 0 <= i < |c| && 0 <= j < |c[i].category.items| ==> p(c[i].category.items[j])
    ensures forall k :: 0 <= k < |AllItems(c)| ==> p(AllItems(c)[k])
    decreases |c|
  {
    if |c| > 0 {
      var init := c[..|c| - 1];
      AllItemsSatisfy(init, p);
      var a, b := AllItems(init), c[|c| - 1].category.items;
      assert AllItems(c) == a + b;
      forall k | 0 <= k < |a + b|
        ensures p((a + b)[k])
      {
        if k >= |a| {
          assert (a + b)[k] == b[k - |a|];
        }
      }
    }
  }

  predicate PlainCategory(cat: Category) {
    forall j :: 0 <= j < |cat.items| ==> Plain(cat.items[j])
  }

  lemma FirstCategoriesArePlain()
    ensures PlainCategory(WaterCategory()) && PlainCategory(FoodCategory()) && PlainCategory(NutritionCategory())
    ensures PlainCategory(MedicalCategory())
  {
  }

  lemma LastCategoriesArePlain()
    ensures PlainCategory(HygieneCategory()) && PlainCategory(CommunicationCategory())
    ensures PlainCategory(ShelterCategory()) && PlainCategory(ToolsCategory()) && PlainCategory(PowerCategory())
    ensures PlainCategory(CookingCategory()) && PlainCategory(SecurityCategory())
  {
  }

  lemma {:induction false} ShapeIsPlain(c: Catalog)
    requires ShippedShape(c)
    ensures forall i, j :: 0 <= i < |c| && 0 <= j < |c[i].category.items| ==> Plain(c[i].category.items[j])
  {
    FirstCategoriesArePlain();
    LastCategoriesArePlain();
    forall i, j | 0 <= i < |c| && 0 <= j < |c[i].category.items|
      ensures Plain(c[i].category.items[j])
    {
      assert PlainCategory(c[i].category) by {
        if i == 0 {} else if i == 1 {} else if i == 2 {} else if i == 3 {} else if i == 4 {}
        else if i == 5 {} else if i == 6 {} else if i == 7 {} else if i == 8 {} else if i == 9 {}
      }
    }
  }

  lemma CatalogItemsArePlain()
    ensures forall i :: 0 <= i < |AllItems(Categories())| ==> Plain(AllItems(Categories())[i])
  {
    CategoriesHaveShippedShape();
    ShapeIsPlain(Categories());
    AllItemsSatisfy(Categories(), Plain);
  }

  lemma CatalogNamesDistinct()
    ensures Distinct(ItemNames(AllItems(Categories())))
  {
    AllItemsAre();
    ItemNameListDistinct();
  }

  lemma CatalogHasDistinctKeys()
    ensures DistinctKeys(Categories())
  {
    var c := Categories();
    GroupsCoverCatalog();
    forall i, j | 0 <= i < j < |c|
      ensures c[i].key != c[j].key
    {
      assert CatalogKeys(c)[i] != CatalogKeys(c)[j];
    }
  }

  /** Selecting every category once and consolidating keeps one entry per catalog item: no name repeats. */
  lemma FullCatalogKeepsEveryItem(duration: int)
    ensures var expanded := Calculator.ExpandSelection(Categories(), CatalogKeys(Categories()), duration);
            |Consolidation.Consolidate(expanded)| == |expanded| == 18
  {
    var c := Categories();
    CatalogHasDistinctKeys();
    CatalogNamesDistinct();
    AllItemsAre();
    var names := ItemNames(AllItems(c));
    forall i, j | 0 <= i < j < |AllItems(c)|
      ensures AllItems(c)[i].name != AllItems(c)[j].name
    {
      assert names[i] != names[j];
    }
    Calculator.FullSelectionMergesNothing(c, duration);
  }

  lemma LookupNutrition()
    ensures Lookup(Categories(), Calculator.NutritionKey) == Some(NutritionCategory())
  {
    var c := Categories();
    var k := Calculator.NutritionKey;
    assert c[2..][0].key == k;
    assert Lookup(c[2..], k) == Some(NutritionCategory());
    assert c[1..][0].key != k && c[1..][1..] == c[2..];
    assert c[0].key != k;
  }

  /** The nutrition category holds exactly the four names the nutrient dispatch recognises. */
  lemma NutritionCategoryNames()
    ensures Lookup(Categories(), Calculator.NutritionKey) == Some(NutritionCategory())
    ensures ItemNames(NutritionCategory().items) == ["Calories", "Protein", "Fat", "Carbohydrates"]
  {
    LookupNutrition();
    NutritionItemNames();
  }

  lemma NutritionItemNames()
    ensures ItemNames(NutritionCategory().items) == ["Calories", "Protein", "Fat", "Carbohydrates"]
  {
    var it := NutritionCategory().items;
    assert it[0].name == "Calories" && it[1].name == "Protein" && it[2].name == "Fat" && it[3].name == "Carbohydrates";
  }

  /** Only the first nutrition item is named "Calories", so it alone feeds the calories total. */
  lemma NutritionCaloriesSum(h: Calculator.Household)
    ensures Calculator.NutrientSum(NutritionCategory().items, "Calories", h)
            == Calculator.HeadTotal(NutritionCategory().items[0], h)
  {
    var items := NutritionCategory().items;
    var first := Calculator.HeadTotal(items[0], h);
    assert items[0].name == "Calories" && items[1].name == "Protein" && items[2].name == "Fat" && items[3].name == "Carbohydrates";
    assert Calculator.NutrientSum(items[..1], "Calories", h) == first by {
      assert items[..1][..0] == [];
    }
    assert Calculator.NutrientSum(items[..2], "Calories", h) == first by {
      assert items[..2][..1] == items[..1];
    }
    assert Calculator.NutrientSum(items[..3], "Calories", h) == first by {
      assert items[..3][..2] == items[..2];
    }
    assert Calculator.NutrientSum(items[..4], "Calories", h) == first by {
      assert items[..4][..3] == items[..3];
    }
    assert items == items[..4];
  }

  lemma TwoAdultsThreeDaysHeadTotal()
    ensures Calculator.HeadTotal(NutritionCategory().items[0], Calculator.Household(2, 0, 0, 0, 3)) == 12000.0
  {
  }

  /**
   * Two adults, three days, the nutrition category selected once: the calories total is
   * 2000 per day, times 3 days, times 2 adults.
   */
  lemma TwoAdultsThreeDaysCalories()
    ensures Calculator.NutritionOf(Calculator.Household(2, 0, 0, 0, 3), Categories(), ["nutrition"]).calories == 12000.0
  {
    var h := Calculator.Household(2, 0, 0, 0, 3);
    LookupNutrition();
    Calculator.NutritionCountsSelections(h, Categories(), ["nutrition"]);
    assert multiset(["nutrition"])[Calculator.NutritionKey] == 1;
    Calculator.AccumulateByName(Calculator.NoNutrition, NutritionCategory().items, h);
    NutritionCaloriesSum(h);
    TwoAdultsThreeDaysHeadTotal();
  }

  predicate NonNegativeCategory(cat: Category) {
    forall j :: 0 <= j < |cat.items| ==> Calculator.NonNegativeItem(cat.items[j])
  }

  lemma FirstCategoriesAreNonNegative()
    ensures NonNegativeCategory(WaterCategory()) && NonNegativeCategory(FoodCategory())
  {
  }

  lemma MiddleCategoriesAreNonNegative()
    ensures NonNegativeCategory(NutritionCategory()) && NonNegativeCategory(MedicalCategory())
  {
  }

  lemma LastCategoriesAreNonNegative()
    ensures NonNegativeCategory(HygieneCategory()) && NonNegativeCategory(CommunicationCategory())
    ensures NonNegativeCategory(ShelterCategory()) && NonNegativeCategory(ToolsCategory())
    ensures NonNegativeCategory(PowerCategory()) && NonNegativeCategory(CookingCategory())
    ensures NonNegativeCategory(SecurityCategory())
  {
  }

  lemma {:induction false} ShapeIsNonNegative(c: Catalog)
    requires ShippedShape(c)
    ensures Calculator.NonNegativeCatalog(c)
  {
    FirstCategoriesAreNonNegative();
    MiddleCategoriesAreNonNegative();
    LastCategoriesAreNonNegative();
    forall i, j | 0 <= i < |c| && 0 <= j < |c[i].category.items|
      ensures Calculator.NonNegativeItem(c[i].category.items[j])
    {
      assert NonNegativeCategory(c[i].category) by {
        if i == 0 {} else if i == 1 {} else if i == 2 {} else if i == 3 {} else if i == 4 {}
        else if i == 5 {} else if i == 6 {} else if i == 7 {} else if i == 8 {} else if i == 9 {}
      }
    }
  }

  /** Every rate and flat amount in the shipped catalog is non-negative. */
  lemma CatalogIsNonNegative()
    ensures Calculator.NonNegativeCatalog(Categories())
  {
    CategoriesHaveShippedShape();
    ShapeIsNonNegative(Categories());
  }

  /** With the shipped catalog, a longer duration never lowers any entry's total. */
  lemma ShippedCatalogMonotone(h1: Calculator.Household, h2: Calculator.Household, keys: seq<string>)
    requires h1.HeadCounts() == h2.HeadCounts() && Calculator.NonNegativeCounts(h1.HeadCounts())
    requires h1.duration <= h2.duration
    ensures var l1, l2 := Calculator.GetSupplyList(h1, Categories(), keys).entries,
                          Calculator.GetSupplyList(h2, Categories(), keys).entries;
            && |l1| == |l2|
            && forall k :: 0 <= k < |l1| ==> l1[k].item.name == l2[k].item.name && l1[k].total <= l2[k].total
  {
    CatalogIsNonNegative();
    Calculator.LongerDurationNeverNeedsLess(h1, h2, Categories(), keys);
  }
}

# Emergency supply and water planner — a Dafny model

This project models the computing core of a browser-based emergency-preparedness planner.

- **Supply calculator.** A household (adults, children, dogs, cats) and a duration in days go in. The user selects categories of a static catalog. Each catalog item's daily rates and flat amounts become per-individual quantities. Items with the same name are merged. Every supply entry gets a grand total, and the nutrition category also feeds calorie, protein, fat and carbohydrate totals.
- **Water planner.** It keeps a list of people and animals, a planning period and a display unit. It totals the water they need and reports what fraction of that need a stored supply covers.
- **Small helpers:**
  - the imperial/metric unit display;
  - the liquid conversion table;
  - a store of user overrides for item rates;
  - the inventory input form.

Everything is modelled with immutable datatypes and pure functions. One method, `WaterList.UpdateTotals`, keeps the source's loop. Quantities are exact `real` numbers. The results of `parseInt`/`parseFloat` come in as `Option` values, with `None` standing for NaN. A missing JavaScript property or `undefined` is `None`, or the empty string for a missing unit.

Modules, one per concern:

| file | module | models |
|---|---|---|
| wrappers.dfy | `Wrappers` | `Option` |
| catalog.dfy | `Catalog` | item records, categories, the catalog as an ordered key table, key lookup |
| items.dfy | `Items` | the per-class quantity records the calculator produces |
| consolidation.dfy | `Consolidation` | `consolidateItems` (utils.js) |
| calculator.dfy | `Calculator` | `SupplyCalculator` (SupplyCalculator.js) |
| data.dfy | `Data` | the shipped `categories` and `categoryGroups` (data.js) |
| liquids.dfy | `Liquids` | `liquidConversions`, `convertLiquidMeasurement` (utils.js) |
| water_list.dfy | `WaterList` | `addEntity`, `adjustQuantity`, `removeEntity`, the totals of `updateOutput` (script.js) |
| water_period.dfy | `WaterPeriod` | `calculateNumDays`, `timeFrameConversion` (script.js) |
| water_tracker.dfy | `WaterTracker` | `unitConversion`, `updateSupplyTracker`, `updateSupplyFulfilled` (script.js) |
| units.dfy | `Units` | `UnitSystem` (unitSystem.js) |
| defaults.dfy | `Defaults` | `DefaultsManager` (defaultsManager.js) |
| inventory.dfy | `Inventory` | `addNewItem`, `updateInventoryDisplay` (inventory_input_tab.js) |

Two points about how the code behaves:

- **Overrides are not used by the calculator.** `SupplyCalculator` never reads the override store (`DefaultsManager`); it expands the catalog's own rates. The override store is modelled on its own.
- **Repeated calls accumulate.** A `SupplyCalculator` instance keeps appending to `allItems` and adding to `totalNutrition`, so a second `getSupplyList` on the same instance doubles everything. The model describes one call on a fresh instance, which is how the page uses it.

## Model

| member | source | states |
|---|---|---|
| Catalog.Lookup | SupplyCalculator.js:37-38 | the category a key selects is found exactly when the catalog has that key, and it is that key's category |
| Catalog.SelectAllKeys | SupplyCalculator.js:36-40 | when keys are distinct, selecting every key once, in order, reaches every catalog item in order |
| Items.Total | SupplyCalculator.js:153-158 | for a household of nobody only the flat amounts count, and zero quantities total 0 |
| Items.TotalMonotone | SupplyCalculator.js:153-158 | with non-negative head counts, larger quantities in every class never give a smaller grand total |
| Items.TotalOfPlus | SupplyCalculator.js:153-158 | the grand total of summed quantities is the sum of the grand totals |
| Calculator.DailyRate | SupplyCalculator.js:42-59 | adult and child rates take their own field, else the per-person rate, else 0; dog and cat rates take their own field, else the per-animal rate, else 0 |
| Calculator.SharedAmount | SupplyCalculator.js:65-78 | below the threshold (strict) the amount is 0; with sharing above 1 a positive amount becomes the least whole number whose product with the divisor covers it and a non-positive one becomes 0; otherwise it is unchanged |
| Calculator.Ceil | SupplyCalculator.js:76-77 | the result is the least integer not below the argument |
| Calculator.ExpandItem | SupplyCalculator.js:42-94 | the adult and child quantities are rate times duration plus the flat per-person amount; dogs and cats get rate times duration only; household and family amounts follow the threshold and sharing rule; name and unit are kept |
| Calculator.PerPersonOnlyForPeople | SupplyCalculator.js:62-86 | a per-person amount adds exactly its value to the adult and child quantities and changes no other quantity |
| Calculator.SharedRatesAgree | SupplyCalculator.js:42-59 | an item with only a per-person (per-animal) rate gives adults and children (dogs and cats) the same rate |
| Calculator.ThresholdBoundary | SupplyCalculator.js:65-72 | a household item with threshold 7 is dropped for 6 days and kept at exactly 7 |
| Calculator.SharingRoundsUp | SupplyCalculator.js:75-78 | one tent shared by 3 rounds up to 1, seven shared by 3 to 3 |
| Calculator.ExpandSelection | SupplyCalculator.js:34-105 | there is one expanded item per catalog item the selected keys reach |
| Calculator.ExpandSelectionItemwise | SupplyCalculator.js:34-40 | expanding a selection expands, one by one and in order, exactly the catalog items its keys reach |
| Calculator.ExpandAllKeys | SupplyCalculator.js:34-40 | selecting every key of a catalog with distinct keys expands every catalog item in order |
| Calculator.FullSelectionMergesNothing | SupplyCalculator.js:34-108 | with distinct keys and item names, consolidating the full selection keeps one entry per catalog item |
| Calculator.UnknownKeyContributesNothing | SupplyCalculator.js:36-38 | a key the catalog lacks adds no items |
| Calculator.RepeatedKeyContributesTwice | SupplyCalculator.js:36-40 | a key selected twice contributes its category's items twice before consolidation |
| Calculator.AddNutrient | SupplyCalculator.js:127-142 | a name other than the four nutrients changes nothing; otherwise the amount goes to the named total only, so the four totals together grow by exactly the amount |
| Calculator.AccumulateItems | SupplyCalculator.js:119-142 | items none of which is named after a nutrient change nothing, and non-negative head totals never lower any total |
| Calculator.NutritionOf | SupplyCalculator.js:96-99 | the totals start at 0 and stay there unless the nutrition key is selected |
| Calculator.AccumulateByName | SupplyCalculator.js:119-142 | each nutrient total grows by exactly the head totals of the items with its name; other names change nothing |
| Calculator.NutritionCountsSelections | SupplyCalculator.js:96-99 | only the nutrition key feeds the nutrient totals, and they are its category's contribution times the number of times it is selected |
| Calculator.NoNutritionWithoutKey | SupplyCalculator.js:96-99 | a selection without the nutrition key leaves every nutrient total at 0 |
| Calculator.HeadTotalMatchesSupplyTotal | SupplyCalculator.js:119-124 | for an item without flat amounts the nutrient contribution equals the grand total the supply list computes for it |
| Calculator.CalculateTotals | SupplyCalculator.js:150-162 | one entry per consolidated item, same order, the item itself unchanged, its total the per-class quantities times the head counts plus the flat amounts |
| Calculator.GetSupplyList | SupplyCalculator.js:169-180 | the list is never longer than the number of catalog items the selection reaches, every entry's total is the grand total of its own quantities, and without the nutrition key the nutrient totals are all 0 |
| Calculator.SupplyEntryTotals | SupplyCalculator.js:150-162 | each entry's total is the grand total of all expanded items with its name |
| Calculator.SupplyListShape | SupplyCalculator.js:169-180 | the list has one entry per distinct expanded name, in order of first appearance, with summed quantities |
| Calculator.GrandTotalConserved | SupplyCalculator.js:169-180 | the entry totals add up to the sum of the grand totals of all expanded items |
| Calculator.ExpandItemMonotone | SupplyCalculator.js:42-78 | with non-negative rates and counts, a longer duration never lowers an item's grand total |
| Calculator.ExpandSelectionMonotone | SupplyCalculator.js:34-78 | the same holds item by item for a whole selection |
| Calculator.LongerDurationNeverNeedsLess | SupplyCalculator.js:42-162 | with the same household and non-negative rates, a longer duration gives a list with the same names, none with a smaller total |
| Consolidation.Consolidate | utils.js:21-51 | the result is never longer than the input, and empty exactly when the input is |
| Consolidation.ConsolidateCorrect | utils.js:21-51 | the result has distinct names, exactly the input's names, each entry's quantities summed over its name, the first occurrence's unit, and first-occurrence order |
| Consolidation.ConsolidateNames | utils.js:25-50 | the entry names are the input names without repeats, in first-occurrence order |
| Consolidation.ConsolidateLength | utils.js:25-50 | the result is never longer than the input, and as long exactly when all names differ |
| Consolidation.ConsolidateConserves | utils.js:30-45 | every per-class quantity, summed over the list, is the same before and after |
| Consolidation.ConsolidateSameNames | utils.js:25-37 | inputs with the same name sequence consolidate to entries with the same names |
| Data.CatalogKeysAre | data.js:50-240 | the catalog's eleven keys in declaration order |
| Data.GroupedKeysAre | data.js:26-47 | the group keys, group by group, end with "gear" |
| Data.GearContributesNothing | data.js:43-47 | "gear" is not a catalog key, so selecting it adds nothing |
| Data.GroupsCoverCatalog | data.js:26-240 | group keys and catalog keys are each distinct, and the catalog keys are exactly the group keys other than "gear" |
| Data.AllItemsAre | data.js:50-240 | the eighteen catalog item names in order |
| Data.CatalogNamesDistinct | data.js:50-240 | no item name repeats across the catalog |
| Data.AllItemsJoin | data.js:50-240 | a catalog's items are those of a prefix of its categories followed by those of the rest |
| Data.AllItemsSatisfy | data.js:50-240 | a property every item of every category has holds for every catalog item |
| Data.CatalogItemsArePlain | data.js:50-240 | every item has a unit, and none sets a threshold, a sharing divisor or a per-animal rate |
| Data.FullCatalogKeepsEveryItem | data.js:50-240 | selecting every category once and consolidating keeps all eighteen items |
| Data.NutritionCategoryNames | data.js:109-145 | the nutrition key selects a category of exactly Calories, Protein, Fat and Carbohydrates |
| Data.TwoAdultsThreeDaysCalories | data.js:109-120 | two adults for three days need 12000 calories |
| Data.CatalogIsNonNegative | data.js:50-240 | every rate and flat amount in the catalog is non-negative |
| Data.ShippedCatalogMonotone | data.js:50-240 | for the shipped catalog a longer duration never lowers any entry's total |
| Liquids.LiquidFactor | utils.js:72-80 | the table has an entry of at least one millilitre exactly for its seven unit names; a gallon is 3785.41 mL |
| Liquids.ConvertLiquidMeasurement | utils.js:88-93 | the result in the target unit holds the same millilitres as the amount in gallons; an unknown unit gives no number |
| Liquids.GallonsIsIdentity | utils.js:88-93 | converting to gallons returns the amount |
| Liquids.OneGallonInLiters | utils.js:72-93 | one gallon is 3.78541 litres |
| Liquids.RoundTrip | utils.js:88-93 | converting to a unit and back returns the amount |
| Liquids.Linear | utils.js:88-93 | the conversion respects sums and scaling |
| Liquids.Monotone | utils.js:88-93 | a larger amount never converts to a smaller one |
| WaterList.AddedQuantity | script.js:44-51 | a missing or sub-1 quantity becomes 1, any other is kept |
| WaterList.FindEntity | script.js:59-60 | the index found is the first row with that kind and name, and there is none exactly when no row matches |
| WaterList.AddEntity | script.js:41-69 | an empty name changes nothing; otherwise the pair is present afterwards, and the list grows by one row exactly when the pair was absent |
| WaterList.AddEntityKeepsRows | script.js:59-64 | existing rows keep their kind and name in place |
| WaterList.AddEntityCounts | script.js:59-64 | adding raises its own pair's head count by the clamped quantity and no other pair's |
| WaterList.AddEntityKeepsWellFormed | script.js:47-64 | adding keeps every quantity at least 1 and every (kind, name) pair on one row |
| WaterList.AddEntityWater | script.js:59-64 | adding raises the daily water total by the entity's need taken as many times as the added quantity (`Scale`, which is the product by WaterList.ScaleIsProduct) |
| WaterList.AdjustQuantity | script.js:72-76 | a step to 0 or below removes the row; otherwise only that row's quantity changes, by the step |
| WaterList.AdjustQuantityCounts | script.js:72-76 | in a well-formed list the row's pair then counts the new quantity, or 0 once removed |
| WaterList.AdjustQuantityKeepsWellFormed | script.js:72-76 | stepping keeps every quantity at least 1 and pairs unique |
| WaterList.AdjustQuantityWater | script.js:72-76 | the daily total changes by the row's need taken step times, or loses the whole row's need on removal |
| WaterList.ScaleIsProduct | script.js:166 | a need taken q times, by repeated addition, is the need times q |
| WaterList.ScaleAdd | script.js:166 | taking a need a times and then b times is taking it a + b times |
| WaterList.RowDailyIsProduct | script.js:166 | a row's daily need is the kind's need times the row's quantity |
| WaterList.RemoveEntity | script.js:81-83 | a valid index removes exactly that row and keeps the others in order; an index past the end removes nothing; a negative index counts from the end, as splice does |
| WaterList.RemoveEntityTakesOneRow | script.js:81-83 | the remaining rows plus the removed one are the rows before |
| WaterList.RemoveEntityKeepsWellFormed | script.js:81-83 | removing keeps the list invariant |
| WaterList.RemoveEntityWater | script.js:81-83 | removing lowers the daily total by exactly the removed row's need |
| WaterList.UpdateTotals | script.js:151-190 | the loop's daily total is the sum of need times quantity over the rows, the period total is that times the days, and it equals the sum of the breakdown rows |
| WaterList.RowsSumToTotal | script.js:164-190 | the per-row period totals add up to the daily total times the days |
| WaterPeriod.DaysPerUnit | script.js:8-15 | every unit stands for a positive number of days, the table's factor, and one day for a custom count |
| WaterPeriod.CalculateNumDays | script.js:87-125 | the count is clamped into 1 to the unit's maximum, the cap message shows exactly when the count was above it, an in-range count is kept, and the days are count times days per unit |
| WaterPeriod.PeriodBounds | script.js:97-125 | every period lies between one hour and 36500 days, and at most 3650 days for every unit but years |
| WaterPeriod.MoreUnitsNeverFewerDays | script.js:92-125 | a larger count never gives a shorter period in the same unit |
| WaterPeriod.RecalculateIsStable | script.js:92-109 | recalculating with the count written back to the field gives the same period and no message |
| WaterPeriod.SamplePeriods | script.js:8-125 | two weeks are 14 days, twelve hours half a day, 400 custom days cap at 365, a missing count means one day |
| WaterTracker.DisplayAsWritten | script.js:192-193 | shown amounts are gallons divided by the table entry as the source writes it |
| WaterTracker.AsWrittenLitersDisagree | script.js:2-6 | as written, one gallon shows as less than 0.27 litres, while the liquid conversion gives 3.78541 |
| WaterTracker.GallonsPerUnit | script.js:2-6 | the corrected table: every unit holds a positive number of gallons |
| WaterTracker.Display | script.js:189-193 | with the corrected table, the shown amount times the gallons per unit is the amount in gallons |
| WaterTracker.OnlyLitersDiffer | script.js:2-6 | the corrected table differs from the written one in the litres entry only |
| WaterTracker.DisplayInLitersMatchesLiquids | script.js:192-193 | with the corrected table, every amount shown in litres agrees with the liquid conversion of utils.js |
| WaterTracker.DisplayRoundTrip | script.js:189-217 | the requirement shown to hundredths and read back in gallons is within half a hundredth of a unit of the true requirement, with the table as written and with the corrected one |
| WaterTracker.RoundHundredths | script.js:208 | the rounded value is within half a hundredth of the input, a whole number of hundredths, and not negative for a non-negative input |
| WaterTracker.RoundsToZero | script.js:208 | a non-negative amount shows as 0.00 exactly when it is below 0.005 |
| WaterTracker.AvailableShown | script.js:216 | an unreadable stored amount counts as 0, any other as itself |
| WaterTracker.FulfilledPercent | script.js:205-224 | with the corrected table, the percentage is at most 100, 0 when the shown requirement is 0, 100 exactly when the stored amount reaches the shown requirement, and otherwise their ratio times 100 |
| WaterTracker.PercentIsRatio | script.js:216-224 | the unit factor cancels: the percentage compares stored and required amounts as shown |
| WaterTracker.NothingRequiredShowsZero | script.js:157-161 | an empty list shows 0% |
| WaterTracker.PercentNonNegative | script.js:216-224 | a non-negative requirement and stored amount give a non-negative percentage |
| WaterTracker.FulfilledPercentAsWritten | script.js:205-224 | with the table as written, the same four facts hold of the requirement the page shows: at most 100, 0 for a shown 0, 100 exactly when the stored amount reaches the shown requirement, otherwise their ratio times 100 |
| WaterTracker.OneLiterAgainstOneGallon | script.js:205-224 | one litre against a one-gallon need shows 100% as written, and between 26% and 27% with the corrected table |
| Units.ConversionFor | unitSystem.js:2-42 | entries exist only for the metric direction, from imperial units to metric units, with a positive factor other than 1 |
| Units.ConvertValue | unitSystem.js:57-70 | a non-zero imperial amount asked for in metric is multiplied by its factor; every other request returns the value unchanged |
| Units.GetDisplayUnit | unitSystem.js:72-88 | a missing unit shows as empty, fixed units as themselves, an imperial unit in metric as a different metric unit, any other unit as itself |
| Units.ImperialAndMetricDisjoint | unitSystem.js:90-96 | no unit is both imperial and metric |
| Units.TableCoversImperial | unitSystem.js:2-42 | the table has a metric entry exactly for the imperial units |
| Units.ValueAndUnitAgree | unitSystem.js:57-88 | a non-zero amount changes exactly when its unit label changes |
| Units.ImperialNeverConverts | unitSystem.js:57-88 | asking for imperial changes no amount and no unit |
| Units.DisplayUnitIdempotent | unitSystem.js:72-88 | displaying a displayed unit again changes nothing |
| Units.ConvertOnce | unitSystem.js:57-70 | converting an already converted amount in its new unit changes nothing |
| Units.ShownAsTableUnit | unitSystem.js:72-88 | an imperial unit shown in metric is the unit its table entry names |
| Units.MetricWeightUnits | unitSystem.js:4-15 | lbs and oz show as kg and g |
| Units.MetricVolumeUnits | unitSystem.js:17-28 | gallons and fl oz show as L and mL |
| Units.MetricLengthUnits | unitSystem.js:30-41 | inches and feet show as cm and m |
| Units.MetricAmounts | unitSystem.js:2-70 | 10 lbs is 4.53592 kg, 2 gallons 7.57082 L, and kcal is never converted |
| Defaults.GetItemDefault | defaultsManager.js:17-19 | a value is found exactly when the item and the rate are both stored, and it is the stored value |
| Defaults.SetItemDefault | defaultsManager.js:21-27 | with value semantics, the kept catalog rates are untouched and the item is present afterwards |
| Defaults.SaveDefaults | defaultsManager.js:12-15 | every read afterwards answers from the new map |
| Defaults.ResetToDefaults | defaultsManager.js:51-55 | with value semantics, every read afterwards answers from the catalog rates, which are also returned |
| Defaults.ItemRates | defaultsManager.js:35-43 | an item contributes only the seven overridable rates, each with the item's own value |
| Defaults.OriginalDefaults | defaultsManager.js:29-49 | every catalog item name has an entry and every entry names a catalog item |
| Defaults.OriginalDefaultsLastWins | defaultsManager.js:33-45 | a name's entry holds the rates of the last item with that name |
| Defaults.ResetReadsCatalogRates | defaultsManager.js:29-55 | after a reset, each rate of a catalog item reads as the catalog defines it |
| Defaults.GetAfterSet | defaultsManager.js:17-27 | reading right after setting gives the value set, 0 included |
| Defaults.SetLeavesOthers | defaultsManager.js:21-25 | setting one rate leaves every other item and rate, the same item's other rates included, as it was |
| Defaults.SetTwice | defaultsManager.js:21-26 | setting the same rate twice keeps only the second value |
| Defaults.ResetRestores | defaultsManager.js:51-54 | reset, set, reset again gives the state of the first reset |
| Defaults.OriginalNeverChanges | defaultsManager.js:12-55 | with value semantics, no sequence of edits changes the kept catalog rates, and a sequence ending in a reset leaves them as the overrides |
| Defaults.NewStore | defaultsManager.js:2-10 | a new manager starts from the stored overrides, or none, and keeps rates for every catalog item name |
| Defaults.SetAsWritten | defaultsManager.js:21-27 | as written: once the two maps are one object, a set changes both; before that the catalog rates are untouched |
| Defaults.SaveAsWritten | defaultsManager.js:12-15 | as written: saving separates the overrides from the catalog rates and leaves the catalog rates alone |
| Defaults.ResetAsWritten | defaultsManager.js:51-55 | as written: the overrides become the catalog rates object itself |
| Defaults.AsWrittenAgreesBeforeReset | defaultsManager.js:12-55 | until the two maps are shared, set, save and reset as written agree with the value-semantics store |
| Defaults.SetAfterResetWritesCatalog | defaultsManager.js:21-54 | as written, a set after a reset writes the rate into the kept catalog rates as well |
| Defaults.SecondResetKeepsEdit | defaultsManager.js:21-54 | as written, a rate set after a reset survives the next reset; with value semantics it does not |
| Inventory.InventoryFor | inventory_input_tab.js:78-98 | a list is selected exactly for the five category values |
| Inventory.AddNewItem | inventory_input_tab.js:40-76 | an invalid entry or an unknown category changes nothing; a valid one is appended to its category's list; every other list is unchanged |
| Inventory.AddNewItemCount | inventory_input_tab.js:46-73 | the number of stored entries grows by one exactly when the entry is valid and the category known |
| Inventory.AddNewItemKeepsValid | inventory_input_tab.js:46-70 | every stored entry keeps a non-empty name and a positive quantity |
| Inventory.AppendsInOrder | inventory_input_tab.js:53-70 | two valid entries for one category are stored in the order they were made |

## Left out

- DOM reading and rendering, event listeners, theming, printing and logging: page plumbing with no logic to model.
- `localStorage` persistence and the dynamic import that fills the catalog rates of `DefaultsManager` asynchronously. These are I/O. The store takes the stored map as an input, and the catalog rates are computed from the catalog directly.
- `debounce`: timers.
- `formatNumber` and the `toFixed`/`toLocaleString` text of the page. The exception is the tracker's re-reading of the rounded requirement, which is modelled by `WaterTracker.RoundHundredths`.
- IEEE floating point, NaN and infinities. Quantities are exact reals. Parsed inputs that are NaN are `None`.
- `parseInt`, `parseFloat` and `trim` themselves. Their results are inputs.
- The per-kind water table that script.js reads (`dailyWaterRequirements`) is not defined in the modelled files. The water need of a (kind, name) pair is a function parameter.
- WaterPeriod.CalculateNumDays: only the six time units of the page's selector are modelled. Another unit value would have no maximum and no factor.
- WaterTracker.FulfilledPercent: the stored amount's text is taken as already parsed. The required amount's text has no thousands separators, since `toLocaleString` on a string returns it unchanged.
- Consolidation: names that look like integers or that name `Object.prototype` members are left out. They would reorder or break the `itemMap` object, and no catalog item has such a name.
- Catalog lookups by `Object.prototype` names such as "constructor" are left out. They would find a non-category, which the calculator skips anyway.
- `UnitSystem.displayUnits`: the table is never read by the modelled code.
- The mismatch between the shape of the inputs the page builds and the shape `SupplyCalculator` reads is glue between page and engine. The calculator gets explicit integer counts.
- Defaults.ItemRates: a rate the item does not define is left out of its map. The source stores the key with the value `undefined`, which reads the same through `getItemDefault`.
- Defaults.SetItemDefault, Defaults.ResetToDefaults, Defaults.OriginalNeverChanges: value semantics. After `resetToDefaults` the source's two maps are one object, so a later `setItemDefault` also changes the catalog rates. `AliasedStore` models that sharing (`Defaults.SetAsWritten`, `Defaults.SetAfterResetWritesCatalog`), and "## Findings" records it.
- WaterTracker.GallonsPerUnit, WaterTracker.Display, WaterTracker.FulfilledPercent: these use the corrected table, with 1/3.78541 gallons per litre where script.js:4 has 3.78541. The page as written is `WaterTracker.DisplayAsWritten` and `WaterTracker.FulfilledPercentAsWritten`, and "## Findings" records the difference.
- Defaults.SaveDefaults: the map the caller passes is not shared with the store. The source keeps the caller's object, so the caller's later mutations would show through.

## Findings

| source | as written | input that shows it | evidently intended | confidence | as-written member | corrected member |
|---|---|---|---|---|---|---|
| script.js:2-6 | the `liters` entry is 3.78541, litres per gallon, but amounts in gallons are divided by it for display and stored amounts multiplied by it, as is right for the `cubic_meters` entry (gallons per cubic metre) | one gallon needed, one litre stored, unit litres: the need shows as 0.26 L and the supply as 100% fulfilled | the entry should be gallons per litre, 1/3.78541, so one gallon shows as 3.79 L, as the liquid conversion of utils.js gives, and one litre covers about 26% | not executed | WaterTracker.OneLiterAgainstOneGallon | WaterTracker.DisplayInLitersMatchesLiquids |
| defaultsManager.js:51-54 | `resetToDefaults` makes the overrides the same object as the catalog rates, so a later `setItemDefault` writes into the catalog rates too | catalog adult water rate 1; reset, set it to 2, reset again: the rate still reads 2 | a reset always restores the catalog rates, as if the catalog rates had been copied | not executed | Defaults.SecondResetKeepsEdit | Defaults.ResetRestores |

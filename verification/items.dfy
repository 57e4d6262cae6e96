/**
 * The records that flow through the requirement pipeline: the six per-class quantities,
 * the per-unit nutrition figures, an expanded item (one per catalog item per selected
 * category) and a consolidated item (one per distinct name).
 */
module Items {
  import opened Wrappers

  /** The six quantity fields of an item: four scaled by head count, two flat. */
  datatype Quantities = Quantities(
    perAdult: real,
    perChild: real,
    perDog: real,
    perCat: real,
    perHousehold: real,
    perFamily: real)
  {
    /** Field-wise sum, the `+=` of consolidation. */
    function Plus(other: Quantities): (r: Quantities)
      ensures r.perAdult == perAdult + other.perAdult && r.perChild == perChild + other.perChild
      ensures r.perDog == perDog + other.perDog && r.perCat == perCat + other.perCat
      ensures r.perHousehold == perHousehold + other.perHousehold && r.perFamily == perFamily + other.perFamily
    {
      Quantities(perAdult + other.perAdult, perChild + other.perChild, perDog + other.perDog,
                 perCat + other.perCat, perHousehold + other.perHousehold, perFamily + other.perFamily)
    }
  }

  const NoQuantities := Quantities(0.0, 0.0, 0.0, 0.0, 0.0, 0.0)

  /** The `caloriesPerUnit` ... `carbsPerUnit` fields an expanded item carries (absent read as 0). */
  datatype NutrientsPerUnit = NutrientsPerUnit(calories: real, protein: real, fat: real, carbs: real)

  datatype ExpandedItem = ExpandedItem(name: string, amounts: Quantities, unit: Option<string>, perUnit: NutrientsPerUnit)

  /** A consolidated entry: the name, the summed quantities and the first occurrence's unit. */
  datatype ConsolidatedItem = ConsolidatedItem(name: string, amounts: Quantities, unit: Option<string>)

  /** How many individuals of each class the plan covers. */
  datatype Counts = Counts(adults: int, children: int, dogs: int, cats: int)

  /** The grand total of one item for a household: per-class amounts times head counts, plus the flat amounts. */
  function Total(q: Quantities, c: Counts): (r: real)
    ensures c == Counts(0, 0, 0, 0) ==> r == q.perHousehold + q.perFamily
    ensures q == NoQuantities ==> r == 0.0
  {
    q.perAdult * c.adults as real + q.perChild * c.children as real
    + q.perDog * c.dogs as real + q.perCat * c.cats as real
    + q.perHousehold + q.perFamily
  }

  /** Totals are additive, so summing quantities first or totals afterwards agrees. */
  lemma TotalOfPlus(a: Quantities, b: Quantities, c: Counts)
    ensures Total(a.Plus(b), c) == Total(a, c) + Total(b, c)
  {
    var ad, ch, dg, ct := c.adults as real, c.children as real, c.dogs as real, c.cats as real;
    assert (a.perAdult + b.perAdult) * ad == a.perAdult * ad + b.perAdult * ad;
    assert (a.perChild + b.perChild) * ch == a.perChild * ch + b.perChild * ch;
    assert (a.perDog + b.perDog) * dg == a.perDog * dg + b.perDog * dg;
    assert (a.perCat + b.perCat) * ct == a.perCat * ct + b.perCat * ct;
  }

  /** A class with no members contributes nothing, whatever its per-individual amount. */
  lemma ZeroCountContributesNothing(q: Quantities, c: Counts)
    requires c.children == 0
    ensures Total(q, c) == Total(q.(perChild := 0.0), c)
  {
  }

  lemma TotalOfNoQuantities(c: Counts)
    ensures Total(NoQuantities, c) == 0.0
  {
  }

  /** With non-negative head counts, raising any per-class amount never lowers the total. */
  lemma TotalMonotone(a: Quantities, b: Quantities, c: Counts)
    requires c.adults >= 0 && c.children >= 0 && c.dogs >= 0 && c.cats >= 0
    requires a.perAdult <= b.perAdult && a.perChild <= b.perChild && a.perDog <= b.perDog && a.perCat <= b.perCat
    requires a.perHousehold <= b.perHousehold && a.perFamily <= b.perFamily
    ensures Total(a, c) <= Total(b, c)
  {
    var ad, ch, dg, ct := c.adults as real, c.children as real, c.dogs as real, c.cats as real;
    var a1, a2, a3, a4 := a.perAdult * ad, a.perChild * ch, a.perDog * dg, a.perCat * ct;
    var b1, b2, b3, b4 := b.perAdult * ad, b.perChild * ch, b.perDog * dg, b.perCat * ct;
    MulMonotone(a.perAdult, b.perAdult, ad);
    MulMonotone(a.perChild, b.perChild, ch);
    MulMonotone(a.perDog, b.perDog, dg);
    MulMonotone(a.perCat, b.perCat, ct);
    assert Total(a, c) == a1 + a2 + a3 + a4 + a.perHousehold + a.perFamily;
    assert Total(b, c) == b1 + b2 + b3 + b4 + b.perHousehold + b.perFamily;
    assert a1 <= b1 && a2 <= b2 && a3 <= b3 && a4 <= b4;
    assert a1 + a2 + a3 + a4 + a.perHousehold + a.perFamily <= b1 + b2 + b3 + b4 + b.perHousehold + b.perFamily;
  }

  lemma MulMonotone(x: real, y: real, k: real)
    requires x <= y && 0.0 <= k
    ensures x * k <= y * k
  {
    assert y * k - x * k == (y - x) * k;
  }
}

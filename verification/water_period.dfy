/**
 * The planning period of the water planner (`calculateNumDays` in script.js): a count in a
 * chosen time unit, clamped to a per-unit maximum, turned into a number of days.
 */
module WaterPeriod {
  import opened Wrappers

  datatype TimeUnit = Hours | Days | Weeks | Months | Years | Custom

  /** `timeFrameConversion`: days per unit; the custom unit has no entry (`null`). */
  function TimeFrameConversion(u: TimeUnit): Option<real> {
    match u
    case Hours => Some(1.0 / 24.0)
    case Days => Some(1.0)
    case Weeks => Some(7.0)
    case Months => Some(30.0)
    case Years => Some(365.0)
    case Custom => None
  }

  /** `maxValues`: the largest count accepted for each unit. */
  function MaxQuantity(u: TimeUnit): int {
    match u
    case Hours => 8760
    case Days => 3650
    case Weeks => 520
    case Months => 120
    case Years => 100
    case Custom => 365
  }

  /** How many days one unit stands for: the table's factor, or one day for a custom count. */
  function DaysPerUnit(u: TimeUnit): (d: real)
    ensures d > 0.0
    ensures TimeFrameConversion(u).Some? ==> d == TimeFrameConversion(u).value
    ensures u == Custom ==> d == 1.0
  {
    match TimeFrameConversion(u)
    case Some(f) => f
    case None => 1.0
  }

  /** The outcome of one recalculation: the count left in the field, the days, and whether the cap message shows. */
  datatype TimeFrame = TimeFrame(quantity: int, numDays: real, capped: bool)

  /**
   * `calculateNumDays`: a missing (NaN) or sub-1 count becomes 1, a count above the unit's
   * maximum becomes the maximum, and the days are the count times the unit's days.
   */
  function CalculateNumDays(u: TimeUnit, parsed: Option<int>): (t: TimeFrame)
    ensures 1 <= t.quantity <= MaxQuantity(u)
    ensures t.capped <==> parsed.Some? && parsed.value > MaxQuantity(u)
    ensures t.capped ==> t.quantity == MaxQuantity(u)
    ensures parsed.Some? && 1 <= parsed.value <= MaxQuantity(u) ==> t.quantity == parsed.value
    ensures parsed.None? || parsed.value < 1 ==> t.quantity == 1
    ensures t.numDays == t.quantity as real * DaysPerUnit(u)
  {
    var q := match parsed
      case Some(v) => if v < 1 then 1 else v
      case None => 1;
    var capped := q > MaxQuantity(u);
    var quantity := if capped then MaxQuantity(u) else q;
    var numDays := if u == Custom then quantity as real else quantity as real * TimeFrameConversion(u).value;
    TimeFrame(quantity, numDays, capped)
  }

  /**
   * Every period lies between one hour and 100 years, and every unit but years caps it at
   * about ten years (3650 days) or less.
   */
  lemma PeriodBounds(u: TimeUnit, parsed: Option<int>)
    ensures var t := CalculateNumDays(u, parsed);
            1.0 / 24.0 <= t.numDays <= 36500.0 && (u != Years ==> t.numDays <= 3650.0)
  {
    var t := CalculateNumDays(u, parsed);
    var q := t.quantity as real;
    match u
    case Hours => assert q / 24.0 <= 8760.0 / 24.0;
    case Days =>
    case Weeks =>
    case Months =>
    case Years =>
    case Custom =>
  }

  /** A larger count never gives a shorter period in the same unit. */
  lemma MoreUnitsNeverFewerDays(u: TimeUnit, a: int, b: int)
    requires a <= b
    ensures CalculateNumDays(u, Some(a)).numDays <= CalculateNumDays(u, Some(b)).numDays
  {
    var qa, qb := CalculateNumDays(u, Some(a)).quantity, CalculateNumDays(u, Some(b)).quantity;
    assert qa <= qb;
    assert qa as real * DaysPerUnit(u) <= qb as real * DaysPerUnit(u);
  }

  /** Recalculating with the count the field now shows gives the same period and no message. */
  lemma RecalculateIsStable(u: TimeUnit, parsed: Option<int>)
    ensures var t := CalculateNumDays(u, parsed);
            CalculateNumDays(u, Some(t.quantity)) == t.(capped := false)
  {
  }

  /** A week is seven days; twelve hours is half a day; the custom unit counts days. */
  lemma SamplePeriods()
    ensures CalculateNumDays(Weeks, Some(2)).numDays == 14.0
    ensures CalculateNumDays(Hours, Some(12)).numDays == 0.5
    ensures CalculateNumDays(Custom, Some(400)) == TimeFrame(365, 365.0, true)
    ensures CalculateNumDays(Days, None) == TimeFrame(1, 1.0, false)
  {
  }
}

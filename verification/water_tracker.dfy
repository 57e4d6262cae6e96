/**
 * The volume units of the water planner and its supply tracker (`unitConversion`,
 * `updateOutput`, `updateSupplyTracker` and `updateSupplyFulfilled` in script.js).
 * Required amounts are computed in gallons and shown in the selected unit; the tracker reads
 * the shown requirement back (rounded to hundredths) and compares the stored amount with it.
 */
module WaterTracker {
  import opened Wrappers
  import Liquids

  datatype VolumeUnit = Gallons | Liters | CubicMeters

  // ---------------------------------------------------------------------------
  // The table as written: every amount in gallons is divided by the entry to show it.
  // ---------------------------------------------------------------------------

  /** The `unitConversion` entries as the source writes them. */
  function UnitConversionAsWritten(u: VolumeUnit): real {
    match u
    case Gallons => 1.0
    case Liters => 3.78541
    case CubicMeters => 264.172
  }

  /** An amount in gallons shown the way the page shows it: divided by the table entry. */
  function DisplayAsWritten(gallons: real, u: VolumeUnit): (r: real)
    ensures r * UnitConversionAsWritten(u) == gallons
  {
    gallons / UnitConversionAsWritten(u)
  }

  /**
   * The litres entry is litres per gallon while the cubic-metre entry is gallons per cubic
   * metre, so dividing by it shows one gallon as about 0.264 litres instead of 3.785 litres,
   * the value the liquid conversion of utils.js gives.
   */
  lemma AsWrittenLitersDisagree()
    ensures DisplayAsWritten(1.0, Liters) < 0.27
    ensures Liquids.ConvertLiquidMeasurement(1.0, "liters") == Some(3.78541)
  {
    Liquids.OneGallonInLiters();
  }

  // ---------------------------------------------------------------------------
  // The corrected table: gallons per unit, which dividing and multiplying both respect.
  // ---------------------------------------------------------------------------

  /** Gallons in one of `u`. */
  function GallonsPerUnit(u: VolumeUnit): (g: real)
    ensures g > 0.0
  {
    match u
    case Gallons => 1.0
    case Liters => 1.0 / 3.78541
    case CubicMeters => 264.172
  }

  /** An amount in gallons expressed in `u`. */
  function Display(gallons: real, u: VolumeUnit): (r: real)
    ensures r * GallonsPerUnit(u) == gallons
  {
    gallons / GallonsPerUnit(u)
  }

  /** Only the litres entry changes: the gallon and cubic-metre entries were already gallons per unit. */
  lemma OnlyLitersDiffer(u: VolumeUnit)
    ensures UnitConversionAsWritten(u) == GallonsPerUnit(u) <==> u != Liters
  {
  }

  /** With the corrected table, litres agree with the liquid conversion of utils.js for every amount. */
  lemma DisplayInLitersMatchesLiquids(gallons: real)
    ensures Liquids.ConvertLiquidMeasurement(gallons, "liters") == Some(Display(gallons, Liters))
  {
    var shown := Display(gallons, Liters);
    assert shown == gallons * 3.78541;
  }

  // ---------------------------------------------------------------------------
  // Rounding to hundredths: `toFixed(2)` followed by `parseFloat`.
  // ---------------------------------------------------------------------------

  /** Rounds a non-negative amount to the nearest hundredth, a half going up. */
  function RoundUp(x: real): (r: real)
    requires x >= 0.0
    ensures r - x <= 0.005 && x - r < 0.005
    ensures r >= 0.0
    ensures (r * 100.0).Floor as real == r * 100.0
  {
    var y := x * 100.0 + 0.5;
    var n := y.Floor;
    assert n as real <= y < n as real + 1.0;
    var r := n as real / 100.0;
    assert r * 100.0 == n as real;
    assert r - x == (n as real - x * 100.0) / 100.0;
    r
  }

  lemma WholeHundredthsNegate(r: real)
    requires (r * 100.0).Floor as real == r * 100.0
    ensures ((-r) * 100.0).Floor as real == (-r) * 100.0
  {
    var n := (r * 100.0).Floor;
    assert (-r) * 100.0 == (-n) as real;
  }

  lemma PositiveFactorKeepsSign(x: real, y: real)
    requires y > 0.0
    ensures x * y >= 0.0 <==> x >= 0.0
  {
    if x < 0.0 {
      assert x * y < 0.0;
    }
  }

  /** Rounds to the nearest hundredth, halves away from zero, as `toFixed(2)` does. */
  function RoundHundredths(x: real): (r: real)
    ensures r - x <= 0.005 && x - r <= 0.005
    ensures x >= 0.0 ==> r >= 0.0
    ensures (r * 100.0).Floor as real == r * 100.0
  {
    if x < 0.0 then
      var up := RoundUp(-x);
      WholeHundredthsNegate(up);
      -up
    else RoundUp(x)
  }

  /** A non-negative amount shows as 0.00 exactly when it is below half a hundredth. */
  lemma RoundsToZero(x: real)
    requires x >= 0.0
    ensures RoundHundredths(x) == 0.0 <==> x < 0.005
  {
    var n := (x * 100.0 + 0.5).Floor;
    assert RoundHundredths(x) == n as real / 100.0;
    if x < 0.005 {
      assert x * 100.0 + 0.5 < 1.0;
    } else {
      assert x * 100.0 + 0.5 >= 1.0;
      assert n >= 1;
    }
  }

  // ---------------------------------------------------------------------------
  // The tracker.
  // ---------------------------------------------------------------------------

  /** `parseFloat(...) || 0`: an unreadable entry (NaN) or 0 counts as 0. */
  function AvailableShown(parsed: Option<real>): (a: real)
    ensures parsed.Some? ==> a == parsed.value
    ensures parsed.None? ==> a == 0.0
  {
    match parsed
    case Some(v) => v
    case None => 0.0
  }

  /** The requirement the page shows in `u`, to hundredths. */
  function RequiredShown(requiredGallons: real, u: VolumeUnit): real {
    RoundHundredths(Display(requiredGallons, u))
  }

  /**
   * `updateSupplyFulfilled` with a gallons-per-unit table: both amounts go back to gallons,
   * the ratio becomes a percentage, 0 when the shown requirement is 0, and at most 100.
   */
  function FulfilledPercentWith(table: VolumeUnit -> real, shownRequired: real, parsed: Option<real>, u: VolumeUnit): real
    requires table(u) > 0.0
  {
    var availableGallons := AvailableShown(parsed) * table(u);
    var requiredGallons := shownRequired * table(u);
    var percent := if requiredGallons == 0.0 then 0.0 else availableGallons / requiredGallons * 100.0;
    if percent > 100.0 then 100.0 else percent
  }

  /** The percentage the tracker shows for a requirement in gallons and a stored amount in `u`. */
  function FulfilledPercent(requiredGallons: real, parsed: Option<real>, u: VolumeUnit): (p: real)
    ensures p <= 100.0
    ensures RequiredShown(requiredGallons, u) == 0.0 ==> p == 0.0
    ensures RequiredShown(requiredGallons, u) > 0.0 ==>
              (p == 100.0 <==> AvailableShown(parsed) >= RequiredShown(requiredGallons, u))
    ensures RequiredShown(requiredGallons, u) > 0.0 && AvailableShown(parsed) < RequiredShown(requiredGallons, u) ==>
              p * RequiredShown(requiredGallons, u) == AvailableShown(parsed) * 100.0
  {
    var shown := RequiredShown(requiredGallons, u);
    var p := FulfilledPercentWith(GallonsPerUnit, shown, parsed, u);
    PercentIsRatio(GallonsPerUnit, shown, parsed, u);
    p
  }

  /** The unit factor cancels: the percentage compares the two amounts as the page shows them. */
  lemma PercentIsRatio(table: VolumeUnit -> real, shown: real, parsed: Option<real>, u: VolumeUnit)
    requires table(u) > 0.0
    ensures var p := FulfilledPercentWith(table, shown, parsed, u);
            var a := AvailableShown(parsed);
            p <= 100.0
            && (shown == 0.0 ==> p == 0.0)
            && (shown > 0.0 ==> (p == 100.0 <==> a >= shown))
            && (shown > 0.0 && a < shown ==> p * shown == a * 100.0)
  {
    var t := table(u);
    var a := AvailableShown(parsed);
    if shown > 0.0 {
      assert shown * t > 0.0;
      var ratio := a * t / (shown * t);
      assert ratio == a / shown;
      var q := a / shown;
      assert q * shown == a;
      assert (q - 1.0) * shown == a - shown;
      PositiveFactorKeepsSign(q - 1.0, shown);
      var p := FulfilledPercentWith(table, shown, parsed, u);
      assert p == (if q * 100.0 > 100.0 then 100.0 else q * 100.0);
      if a >= shown {
        assert q >= 1.0;
        assert p == 100.0;
      } else {
        assert q < 1.0;
        assert p == q * 100.0 < 100.0;
      }
    }
  }

  /** With nothing to supply (an empty list) the tracker shows 0%. */
  lemma NothingRequiredShowsZero(parsed: Option<real>, u: VolumeUnit)
    ensures FulfilledPercent(0.0, parsed, u) == 0.0
  {
    RoundsToZero(0.0);
  }

  /** A stored amount that is not negative never shows a negative percentage. */
  lemma PercentNonNegative(requiredGallons: real, parsed: Option<real>, u: VolumeUnit)
    requires requiredGallons >= 0.0 && AvailableShown(parsed) >= 0.0
    ensures FulfilledPercent(requiredGallons, parsed, u) >= 0.0
  {
    var shown := RequiredShown(requiredGallons, u);
    var t := GallonsPerUnit(u);
    assert Display(requiredGallons, u) >= 0.0 by {
      var d := Display(requiredGallons, u);
      if d < 0.0 {
        assert d * t < 0.0;
      }
    }
    if shown > 0.0 {
      assert AvailableShown(parsed) * t / (shown * t) >= 0.0;
    }
  }

  /** The requirement the page as written shows in `u`, to hundredths. */
  function RequiredShownAsWritten(requiredGallons: real, u: VolumeUnit): real {
    RoundHundredths(DisplayAsWritten(requiredGallons, u))
  }

  /**
   * The tracker as written, with the table's litres entry. The shown amounts are compared
   * as in `FulfilledPercent`; only the requirement shown differs.
   */
  function FulfilledPercentAsWritten(requiredGallons: real, parsed: Option<real>, u: VolumeUnit): (p: real)
    ensures p <= 100.0
    ensures RequiredShownAsWritten(requiredGallons, u) == 0.0 ==> p == 0.0
    ensures RequiredShownAsWritten(requiredGallons, u) > 0.0 ==>
              (p == 100.0 <==> AvailableShown(parsed) >= RequiredShownAsWritten(requiredGallons, u))
    ensures RequiredShownAsWritten(requiredGallons, u) > 0.0 && AvailableShown(parsed) < RequiredShownAsWritten(requiredGallons, u) ==>
              p * RequiredShownAsWritten(requiredGallons, u) == AvailableShown(parsed) * 100.0
  {
    var shown := RequiredShownAsWritten(requiredGallons, u);
    var p := FulfilledPercentWith(UnitConversionAsWritten, shown, parsed, u);
    PercentIsRatio(UnitConversionAsWritten, shown, parsed, u);
    p
  }

  /** A product keeps an upper bound when both sides are scaled by the same positive factor. */
  lemma ScaleBound(d: real, bound: real, t: real)
    requires d <= bound && t > 0.0
    ensures d * t <= bound * t
  {
    assert bound * t - d * t == (bound - d) * t;
  }

  /**
   * The tracker reads the shown requirement back and multiplies it by the table entry: the
   * amount it gets is within half a hundredth of the unit of the true requirement. This holds
   * for the table as written and for the corrected one, since both divide and multiply by
   * the same entry.
   */
  lemma DisplayRoundTrip(gallons: real, u: VolumeUnit)
    ensures var t := GallonsPerUnit(u);
            var back := RequiredShown(gallons, u) * t;
            back - gallons <= 0.005 * t && gallons - back <= 0.005 * t
    ensures var t := UnitConversionAsWritten(u);
            var back := RequiredShownAsWritten(gallons, u) * t;
            back - gallons <= 0.005 * t && gallons - back <= 0.005 * t
  {
    var t := GallonsPerUnit(u);
    var x := Display(gallons, u);
    var r := RoundHundredths(x);
    ScaleBound(r - x, 0.005, t);
    ScaleBound(x - r, 0.005, t);
    assert (r - x) * t == r * t - gallons;
    assert (x - r) * t == gallons - r * t;
    var tw := UnitConversionAsWritten(u);
    var xw := DisplayAsWritten(gallons, u);
    var rw := RoundHundredths(xw);
    ScaleBound(rw - xw, 0.005, tw);
    ScaleBound(xw - rw, 0.005, tw);
    assert (rw - xw) * tw == rw * tw - gallons;
    assert (xw - rw) * tw == gallons - rw * tw;
  }

  /**
   * One litre stored against a one-gallon need: the page as written reports the need as
   * 0.26 litres and the supply as 100% fulfilled; with the corrected table the need is
   * 3.79 litres and the supply about 26% fulfilled.
   */
  lemma OneLiterAgainstOneGallon()
    ensures FulfilledPercentAsWritten(1.0, Some(1.0), Liters) == 100.0
    ensures 26.0 < FulfilledPercent(1.0, Some(1.0), Liters) < 27.0
  {
    var w := DisplayAsWritten(1.0, Liters);
    assert 0.26 <= w < 0.265;
    assert (w * 100.0 + 0.5).Floor == 26;
    assert RoundHundredths(w) == 0.26;
    var c := Display(1.0, Liters);
    assert c == 3.78541;
    assert (c * 100.0 + 0.5).Floor == 379;
    assert RoundHundredths(c) == 3.79;
    var p := FulfilledPercent(1.0, Some(1.0), Liters);
    assert p * 3.79 == 100.0;
  }
}

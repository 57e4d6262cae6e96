/**
 * Liquid measurements (`liquidConversions` and `convertLiquidMeasurement` in utils.js):
 * amounts are kept in gallons and shown in a unit the user picks, going through millilitres.
 */
module Liquids {
  import opened Wrappers

  /** Millilitres in one gallon, the factor every conversion starts from. */
  const MillilitersPerGallon: real := 3785.41

  /** The units the conversion table names. */
  const LiquidUnits: set<string> :=
    {"milliliters", "liters", "fluid_ounces", "cups", "pints", "quarts", "gallons"}

  /**
   * Millilitres in one of `unit`; `None` for a name the table does not hold, whose lookup
   * yields `undefined` in the source.
   */
  function LiquidFactor(unit: string): (r: Option<real>)
    ensures r.Some? <==> unit in LiquidUnits
    ensures r.Some? ==> r.value >= 1.0
    ensures unit == "gallons" ==> r == Some(MillilitersPerGallon)
  {
    match unit
    case "milliliters" => Some(1.0)
    case "liters" => Some(1000.0)
    case "fluid_ounces" => Some(29.5735)
    case "cups" => Some(236.588)
    case "pints" => Some(473.176)
    case "quarts" => Some(946.353)
    case "gallons" => Some(3785.41)
    case _ => None
  }

  /**
   * An amount in gallons expressed in `target`. An unknown target divides by `undefined`
   * in the source, which gives NaN; here that is `None`.
   */
  function ConvertLiquidMeasurement(amount: real, target: string): (r: Option<real>)
    ensures r.Some? <==> target in LiquidUnits
    ensures r.Some? ==> r.value * LiquidFactor(target).value == amount * MillilitersPerGallon
  {
    match LiquidFactor(target)
    case Some(perUnit) => Some(amount * MillilitersPerGallon / perUnit)
    case None => None
  }

  /** The way back: an amount in `unit` expressed in gallons. */
  function ToGallons(amount: real, unit: string): (r: Option<real>)
    ensures r.Some? <==> unit in LiquidUnits
    ensures r.Some? ==> r.value * MillilitersPerGallon == amount * LiquidFactor(unit).value
  {
    match LiquidFactor(unit)
    case Some(perUnit) => Some(amount * perUnit / MillilitersPerGallon)
    case None => None
  }

  /** Converting to gallons leaves the amount as it is. */
  lemma GallonsIsIdentity(amount: real)
    ensures ConvertLiquidMeasurement(amount, "gallons") == Some(amount)
  {
  }

  /** One gallon is 3.78541 litres. */
  lemma OneGallonInLiters()
    ensures ConvertLiquidMeasurement(1.0, "liters") == Some(3.78541)
  {
  }

  /** Converting to a unit and back gives the amount that went in. */
  lemma RoundTrip(amount: real, unit: string)
    requires unit in LiquidUnits
    ensures ToGallons(ConvertLiquidMeasurement(amount, unit).value, unit) == Some(amount)
  {
    var f := LiquidFactor(unit).value;
    var shown := ConvertLiquidMeasurement(amount, unit).value;
    assert shown * f == amount * MillilitersPerGallon;
    assert shown * f / MillilitersPerGallon == amount;
  }

  /** The conversion is linear: it respects sums and scaling. */
  lemma Linear(a: real, b: real, k: real, unit: string)
    requires unit in LiquidUnits
    ensures ConvertLiquidMeasurement(a + b, unit).value
            == ConvertLiquidMeasurement(a, unit).value + ConvertLiquidMeasurement(b, unit).value
    ensures ConvertLiquidMeasurement(k * a, unit).value == k * ConvertLiquidMeasurement(a, unit).value
  {
    var f := LiquidFactor(unit).value;
    assert (a + b) * MillilitersPerGallon / f == a * MillilitersPerGallon / f + b * MillilitersPerGallon / f;
    assert k * a * MillilitersPerGallon / f == k * (a * MillilitersPerGallon / f);
  }

  /** A larger amount never shows as a smaller one, in any unit. */
  lemma Monotone(a: real, b: real, unit: string)
    requires unit in LiquidUnits && a <= b
    ensures ConvertLiquidMeasurement(a, unit).value <= ConvertLiquidMeasurement(b, unit).value
  {
    var f := LiquidFactor(unit).value;
    var d := (b - a) * MillilitersPerGallon / f;
    assert d >= 0.0;
    Linear(a, b - a, 1.0, unit);
  }
}

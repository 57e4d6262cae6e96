/**
 * Imperial/metric display of supply amounts (`UnitSystem` in unitSystem.js). The conversion
 * table has one entry per imperial unit, giving the metric unit and the factor; nothing
 * converts the other way. A missing unit (`undefined`, `null`) is the empty string here.
 */
module Units {
  import opened Wrappers

  const ImperialSystem: string := "imperial"
  const MetricSystem: string := "metric"

  const ImperialUnits: seq<string> := ["lbs", "oz", "gallons", "fl oz", "inches", "feet"]
  const MetricUnits: seq<string> := ["kg", "g", "L", "mL", "cm", "m"]

  /** Units shown as they are in every system. */
  const FixedUnits: seq<string> := ["units", "kits", "rolls", "kcal"]

  predicate IsImperialUnit(unit: string) {
    unit in ImperialUnits
  }

  predicate IsMetricUnit(unit: string) {
    unit in MetricUnits
  }

  /** One entry of the conversion table: multiply by `factor` to get an amount in `unit`. */
  datatype Conversion = Conversion(factor: real, unit: string)

  /** `conversions[unit]?.[system]`: only the metric direction has entries. */
  function ConversionFor(unit: string, system: string): (r: Option<Conversion>)
    ensures r.Some? ==> system == MetricSystem && IsImperialUnit(unit) && IsMetricUnit(r.value.unit)
    ensures r.Some? ==> r.value.factor > 0.0 && r.value.factor != 1.0
  {
    if system != MetricSystem then None
    else
      match unit
      case "lbs" => Some(Conversion(0.453592, "kg"))
      case "oz" => Some(Conversion(28.3495, "g"))
      case "gallons" => Some(Conversion(3.78541, "L"))
      case "fl oz" => Some(Conversion(29.5735, "mL"))
      case "inches" => Some(Conversion(2.54, "cm"))
      case "feet" => Some(Conversion(0.3048, "m"))
      case _ => None
  }

  predicate AlreadyIn(unit: string, system: string) {
    (system == ImperialSystem && IsImperialUnit(unit)) || (system == MetricSystem && IsMetricUnit(unit))
  }

  /**
   * `convertValue`: a zero amount or a missing unit comes back as it is, as does an amount
   * already in the target system or one the table has no entry for; otherwise it is
   * multiplied by the entry's factor.
   */
  function ConvertValue(value: real, fromUnit: string, toSystem: string): (r: real)
    ensures value != 0.0 && toSystem == MetricSystem && IsImperialUnit(fromUnit) ==>
              r == value * ConversionFor(fromUnit, toSystem).value.factor
    ensures !(value != 0.0 && toSystem == MetricSystem && IsImperialUnit(fromUnit)) ==> r == value
  {
    if value == 0.0 || fromUnit == "" then value
    else if AlreadyIn(fromUnit, toSystem) then value
    else
      match ConversionFor(fromUnit, toSystem)
      case None => value
      case Some(c) => value * c.factor
  }

  /**
   * `getDisplayUnit`: a missing unit shows as the empty string, the fixed units and units
   * already in the system as themselves, and an imperial unit shown in metric as the
   * table's metric unit.
   */
  function GetDisplayUnit(unit: string, system: string): (r: string)
    ensures unit == "" ==> r == ""
    ensures unit in FixedUnits ==> r == unit
    ensures system == MetricSystem && IsImperialUnit(unit) ==> IsMetricUnit(r) && r != unit
    ensures !(system == MetricSystem && IsImperialUnit(unit)) ==> r == unit
  {
    if unit == "" then ""
    else if unit in FixedUnits then unit
    else if AlreadyIn(unit, system) then unit
    else
      match ConversionFor(unit, system)
      case Some(c) => c.unit
      case None => unit
  }

  /** No unit is both imperial and metric. */
  lemma ImperialAndMetricDisjoint(unit: string)
    ensures !(IsImperialUnit(unit) && IsMetricUnit(unit))
  {
  }

  /** The table has an entry for exactly the imperial units, in the metric direction. */
  lemma TableCoversImperial(unit: string)
    ensures ConversionFor(unit, MetricSystem).Some? <==> IsImperialUnit(unit)
  {
  }

  /** Amount and unit move together: a non-zero amount changes exactly when its unit label does. */
  lemma ValueAndUnitAgree(value: real, unit: string, system: string)
    requires value != 0.0
    ensures ConvertValue(value, unit, system) != value <==> GetDisplayUnit(unit, system) != unit
  {
    if system == MetricSystem && IsImperialUnit(unit) {
      var f := ConversionFor(unit, system).value.factor;
      assert value * f != value by {
        assert value * f - value == value * (f - 1.0);
        assert f - 1.0 != 0.0;
      }
    }
  }

  /** Asking for imperial never changes an amount: there is no metric-to-imperial entry. */
  lemma ImperialNeverConverts(value: real, unit: string)
    ensures ConvertValue(value, unit, ImperialSystem) == value
    ensures GetDisplayUnit(unit, ImperialSystem) == unit
  {
  }

  /** A displayed unit is already in its system: displaying it again changes nothing. */
  lemma DisplayUnitIdempotent(unit: string, system: string)
    ensures GetDisplayUnit(GetDisplayUnit(unit, system), system) == GetDisplayUnit(unit, system)
  {
  }

  /** A converted amount, converted again, stays as it is. */
  lemma ConvertOnce(value: real, unit: string, system: string)
    ensures ConvertValue(ConvertValue(value, unit, system), GetDisplayUnit(unit, system), system)
            == ConvertValue(value, unit, system)
  {
    if system == MetricSystem && IsImperialUnit(unit) {
      ImperialAndMetricDisjoint(GetDisplayUnit(unit, system));
    }
  }

  /** No imperial unit is one of the fixed units. */
  lemma ImperialIsNotFixed(unit: string)
    requires IsImperialUnit(unit)
    ensures unit !in FixedUnits
  {
  }

  /** An imperial unit shown in metric is the unit its table entry names. */
  lemma ShownAsTableUnit(unit: string)
    requires IsImperialUnit(unit)
    ensures GetDisplayUnit(unit, MetricSystem) == ConversionFor(unit, MetricSystem).value.unit
  {
    ImperialIsNotFixed(unit);
    ImperialAndMetricDisjoint(unit);
  }

  /** The metric units shown for the imperial weights. */
  lemma MetricWeightUnits()
    ensures GetDisplayUnit("lbs", MetricSystem) == "kg" && GetDisplayUnit("oz", MetricSystem) == "g"
  {
    ShownAsTableUnit("lbs");
    ShownAsTableUnit("oz");
  }

  /** The metric units shown for the imperial volumes. */
  lemma MetricVolumeUnits()
    ensures GetDisplayUnit("gallons", MetricSystem) == "L" && GetDisplayUnit("fl oz", MetricSystem) == "mL"
  {
    ShownAsTableUnit("gallons");
    ShownAsTableUnit("fl oz");
  }

  /** The metric units shown for the imperial lengths. */
  lemma MetricLengthUnits()
    ensures GetDisplayUnit("inches", MetricSystem) == "cm" && GetDisplayUnit("feet", MetricSystem) == "m"
  {
    ShownAsTableUnit("inches");
    ShownAsTableUnit("feet");
  }

  /** Two sample amounts, and a fixed unit that is never converted. */
  lemma MetricAmounts()
    ensures ConvertValue(10.0, "lbs", MetricSystem) == 4.53592
    ensures ConvertValue(2.0, "gallons", MetricSystem) == 7.57082
    ensures GetDisplayUnit("kcal", MetricSystem) == "kcal" && ConvertValue(2000.0, "kcal", MetricSystem) == 2000.0
  {
  }
}

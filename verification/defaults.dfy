/**
 * User overrides of item rates (`DefaultsManager` in defaultsManager.js): a map from item
 * name to a map from rate name to value, with the catalog's own rates kept aside for a
 * reset. Persistence (`localStorage`) is left out; the state is the two maps.
 */
module Defaults {
  import opened Wrappers
  import opened Catalog

  type Defaults = map<string, map<string, real>>

  datatype Store = Store(defaults: Defaults, original: Defaults)

  /** `getItemDefault`: the stored value, or `None` (`undefined`) when the item or the rate is missing. */
  function GetItemDefault(s: Store, item: string, valueType: string): (r: Option<real>)
    ensures r.Some? <==> item in s.defaults && valueType in s.defaults[item]
    ensures r.Some? ==> r.value == s.defaults[item][valueType]
  {
    if item in s.defaults && valueType in s.defaults[item] then Some(s.defaults[item][valueType]) else None
  }

  /** The defaults with one rate of one item set, creating the item's map when it is missing. */
  function Put(d: Defaults, item: string, valueType: string, value: real): (r: Defaults)
    ensures r.Keys == d.Keys + {item}
    ensures valueType in r[item] && r[item][valueType] == value
    ensures forall t :: t in r[item] && t != valueType ==> item in d && t in d[item] && r[item][t] == d[item][t]
    ensures forall i :: i in d && i != item ==> r[i] == d[i]
  {
    var inner := if item in d then d[item] else map[];
    d[item := inner[valueType := value]]
  }

  /** `setItemDefault`: one rate of one item is set; the kept catalog rates are untouched. */
  function SetItemDefault(s: Store, item: string, valueType: string, value: real): (r: Store)
    ensures r.original == s.original
    ensures r.defaults.Keys == s.defaults.Keys + {item}
  {
    s.(defaults := Put(s.defaults, item, valueType, value))
  }

  /** `saveDefaults`: the whole overrides map is replaced. */
  function SaveDefaults(s: Store, newDefaults: Defaults): (r: Store)
    ensures forall i, t :: GetItemDefault(r, i, t) == (if i in newDefaults && t in newDefaults[i] then Some(newDefaults[i][t]) else None)
    ensures r.original == s.original
  {
    s.(defaults := newDefaults)
  }

  /** `resetToDefaults`: the overrides become the catalog rates, which are also returned. */
  function ResetToDefaults(s: Store): (r: (Store, Defaults))
    ensures r.1 == s.original
    ensures forall i, t :: GetItemDefault(r.0, i, t) == (if i in s.original && t in s.original[i] then Some(s.original[i][t]) else None)
    ensures r.0.original == s.original
  {
    (s.(defaults := s.original), s.original)
  }

  // ---------------------------------------------------------------------------
  // The catalog rates (`getOriginalDefaults`).
  // ---------------------------------------------------------------------------

  /** The item field a rate name denotes, for the seven rates a user may override. */
  function RateField(item: ItemDef, rate: string): Option<real> {
    match rate
    case "perAdultPerDay" => item.perAdultPerDay
    case "perChildPerDay" => item.perChildPerDay
    case "perDogPerDay" => item.perDogPerDay
    case "perCatPerDay" => item.perCatPerDay
    case "perPerson" => item.perPerson
    case "perHousehold" => item.perHousehold
    case "perFamily" => item.perFamily
    case _ => None
  }

  /** The rates `getOriginalDefaults` copies from each item. */
  const RateNames: set<string> :=
    {"perAdultPerDay", "perChildPerDay", "perDogPerDay", "perCatPerDay", "perPerson", "perHousehold", "perFamily"}

  /** The rates an item contributes; a rate the item does not define reads as missing. */
  function ItemRates(item: ItemDef): (m: map<string, real>)
    ensures m.Keys <= RateNames
    ensures forall rate :: rate in m ==> RateField(item, rate) == Some(m[rate])
  {
    map rate | rate in RateNames && RateField(item, rate).Some? :: RateField(item, rate).value
  }

  /** The catalog rates, item by item in catalog order; a later item with the same name wins. */
  function OriginalDefaults(items: seq<ItemDef>): (d: Defaults)
    ensures forall i :: 0 <= i < |items| ==> items[i].name in d
    ensures forall n :: n in d ==> exists i :: 0 <= i < |items| && items[i].name == n
    decreases |items|
  {
    if |items| == 0 then map[]
    else
      var p, last := items[..|items| - 1], items[|items| - 1];
      var d := OriginalDefaults(p)[last.name := ItemRates(last)];
      assert forall i :: 0 <= i < |p| ==> items[i] == p[i];
      d
  }

  /** Each name's rates are those of the last item bearing it. */
  lemma {:induction false} OriginalDefaultsLastWins(items: seq<ItemDef>, i: nat)
    requires i < |items|
    requires forall j :: i < j < |items| ==> items[j].name != items[i].name
    ensures OriginalDefaults(items)[items[i].name] == ItemRates(items[i])
    decreases |items|
  {
    if i < |items| - 1 {
      OriginalDefaultsLastWins(items[..|items| - 1], i);
    }
  }

  /** A new manager: the stored overrides (or none) and the rates of every catalog item. */
  function NewStore(stored: Option<Defaults>, catalog: Catalog): (s: Store)
    ensures stored.None? ==> s.defaults == map[]
    ensures forall i :: 0 <= i < |AllItems(catalog)| ==> AllItems(catalog)[i].name in s.original
  {
    Store(stored.GetOr(map[]), OriginalDefaults(AllItems(catalog)))
  }

  // ---------------------------------------------------------------------------
  // Properties of the overrides.
  // ---------------------------------------------------------------------------

  /**
   * After a reset, every rate of a catalog item reads as the catalog defines it (provided no
   * later item reuses its name), and a rate it does not define reads as missing.
   */
  lemma ResetReadsCatalogRates(stored: Option<Defaults>, catalog: Catalog, i: nat, rate: string)
    requires i < |AllItems(catalog)|
    requires forall j :: i < j < |AllItems(catalog)| ==> AllItems(catalog)[j].name != AllItems(catalog)[i].name
    requires rate in RateNames
    ensures var item := AllItems(catalog)[i];
            GetItemDefault(ResetToDefaults(NewStore(stored, catalog)).0, item.name, rate) == RateField(item, rate)
  {
    OriginalDefaultsLastWins(AllItems(catalog), i);
  }

  /** Reading right after setting gives the value set, 0 included. */
  lemma GetAfterSet(s: Store, item: string, valueType: string, value: real)
    ensures GetItemDefault(SetItemDefault(s, item, valueType, value), item, valueType) == Some(value)
  {
  }

  /** Setting one rate of one item leaves every other (item, rate) pair as it was, the item's other rates included. */
  lemma SetLeavesOthers(s: Store, item: string, valueType: string, value: real, i: string, t: string)
    requires i != item || t != valueType
    ensures GetItemDefault(SetItemDefault(s, item, valueType, value), i, t) == GetItemDefault(s, i, t)
  {
  }

  /** Setting the same pair twice keeps only the second value. */
  lemma SetTwice(s: Store, item: string, valueType: string, v1: real, v2: real)
    ensures SetItemDefault(SetItemDefault(s, item, valueType, v1), item, valueType, v2)
            == SetItemDefault(s, item, valueType, v2)
  {
    var inner := if item in s.defaults then s.defaults[item] else map[];
    assert inner[valueType := v1][valueType := v2] == inner[valueType := v2];
    var d1 := Put(s.defaults, item, valueType, v1);
    assert d1[item] == inner[valueType := v1];
    assert Put(d1, item, valueType, v2) == s.defaults[item := inner[valueType := v2]];
  }

  /** Reset, then change a rate, then reset again: the catalog rate is back. */
  lemma ResetRestores(s: Store, item: string, valueType: string, value: real)
    ensures var s1 := SetItemDefault(ResetToDefaults(s).0, item, valueType, value);
            ResetToDefaults(s1).0 == ResetToDefaults(s).0
  {
  }

  /** Any sequence of edits leaves the kept catalog rates as they were. */
  datatype Edit = Set(item: string, valueType: string, value: real) | Save(newDefaults: Defaults) | Reset

  function Apply(s: Store, e: Edit): Store {
    match e
    case Set(i, t, v) => SetItemDefault(s, i, t, v)
    case Save(d) => SaveDefaults(s, d)
    case Reset => ResetToDefaults(s).0
  }

  function ApplyAll(s: Store, edits: seq<Edit>): Store
    decreases |edits|
  {
    if |edits| == 0 then s else Apply(ApplyAll(s, edits[..|edits| - 1]), edits[|edits| - 1])
  }

  lemma {:induction false} OriginalNeverChanges(s: Store, edits: seq<Edit>)
    ensures ApplyAll(s, edits).original == s.original
    ensures |edits| > 0 && edits[|edits| - 1] == Reset ==> ApplyAll(s, edits).defaults == s.original
    decreases |edits|
  {
    if |edits| > 0 {
      OriginalNeverChanges(s, edits[..|edits| - 1]);
    }
  }

  // ---------------------------------------------------------------------------
  // The reset as written: after `this.defaults = this.originalDefaults` both fields name one
  // object, so a later `setItemDefault` writes into the catalog rates as well.
  // ---------------------------------------------------------------------------

  datatype AliasedStore = AliasedStore(defaults: Defaults, original: Defaults, shared: bool)

  function SetAsWritten(s: AliasedStore, item: string, valueType: string, value: real): (r: AliasedStore)
    ensures r.shared == s.shared
    ensures r.shared ==> r.original == r.defaults
    ensures !r.shared ==> r.original == s.original
  {
    var d := Put(s.defaults, item, valueType, value);
    if s.shared then AliasedStore(d, d, true) else s.(defaults := d)
  }

  function SaveAsWritten(s: AliasedStore, newDefaults: Defaults): (r: AliasedStore)
    ensures r.original == s.original && !r.shared
  {
    AliasedStore(newDefaults, s.original, false)
  }

  function ResetAsWritten(s: AliasedStore): (r: AliasedStore)
    ensures r.defaults == s.original && r.shared
  {
    AliasedStore(s.original, s.original, true)
  }

  function GetAsWritten(s: AliasedStore, item: string, valueType: string): (r: Option<real>)
    ensures r == GetItemDefault(Store(s.defaults, s.original), item, valueType)
  {
    if item in s.defaults && valueType in s.defaults[item] then Some(s.defaults[item][valueType]) else None
  }

  /** Before any reset the two maps are separate, and the page behaves like the store with value semantics. */
  lemma AsWrittenAgreesBeforeReset(s: AliasedStore, item: string, valueType: string, value: real, d: Defaults)
    requires !s.shared
    ensures var r, v := SetAsWritten(s, item, valueType, value), SetItemDefault(Store(s.defaults, s.original), item, valueType, value);
            r.defaults == v.defaults && r.original == v.original && !r.shared
    ensures var r, v := SaveAsWritten(s, d), SaveDefaults(Store(s.defaults, s.original), d);
            r.defaults == v.defaults && r.original == v.original
    ensures var r, v := ResetAsWritten(s), ResetToDefaults(Store(s.defaults, s.original)).0;
            r.defaults == v.defaults && r.original == v.original
  {
  }

  /** After a reset, the page as written writes a set rate into the kept catalog rates as well. */
  lemma SetAfterResetWritesCatalog(s: AliasedStore, item: string, valueType: string, value: real)
    ensures var r := SetAsWritten(ResetAsWritten(s), item, valueType, value);
            r.original == Put(s.original, item, valueType, value) && r.defaults == r.original
  {
  }

  /**
   * Water's adult rate is 1 gallon in the catalog. Reset, set it to 2, reset again: the page
   * as written still reads 2, while the model with value semantics reads 1.
   */
  lemma SecondResetKeepsEdit()
    ensures var original := map["Water" := map["perAdultPerDay" := 1.0]];
            var s := AliasedStore(map[], original, false);
            var s2 := ResetAsWritten(SetAsWritten(ResetAsWritten(s), "Water", "perAdultPerDay", 2.0));
            GetAsWritten(s2, "Water", "perAdultPerDay") == Some(2.0)
    ensures var original := map["Water" := map["perAdultPerDay" := 1.0]];
            var s := Store(map[], original);
            var s2 := ResetToDefaults(SetItemDefault(ResetToDefaults(s).0, "Water", "perAdultPerDay", 2.0)).0;
            GetItemDefault(s2, "Water", "perAdultPerDay") == Some(1.0)
  {
  }
}

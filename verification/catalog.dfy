/**
 * The shape of the supply catalog: item definitions with optional rate fields, named
 * categories of items, the catalog itself as an ordered key/category table, and the UI's
 * grouping of category keys.
 */
module Catalog {
  import opened Wrappers

  /** One catalog record. Every rate field may be absent (`None`), which downstream code reads as 0. */
  datatype ItemDef = ItemDef(
    name: string,
    unit: Option<string>,
    perAdultPerDay: Option<real>,
    perChildPerDay: Option<real>,
    perPersonPerDay: Option<real>,
    perDogPerDay: Option<real>,
    perCatPerDay: Option<real>,
    perAnimalPerDay: Option<real>,
    perPerson: Option<real>,
    perHousehold: Option<real>,
    perFamily: Option<real>,
    thresholdDuration: Option<real>,
    sharedAmong: Option<real>,
    caloriesPerUnit: Option<real>,
    proteinPerUnit: Option<real>,
    fatPerUnit: Option<real>,
    carbsPerUnit: Option<real>)

  /** An item with a name and unit and no other field set. */
  function Bare(name: string, unit: string): (item: ItemDef)
    ensures item.name == name && item.unit == Some(unit)
    ensures item.perAdultPerDay.None? && item.perPersonPerDay.None? && item.perAnimalPerDay.None?
  {
    ItemDef(name, Some(unit), None, None, None, None, None, None, None, None, None,
            None, None, None, None, None, None)
  }

  datatype Category = Category(name: string, items: seq<ItemDef>)

  datatype CatalogEntry = CatalogEntry(key: string, category: Category)

  /** The catalog object: its keys in declaration order, each with its category. */
  type Catalog = seq<CatalogEntry>

  predicate HasKey(catalog: Catalog, key: string) {
    exists i :: 0 <= i < |catalog| && catalog[i].key == key
  }

  /** Property lookup `categories[key]`: the first entry with that key, if any. */
  function Lookup(catalog: Catalog, key: string): (r: Option<Category>)
    ensures r.Some? <==> HasKey(catalog, key)
    ensures r.Some? ==> exists i :: 0 <= i < |catalog| && catalog[i].key == key && catalog[i].category == r.value
  {
    if |catalog| == 0 then None
    else if catalog[0].key == key then Some(catalog[0].category)
    else
      var r := Lookup(catalog[1..], key);
      assert r.Some? ==> exists i :: 0 <= i < |catalog[1..]| && catalog[1..][i].key == key && catalog[1..][i].category == r.value;
      assert HasKey(catalog[1..], key) ==> HasKey(catalog, key);
      assert HasKey(catalog, key) ==> HasKey(catalog[1..], key) by {
        if HasKey(catalog, key) {
          var i :| 0 <= i < |catalog| && catalog[i].key == key;
          assert catalog[1..][i - 1].key == key;
        }
      }
      r
  }

  /** A UI group of category keys. */
  datatype Group = Group(id: string, name: string, keys: seq<string>)

  predicate DistinctKeys(catalog: Catalog) {
    forall i, j :: 0 <= i < j < |catalog| ==> catalog[i].key != catalog[j].key
  }

  /** With distinct keys, looking up an entry's key finds that entry's category. */
  lemma {:induction false} LookupFindsEntry(catalog: Catalog, i: nat)
    requires DistinctKeys(catalog) && i < |catalog|
    ensures Lookup(catalog, catalog[i].key) == Some(catalog[i].category)
    decreases i
  {
    if i > 0 {
      assert catalog[0].key != catalog[i].key;
      var rest := catalog[1..];
      assert rest[i - 1] == catalog[i];
      LookupFindsEntry(rest, i - 1);
    }
  }

  function CatalogKeys(catalog: Catalog): (keys: seq<string>)
    ensures |keys| == |catalog| && forall i :: 0 <= i < |catalog| ==> keys[i] == catalog[i].key
  {
    seq(|catalog|, i requires 0 <= i < |catalog| => catalog[i].key)
  }

  /** Every catalog item, category by category in declaration order. */
  function AllItems(catalog: Catalog): seq<ItemDef>
    decreases |catalog|
  {
    if |catalog| == 0 then [] else AllItems(catalog[..|catalog| - 1]) + catalog[|catalog| - 1].category.items
  }

  /** What one selected key reaches: its category's items, or nothing for an unknown key. */
  function KeyDefs(catalog: Catalog, key: string): seq<ItemDef> {
    match Lookup(catalog, key)
    case Some(category) => category.items
    case None => []
  }

  /** The catalog items a selection of keys reaches, key by key; unknown keys reach nothing. */
  function SelectedItems(catalog: Catalog, keys: seq<string>): seq<ItemDef>
    decreases |keys|
  {
    if |keys| == 0 then []
    else
      SelectedItems(catalog, keys[..|keys| - 1]) + KeyDefs(catalog, keys[|keys| - 1])
  }

  lemma SelectedItemsLast(catalog: Catalog, keys: seq<string>)
    requires |keys| > 0
    ensures SelectedItems(catalog, keys) == SelectedItems(catalog, keys[..|keys| - 1]) + KeyDefs(catalog, keys[|keys| - 1])
  {
  }

  /** Selecting every key once, in catalog order, reaches every item once, in catalog order. */
  lemma {:induction false} SelectAllKeys(catalog: Catalog, j: nat)
    requires DistinctKeys(catalog) && j <= |catalog|
    ensures SelectedItems(catalog, CatalogKeys(catalog)[..j]) == AllItems(catalog[..j])
    decreases j
  {
    if j > 0 {
      var keys := CatalogKeys(catalog)[..j];
      SelectAllKeys(catalog, j - 1);
      LookupFindsEntry(catalog, j - 1);
      assert keys[..j - 1] == CatalogKeys(catalog)[..j - 1] && keys[j - 1] == catalog[j - 1].key;
      SelectedItemsLast(catalog, keys);
      assert KeyDefs(catalog, keys[j - 1]) == catalog[j - 1].category.items;
      var c := catalog[..j];
      assert c[..j - 1] == catalog[..j - 1] && c[j - 1] == catalog[j - 1];
      assert AllItems(c) == AllItems(catalog[..j - 1]) + catalog[j - 1].category.items;
    }
  }
}

/**
 * The inventory input tab (inventory_input_tab.js): five per-category lists of named
 * quantities and the form that appends to one of them. The trimmed name and the parsed
 * quantity (`None` for NaN) are the inputs; the page elements are left out.
 */
module Inventory {
  import opened Wrappers

  datatype InventoryItem = InventoryItem(name: string, quantity: int)

  datatype Inventories = Inventories(
    medical: seq<InventoryItem>,
    tools: seq<InventoryItem>,
    weaponry: seq<InventoryItem>,
    food: seq<InventoryItem>,
    water: seq<InventoryItem>)

  const Categories: seq<string> := ["medical", "tools", "weaponry", "food", "water"]

  /** The list a category value selects (`updateInventoryDisplay`), or `None` for any other value. */
  function InventoryFor(inv: Inventories, category: string): (r: Option<seq<InventoryItem>>)
    ensures r.Some? <==> category in Categories
  {
    match category
    case "medical" => Some(inv.medical)
    case "tools" => Some(inv.tools)
    case "weaponry" => Some(inv.weaponry)
    case "food" => Some(inv.food)
    case "water" => Some(inv.water)
    case _ => None
  }

  /** The form's check: a non-empty name and a quantity that parsed to a positive integer. */
  predicate ValidEntry(name: string, quantity: Option<int>) {
    name != "" && quantity.Some? && quantity.value > 0
  }

  /**
   * `addNewItem`: an invalid entry changes nothing; a valid one is appended to the list its
   * category selects and to no other; an unknown category changes nothing.
   */
  function AddNewItem(inv: Inventories, category: string, name: string, quantity: Option<int>): (r: Inventories)
    ensures !ValidEntry(name, quantity) || category !in Categories ==> r == inv
    ensures ValidEntry(name, quantity) && category in Categories ==>
              InventoryFor(r, category) == Some(InventoryFor(inv, category).value + [InventoryItem(name, quantity.value)])
    ensures forall c :: c != category ==> InventoryFor(r, c) == InventoryFor(inv, c)
  {
    if !ValidEntry(name, quantity) then inv
    else
      var item := InventoryItem(name, quantity.value);
      match category
      case "medical" => inv.(medical := inv.medical + [item])
      case "tools" => inv.(tools := inv.tools + [item])
      case "weaponry" => inv.(weaponry := inv.weaponry + [item])
      case "food" => inv.(food := inv.food + [item])
      case "water" => inv.(water := inv.water + [item])
      case _ => inv
  }

  function ItemCount(inv: Inventories): nat {
    |inv.medical| + |inv.tools| + |inv.weaponry| + |inv.food| + |inv.water|
  }

  /** The number of stored entries grows by one exactly when the entry is valid and the category known. */
  lemma AddNewItemCount(inv: Inventories, category: string, name: string, quantity: Option<int>)
    ensures ItemCount(AddNewItem(inv, category, name, quantity))
            == ItemCount(inv) + (if ValidEntry(name, quantity) && category in Categories then 1 else 0)
  {
  }

  /** Every stored entry has a name and a positive quantity. */
  predicate AllValid(inv: Inventories) {
    forall c, i :: c in Categories && 0 <= i < |InventoryFor(inv, c).value| ==>
      ValidEntry(InventoryFor(inv, c).value[i].name, Some(InventoryFor(inv, c).value[i].quantity))
  }

  /** The form never stores an invalid entry, so the lists stay valid. */
  lemma AddNewItemKeepsValid(inv: Inventories, category: string, name: string, quantity: Option<int>)
    requires AllValid(inv)
    ensures AllValid(AddNewItem(inv, category, name, quantity))
  {
    var r := AddNewItem(inv, category, name, quantity);
    forall c, i | c in Categories && 0 <= i < |InventoryFor(r, c).value|
      ensures ValidEntry(InventoryFor(r, c).value[i].name, Some(InventoryFor(r, c).value[i].quantity))
    {
      if c == category && ValidEntry(name, quantity) && i == |InventoryFor(inv, c).value| {
        assert InventoryFor(r, c).value[i] == InventoryItem(name, quantity.value);
      } else {
        assert InventoryFor(r, c).value[i] == InventoryFor(inv, c).value[i];
      }
    }
  }

  /** Two valid entries for one category land in the order they were made. */
  lemma AppendsInOrder(inv: Inventories, category: string, a: InventoryItem, b: InventoryItem)
    requires category in Categories
    requires ValidEntry(a.name, Some(a.quantity)) && ValidEntry(b.name, Some(b.quantity))
    ensures var r := AddNewItem(AddNewItem(inv, category, a.name, Some(a.quantity)), category, b.name, Some(b.quantity));
            InventoryFor(r, category) == Some(InventoryFor(inv, category).value + [a, b])
  {
    var once := AddNewItem(inv, category, a.name, Some(a.quantity));
    assert InventoryFor(once, category).value == InventoryFor(inv, category).value + [a];
    assert InventoryFor(inv, category).value + [a] + [b] == InventoryFor(inv, category).value + [a, b];
  }
}

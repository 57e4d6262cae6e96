/**
 * Merging expanded items that share a name (`consolidateItems` in utils.js): one entry per
 * distinct name, in order of first occurrence, with the six quantity fields summed, the
 * first occurrence's unit kept, and the per-unit nutrition fields dropped.
 */
module Consolidation {
  import opened Wrappers
  import opened Items

  // ---------------------------------------------------------------------------
  // The operation, as the source computes it: one pass over the items, looking
  // each name up among the entries built so far.
  // ---------------------------------------------------------------------------

  /** Position of the entry called `name` among `acc[from..]`, if there is one. */
  function IndexOfName(acc: seq<ConsolidatedItem>, name: string, from: nat := 0): (r: Option<nat>)
    requires from <= |acc|
    ensures r.Some? ==> from <= r.value < |acc| && acc[r.value].name == name
    ensures r.None? ==> forall k :: from <= k < |acc| ==> acc[k].name != name
    decreases |acc| - from
  {
    if from == |acc| then None
    else if acc[from].name == name then Some(from)
    else IndexOfName(acc, name, from + 1)
  }

  /** The entry a first occurrence creates: name, quantities and unit, nothing else. */
  function Entry(item: ExpandedItem): ConsolidatedItem {
    ConsolidatedItem(item.name, item.amounts, item.unit)
  }

  /** The list after adding `x` into entry `k`: names and units stay where they were. */
  function AddInto(acc: seq<ConsolidatedItem>, k: nat, x: ExpandedItem): (r: seq<ConsolidatedItem>)
    requires k < |acc|
    ensures |r| == |acc|
    ensures forall l :: 0 <= l < |acc| ==> r[l].name == acc[l].name && r[l].unit == acc[l].unit
    ensures forall l :: 0 <= l < |acc| && l != k ==> r[l] == acc[l]
    ensures r[k].amounts == acc[k].amounts.Plus(x.amounts)
  {
    acc[k := acc[k].(amounts := acc[k].amounts.Plus(x.amounts))]
  }

  /** One step of the pass: add into the existing entry of that name, or append a new one. */
  function MergeInto(acc: seq<ConsolidatedItem>, item: ExpandedItem): (r: seq<ConsolidatedItem>)
    ensures |acc| <= |r| <= |acc| + 1
  {
    match IndexOfName(acc, item.name)
    case Some(k) => AddInto(acc, k, item)
    case None => acc + [Entry(item)]
  }

  function Consolidate(items: seq<ExpandedItem>): (r: seq<ConsolidatedItem>)
    ensures |r| <= |items|
    ensures |r| == 0 <==> |items| == 0
    decreases |items|
  {
    if |items| == 0 then [] else MergeInto(Consolidate(items[..|items| - 1]), items[|items| - 1])
  }

  // ---------------------------------------------------------------------------
  // Reference definitions, stated over the input list.
  // ---------------------------------------------------------------------------

  predicate Occurs(items: seq<ExpandedItem>, name: string) {
    exists i :: 0 <= i < |items| && items[i].name == name
  }

  predicate Listed(entries: seq<ConsolidatedItem>, name: string) {
    exists k :: 0 <= k < |entries| && entries[k].name == name
  }

  /** `i` is where `name` first occurs in `items`. */
  predicate IsFirst(items: seq<ExpandedItem>, name: string, i: int) {
    0 <= i < |items| && items[i].name == name && forall j :: 0 <= j < i ==> items[j].name != name
  }

  function FirstOccurrence(items: seq<ExpandedItem>, name: string): (i: nat)
    requires Occurs(items, name)
    ensures IsFirst(items, name, i)
  {
    if items[0].name == name then 0
    else
      assert Occurs(items[1..], name) by {
        var i :| 0 <= i < |items| && items[i].name == name;
        assert items[1..][i - 1].name == name;
      }
      1 + FirstOccurrence(items[1..], name)
  }

  /** The field-wise sum of the quantities of every item called `name`. */
  function SumNamed(items: seq<ExpandedItem>, name: string): Quantities
    decreases |items|
  {
    if |items| == 0 then NoQuantities
    else
      var before := SumNamed(items[..|items| - 1], name);
      if items[|items| - 1].name == name then before.Plus(items[|items| - 1].amounts) else before
  }

  predicate DistinctNames(items: seq<ExpandedItem>) {
    forall i, j :: 0 <= i < j < |items| ==> items[i].name != items[j].name
  }

  predicate DistinctEntries(entries: seq<ConsolidatedItem>) {
    forall k, l :: 0 <= k < l < |entries| ==> entries[k].name != entries[l].name
  }

  /** Every entry's name occurs in the input, and every input name has an entry. */
  ghost predicate SameNames(entries: seq<ConsolidatedItem>, items: seq<ExpandedItem>) {
    && (forall k :: 0 <= k < |entries| ==> Occurs(items, entries[k].name))
    && (forall i :: 0 <= i < |items| ==> Listed(entries, items[i].name))
  }

  /** Each entry carries the summed quantities of its name. */
  ghost predicate SummedAmounts(entries: seq<ConsolidatedItem>, items: seq<ExpandedItem>) {
    forall k :: 0 <= k < |entries| ==> entries[k].amounts == SumNamed(items, entries[k].name)
  }

  /** Each entry carries the unit of the first item of its name. */
  ghost predicate FirstUnits(entries: seq<ConsolidatedItem>, items: seq<ExpandedItem>)
    requires SameNames(entries, items)
  {
    forall k :: 0 <= k < |entries| ==> entries[k].unit == items[FirstOccurrence(items, entries[k].name)].unit
  }

  /** Entries appear in the order their names first occur. */
  ghost predicate FirstOccurrenceOrder(entries: seq<ConsolidatedItem>, items: seq<ExpandedItem>)
    requires SameNames(entries, items)
  {
    forall k, l :: 0 <= k < l < |entries| ==>
      FirstOccurrence(items, entries[k].name) < FirstOccurrence(items, entries[l].name)
  }

  /** Everything the source promises of its output, each clause in terms of the input alone. */
  ghost predicate IsConsolidationOf(entries: seq<ConsolidatedItem>, items: seq<ExpandedItem>) {
    && DistinctEntries(entries)
    && SameNames(entries, items)
    && SummedAmounts(entries, items)
    && FirstUnits(entries, items)
    && FirstOccurrenceOrder(entries, items)
  }

  // ---------------------------------------------------------------------------
  // Facts relating a list to the list with one more item.
  // ---------------------------------------------------------------------------

  lemma FirstIsUnique(items: seq<ExpandedItem>, name: string, i: int, j: int)
    requires IsFirst(items, name, i) && IsFirst(items, name, j)
    ensures i == j
  {
  }

  lemma OccursSnoc(p: seq<ExpandedItem>, x: ExpandedItem, name: string)
    ensures Occurs(p + [x], name) <==> Occurs(p, name) || x.name == name
  {
    if Occurs(p, name) {
      var i :| 0 <= i < |p| && p[i].name == name;
      assert (p + [x])[i].name == name;
    }
    if x.name == name {
      assert (p + [x])[|p|].name == name;
    }
    if Occurs(p + [x], name) && x.name != name {
      var i :| 0 <= i < |p + [x]| && (p + [x])[i].name == name;
      assert p[i].name == name;
    }
  }

  lemma FirstOccurrenceSnoc(p: seq<ExpandedItem>, x: ExpandedItem, name: string)
    requires Occurs(p + [x], name)
    ensures Occurs(p, name) ==> FirstOccurrence(p + [x], name) == FirstOccurrence(p, name)
    ensures !Occurs(p, name) ==> FirstOccurrence(p + [x], name) == |p|
  {
    var s := p + [x];
    var f := FirstOccurrence(s, name);
    if Occurs(p, name) {
      var g := FirstOccurrence(p, name);
      assert IsFirst(s, name, g);
      FirstIsUnique(s, name, f, g);
    }
  }

  lemma SumNamedAbsent(items: seq<ExpandedItem>, name: string)
    requires !Occurs(items, name)
    ensures SumNamed(items, name) == NoQuantities
    decreases |items|
  {
    if |items| > 0 {
      var p := items[..|items| - 1];
      assert items == p + [items[|items| - 1]];
      OccursSnoc(p, items[|items| - 1], name);
      SumNamedAbsent(p, name);
    }
  }

  lemma MergeKeepsNames(acc: seq<ConsolidatedItem>, x: ExpandedItem, k: nat)
    requires k < |acc| && acc[k].name == x.name
    ensures |MergeInto(acc, x)| == |acc|
    ensures forall l :: 0 <= l < |acc| ==> MergeInto(acc, x)[l].name == acc[l].name
  {
  }

  // ---------------------------------------------------------------------------
  // The pass meets the reference definitions.
  // ---------------------------------------------------------------------------

  lemma ExistingSameNames(acc: seq<ConsolidatedItem>, p: seq<ExpandedItem>, x: ExpandedItem, k: nat)
    requires SameNames(acc, p)
    requires k < |acc| && acc[k].name == x.name
    ensures SameNames(AddInto(acc, k, x), p + [x])
  {
    var items, r := p + [x], AddInto(acc, k, x);
    forall l | 0 <= l < |r|
      ensures Occurs(items, r[l].name)
    {
      OccursSnoc(p, x, r[l].name);
    }
    forall i | 0 <= i < |items|
      ensures Listed(r, items[i].name)
    {
      if i < |p| {
        assert Listed(acc, p[i].name);
        var l :| 0 <= l < |acc| && acc[l].name == p[i].name;
        assert r[l].name == items[i].name;
      } else {
        assert r[k].name == items[i].name;
      }
    }
  }

  lemma SumNamedSnoc(p: seq<ExpandedItem>, x: ExpandedItem, name: string)
    ensures SumNamed(p + [x], name) == if x.name == name then SumNamed(p, name).Plus(x.amounts) else SumNamed(p, name)
  {
    assert (p + [x])[..|p|] == p;
  }

  lemma ExistingSums(acc: seq<ConsolidatedItem>, p: seq<ExpandedItem>, x: ExpandedItem, k: nat)
    requires DistinctEntries(acc) && SummedAmounts(acc, p)
    requires k < |acc| && acc[k].name == x.name
    ensures SummedAmounts(AddInto(acc, k, x), p + [x])
  {
    var items, r := p + [x], AddInto(acc, k, x);
    forall l | 0 <= l < |r|
      ensures r[l].amounts == SumNamed(items, r[l].name)
    {
      SumNamedSnoc(p, x, r[l].name);
      if l != k {
        assert acc[l].name != acc[k].name;
      }
    }
  }

  lemma ExistingUnits(acc: seq<ConsolidatedItem>, p: seq<ExpandedItem>, x: ExpandedItem, k: nat)
    requires SameNames(acc, p) && FirstUnits(acc, p)
    requires k < |acc| && acc[k].name == x.name
    requires SameNames(AddInto(acc, k, x), p + [x])
    ensures FirstUnits(AddInto(acc, k, x), p + [x])
  {
    var items, r := p + [x], AddInto(acc, k, x);
    forall l | 0 <= l < |r|
      ensures r[l].unit == items[FirstOccurrence(items, r[l].name)].unit
    {
      assert Occurs(p, acc[l].name);
      FirstOccurrenceSnoc(p, x, r[l].name);
      assert items[FirstOccurrence(p, acc[l].name)] == p[FirstOccurrence(p, acc[l].name)];
    }
  }

  lemma ExistingOrder(acc: seq<ConsolidatedItem>, p: seq<ExpandedItem>, x: ExpandedItem, k: nat)
    requires SameNames(acc, p) && FirstOccurrenceOrder(acc, p)
    requires k < |acc| && acc[k].name == x.name
    requires SameNames(AddInto(acc, k, x), p + [x])
    ensures FirstOccurrenceOrder(AddInto(acc, k, x), p + [x])
  {
    var items, r := p + [x], AddInto(acc, k, x);
    forall l, m | 0 <= l < m < |r|
      ensures FirstOccurrence(items, r[l].name) < FirstOccurrence(items, r[m].name)
    {
      assert Occurs(p, acc[l].name) && Occurs(p, acc[m].name);
      FirstOccurrenceSnoc(p, x, r[l].name);
      FirstOccurrenceSnoc(p, x, r[m].name);
    }
  }

  /** Merging an item whose name is already listed keeps the consolidation invariant. */
  lemma MergeExisting(acc: seq<ConsolidatedItem>, p: seq<ExpandedItem>, x: ExpandedItem, k: nat)
    requires IsConsolidationOf(acc, p)
    requires k < |acc| && acc[k].name == x.name
    ensures IsConsolidationOf(AddInto(acc, k, x), p + [x])
  {
    ExistingSameNames(acc, p, x, k);
    ExistingSums(acc, p, x, k);
    ExistingUnits(acc, p, x, k);
    ExistingOrder(acc, p, x, k);
  }

  lemma NewNameAbsent(acc: seq<ConsolidatedItem>, p: seq<ExpandedItem>, x: ExpandedItem)
    requires SameNames(acc, p)
    requires forall k :: 0 <= k < |acc| ==> acc[k].name != x.name
    ensures !Occurs(p, x.name)
  {
    forall i | 0 <= i < |p|
      ensures p[i].name != x.name
    {
      assert Listed(acc, p[i].name);
    }
  }

  lemma NewSameNames(acc: seq<ConsolidatedItem>, p: seq<ExpandedItem>, x: ExpandedItem)
    requires SameNames(acc, p)
    ensures SameNames(acc + [Entry(x)], p + [x])
  {
    var items, r := p + [x], acc + [Entry(x)];
    forall l | 0 <= l < |r|
      ensures Occurs(items, r[l].name)
    {
      OccursSnoc(p, x, r[l].name);
    }
    forall i | 0 <= i < |items|
      ensures Listed(r, items[i].name)
    {
      if i < |p| {
        assert Listed(acc, p[i].name);
        var l :| 0 <= l < |acc| && acc[l].name == p[i].name;
        assert r[l].name == items[i].name;
      } else {
        assert r[|acc|].name == items[i].name;
      }
    }
  }

  lemma NewSums(acc: seq<ConsolidatedItem>, p: seq<ExpandedItem>, x: ExpandedItem)
    requires SummedAmounts(acc, p)
    requires forall k :: 0 <= k < |acc| ==> acc[k].name != x.name
    requires !Occurs(p, x.name)
    ensures SummedAmounts(acc + [Entry(x)], p + [x])
  {
    var items, r := p + [x], acc + [Entry(x)];
    SumNamedAbsent(p, x.name);
    forall l | 0 <= l < |r|
      ensures r[l].amounts == SumNamed(items, r[l].name)
    {
      SumNamedSnoc(p, x, r[l].name);
      if l == |acc| {
        assert NoQuantities.Plus(x.amounts) == x.amounts;
      } else {
        assert r[l] == acc[l];
      }
    }
  }

  lemma NewUnits(acc: seq<ConsolidatedItem>, p: seq<ExpandedItem>, x: ExpandedItem)
    requires SameNames(acc, p) && FirstUnits(acc, p)
    requires !Occurs(p, x.name)
    requires SameNames(acc + [Entry(x)], p + [x])
    ensures FirstUnits(acc + [Entry(x)], p + [x])
  {
    var items, r := p + [x], acc + [Entry(x)];
    forall l | 0 <= l < |r|
      ensures r[l].unit == items[FirstOccurrence(items, r[l].name)].unit
    {
      FirstOccurrenceSnoc(p, x, r[l].name);
      if l < |acc| {
        assert r[l] == acc[l];
        assert Occurs(p, acc[l].name);
        assert items[FirstOccurrence(p, acc[l].name)] == p[FirstOccurrence(p, acc[l].name)];
      }
    }
  }

  lemma NewOrder(acc: seq<ConsolidatedItem>, p: seq<ExpandedItem>, x: ExpandedItem)
    requires SameNames(acc, p) && FirstOccurrenceOrder(acc, p)
    requires !Occurs(p, x.name)
    requires SameNames(acc + [Entry(x)], p + [x])
    ensures FirstOccurrenceOrder(acc + [Entry(x)], p + [x])
  {
    var items, r := p + [x], acc + [Entry(x)];
    forall l, m | 0 <= l < m < |r|
      ensures FirstOccurrence(items, r[l].name) < FirstOccurrence(items, r[m].name)
    {
      assert r[l] == acc[l];
      assert Occurs(p, acc[l].name);
      FirstOccurrenceSnoc(p, x, r[l].name);
      FirstOccurrenceSnoc(p, x, r[m].name);
      if m < |acc| {
        assert r[m] == acc[m];
        assert Occurs(p, acc[m].name);
      }
    }
  }

  /** Merging an item with a new name appends its entry and keeps the consolidation invariant. */
  lemma MergeNew(acc: seq<ConsolidatedItem>, p: seq<ExpandedItem>, x: ExpandedItem)
    requires IsConsolidationOf(acc, p)
    requires forall k :: 0 <= k < |acc| ==> acc[k].name != x.name
    ensures IsConsolidationOf(acc + [Entry(x)], p + [x])
  {
    NewNameAbsent(acc, p, x);
    NewSameNames(acc, p, x);
    NewSums(acc, p, x);
    NewUnits(acc, p, x);
    NewOrder(acc, p, x);
  }

  /** The one-pass merge produces exactly the consolidation described by `IsConsolidationOf`. */
  lemma {:induction false} ConsolidateCorrect(items: seq<ExpandedItem>)
    ensures IsConsolidationOf(Consolidate(items), items)
    decreases |items|
  {
    if |items| > 0 {
      var p, x := items[..|items| - 1], items[|items| - 1];
      assert items == p + [x];
      ConsolidateCorrect(p);
      var acc := Consolidate(p);
      match IndexOfName(acc, x.name)
      case Some(k) => MergeExisting(acc, p, x, k);
      case None => MergeNew(acc, p, x);
    }
  }

  // ---------------------------------------------------------------------------
  // Consequences: names, length and conservation.
  // ---------------------------------------------------------------------------

  function NameList(items: seq<ExpandedItem>): (names: seq<string>)
    ensures |names| == |items| && forall i :: 0 <= i < |items| ==> names[i] == items[i].name
  {
    seq(|items|, i requires 0 <= i < |items| => items[i].name)
  }

  function EntryNames(entries: seq<ConsolidatedItem>): (names: seq<string>)
    ensures |names| == |entries| && forall k :: 0 <= k < |entries| ==> names[k] == entries[k].name
  {
    seq(|entries|, k requires 0 <= k < |entries| => entries[k].name)
  }

  /** The distinct names of a list, each once, in the order they first appear. */
  function Dedup(names: seq<string>): seq<string>
    decreases |names|
  {
    if |names| == 0 then []
    else
      var seen := Dedup(names[..|names| - 1]);
      if names[|names| - 1] in seen then seen else seen + [names[|names| - 1]]
  }

  lemma MergeNames(acc: seq<ConsolidatedItem>, x: ExpandedItem)
    ensures EntryNames(MergeInto(acc, x)) ==
            if x.name in EntryNames(acc) then EntryNames(acc) else EntryNames(acc) + [x.name]
  {
    match IndexOfName(acc, x.name)
    case Some(k) =>
      assert EntryNames(acc)[k] == x.name;
    case None =>
      assert x.name !in EntryNames(acc);
  }

  lemma DedupLast(names: seq<string>)
    requires |names| > 0
    ensures var seen := Dedup(names[..|names| - 1]);
            Dedup(names) == if names[|names| - 1] in seen then seen else seen + [names[|names| - 1]]
  {
  }

  /** The output names are the input names without repeats, in order of first occurrence. */
  lemma {:induction false} ConsolidateNames(items: seq<ExpandedItem>)
    ensures EntryNames(Consolidate(items)) == Dedup(NameList(items))
    decreases |items|
  {
    if |items| > 0 {
      var p, x := items[..|items| - 1], items[|items| - 1];
      var n := NameList(items);
      assert n[..|n| - 1] == NameList(p) && n[|n| - 1] == x.name;
      assert Consolidate(items) == MergeInto(Consolidate(p), x);
      ConsolidateNames(p);
      MergeNames(Consolidate(p), x);
      DedupLast(n);
    }
  }

  /** Two input lists with the same names, position by position, consolidate to the same names. */
  lemma ConsolidateSameNames(a: seq<ExpandedItem>, b: seq<ExpandedItem>)
    requires NameList(a) == NameList(b)
    ensures |Consolidate(a)| == |Consolidate(b)|
    ensures forall k :: 0 <= k < |Consolidate(a)| ==> Consolidate(a)[k].name == Consolidate(b)[k].name
  {
    ConsolidateNames(a);
    ConsolidateNames(b);
  }

  lemma DistinctNamesSnoc(p: seq<ExpandedItem>, x: ExpandedItem)
    ensures DistinctNames(p + [x]) <==> DistinctNames(p) && !Occurs(p, x.name)
  {
    var items := p + [x];
    if DistinctNames(p) && !Occurs(p, x.name) {
      forall i, j | 0 <= i < j < |items|
        ensures items[i].name != items[j].name
      {
        if j == |p| {
          assert p[i].name == items[i].name;
        } else {
          assert p[i].name == items[i].name && p[j].name == items[j].name;
        }
      }
    }
    if DistinctNames(items) {
      forall i, j | 0 <= i < j < |p|
        ensures p[i].name != p[j].name
      {
        assert items[i].name != items[j].name;
      }
      forall i | 0 <= i < |p|
        ensures p[i].name != x.name
      {
        assert items[i].name != items[|p|].name;
      }
    }
  }

  /** Consolidation never lengthens the list, and keeps its length exactly when all names are distinct. */
  lemma {:induction false} ConsolidateLength(items: seq<ExpandedItem>)
    ensures |Consolidate(items)| <= |items|
    ensures |Consolidate(items)| == |items| <==> DistinctNames(items)
    decreases |items|
  {
    if |items| > 0 {
      var p, x := items[..|items| - 1], items[|items| - 1];
      assert items == p + [x];
      ConsolidateLength(p);
      ConsolidateCorrect(p);
      var acc := Consolidate(p);
      DistinctNamesSnoc(p, x);
      assert Consolidate(items) == MergeInto(acc, x);
      match IndexOfName(acc, x.name)
      case Some(k) =>
        assert Occurs(p, acc[k].name);
      case None =>
        NewNameAbsent(acc, p, x);
    }
  }

  /** Field-wise sum of all input quantities. */
  function ItemAmounts(items: seq<ExpandedItem>): Quantities
    decreases |items|
  {
    if |items| == 0 then NoQuantities else ItemAmounts(items[..|items| - 1]).Plus(items[|items| - 1].amounts)
  }

  /** Field-wise sum of all entry quantities. */
  function EntryAmounts(entries: seq<ConsolidatedItem>): Quantities
    decreases |entries|
  {
    if |entries| == 0 then NoQuantities else EntryAmounts(entries[..|entries| - 1]).Plus(entries[|entries| - 1].amounts)
  }

  lemma PlusSwap(x: Quantities, a: Quantities, b: Quantities)
    ensures x.Plus(a).Plus(b) == x.Plus(b).Plus(a)
    ensures x.Plus(b.Plus(a)) == x.Plus(b).Plus(a)
  {
  }

  lemma EntryAmountsLast(entries: seq<ConsolidatedItem>)
    requires |entries| > 0
    ensures EntryAmounts(entries) == EntryAmounts(entries[..|entries| - 1]).Plus(entries[|entries| - 1].amounts)
  {
  }

  lemma {:induction false} EntryAmountsUpdate(acc: seq<ConsolidatedItem>, k: nat, a: Quantities)
    requires k < |acc|
    ensures EntryAmounts(acc[k := acc[k].(amounts := acc[k].amounts.Plus(a))]) == EntryAmounts(acc).Plus(a)
    decreases |acc|
  {
    var r := acc[k := acc[k].(amounts := acc[k].amounts.Plus(a))];
    var n := |acc|;
    EntryAmountsLast(r);
    EntryAmountsLast(acc);
    var before := EntryAmounts(acc[..n - 1]);
    if k < n - 1 {
      assert r[..n - 1] == acc[..n - 1][k := acc[k].(amounts := acc[k].amounts.Plus(a))];
      assert r[n - 1] == acc[n - 1];
      EntryAmountsUpdate(acc[..n - 1], k, a);
      PlusSwap(before, a, acc[n - 1].amounts);
    } else {
      assert r[..n - 1] == acc[..n - 1];
      PlusSwap(before, a, acc[k].amounts);
    }
  }

  /** Summed over the whole list, every quantity field is the same before and after consolidation. */
  lemma {:induction false} ConsolidateConserves(items: seq<ExpandedItem>)
    ensures EntryAmounts(Consolidate(items)) == ItemAmounts(items)
    decreases |items|
  {
    if |items| > 0 {
      var p, x := items[..|items| - 1], items[|items| - 1];
      ConsolidateConserves(p);
      var acc := Consolidate(p);
      match IndexOfName(acc, x.name)
      case Some(k) =>
        EntryAmountsUpdate(acc, k, x.amounts);
      case None =>
        assert (acc + [Entry(x)])[..|acc|] == acc;
    }
  }
}

/**
 * The water planner's list of people and animals (`entityList` in script.js) and the three
 * edits the page makes to it: add (merging repeats), step a quantity, remove a row.
 * The daily water need of each kind of entity comes from a reference table that is a
 * parameter here (`water`), in gallons per individual per day.
 */
module WaterList {
  import opened Wrappers

  datatype Entity = Entity(kind: string, name: string, quantity: int)

  predicate Matches(e: Entity, kind: string, name: string) {
    e.kind == kind && e.name == name
  }

  predicate Present(list: seq<Entity>, kind: string, name: string) {
    exists i :: 0 <= i < |list| && Matches(list[i], kind, name)
  }

  /** The invariant the page keeps: every quantity is at least 1 and no (kind, name) pair repeats. */
  predicate WellFormed(list: seq<Entity>) {
    (forall i :: 0 <= i < |list| ==> list[i].quantity >= 1)
    && (forall i, j :: 0 <= i < j < |list| ==> !Matches(list[j], list[i].kind, list[i].name))
  }

  /** How many individuals of one kind and name the list holds, over all of its rows. */
  function Headcount(list: seq<Entity>, kind: string, name: string): int
    decreases |list|
  {
    if |list| == 0 then 0
    else
      var last := list[|list| - 1];
      Headcount(list[..|list| - 1], kind, name) + (if Matches(last, kind, name) then last.quantity else 0)
  }

  /** `Array.prototype.find` on (kind, name): the index of the first matching row, if any. */
  function FindEntity(list: seq<Entity>, kind: string, name: string, from: nat := 0): (r: Option<nat>)
    requires from <= |list|
    ensures r.Some? ==> from <= r.value < |list| && Matches(list[r.value], kind, name)
    ensures r.Some? ==> forall j :: from <= j < r.value ==> !Matches(list[j], kind, name)
    ensures r.None? <==> forall j :: from <= j < |list| ==> !Matches(list[j], kind, name)
    decreases |list| - from
  {
    if from == |list| then None
    else if Matches(list[from], kind, name) then Some(from)
    else FindEntity(list, kind, name, from + 1)
  }

  /** The quantity field after `parseInt`: a missing (NaN) or sub-1 value becomes 1. */
  function AddedQuantity(parsed: Option<int>): (q: int)
    ensures q >= 1
    ensures parsed.Some? && parsed.value >= 1 ==> q == parsed.value
    ensures parsed.None? || parsed.value < 1 ==> q == 1
  {
    match parsed
    case Some(v) => if v < 1 then 1 else v
    case None => 1
  }

  /**
   * `addEntity`: an empty name changes nothing; otherwise the quantity is added to the first
   * row with the same kind and name, or a new row is appended at the end.
   */
  function AddEntity(list: seq<Entity>, kind: string, name: string, parsed: Option<int>): (r: seq<Entity>)
    ensures name == "" ==> r == list
    ensures name != "" ==> Present(r, kind, name)
    ensures |r| == |list| + (if name != "" && !Present(list, kind, name) then 1 else 0)
  {
    if name == "" then list
    else
      var q := AddedQuantity(parsed);
      match FindEntity(list, kind, name)
      case Some(i) =>
        var r := list[i := list[i].(quantity := list[i].quantity + q)];
        assert Matches(r[i], kind, name);
        r
      case None =>
        var r := list + [Entity(kind, name, q)];
        assert Matches(r[|list|], kind, name);
        r
  }

  /** Adding never moves a row: every existing row keeps its kind and name in place. */
  lemma AddEntityKeepsRows(list: seq<Entity>, kind: string, name: string, parsed: Option<int>)
    ensures forall i :: 0 <= i < |list| ==>
              AddEntity(list, kind, name, parsed)[i].kind == list[i].kind && AddEntity(list, kind, name, parsed)[i].name == list[i].name
  {
  }

  /** `splice(index, 1)` on a list: the start position a possibly negative index denotes. */
  function SpliceStart(length: nat, index: int): (start: nat)
    ensures index >= 0 ==> start == index
    ensures index < 0 ==> start == if length + index < 0 then 0 else length + index
  {
    if index >= 0 then index else if length + index < 0 then 0 else length + index
  }

  /** The list without row `i`, the others in their order. */
  function RemoveAt(list: seq<Entity>, i: nat): (r: seq<Entity>)
    requires i < |list|
    ensures |r| == |list| - 1
    ensures forall j :: 0 <= j < i ==> r[j] == list[j]
    ensures forall j :: i <= j < |r| ==> r[j] == list[j + 1]
  {
    list[..i] + list[i + 1..]
  }

  /** `removeEntity`: `splice(index, 1)`, which removes nothing once the start is past the end. */
  function RemoveEntity(list: seq<Entity>, index: int): (r: seq<Entity>)
    ensures 0 <= index < |list| ==> r == RemoveAt(list, index)
    ensures index >= |list| ==> r == list
    ensures -|list| <= index < 0 ==> r == RemoveAt(list, |list| + index)
    ensures index < -|list| && |list| > 0 ==> r == RemoveAt(list, 0)
  {
    var start := SpliceStart(|list|, index);
    if start < |list| then RemoveAt(list, start) else list
  }

  /** `adjustQuantity`: step one row's quantity and drop the row once it reaches 0 or below. */
  function AdjustQuantity(list: seq<Entity>, index: nat, change: int): (r: seq<Entity>)
    requires index < |list|
    ensures list[index].quantity + change <= 0 ==> r == RemoveAt(list, index)
    ensures list[index].quantity + change > 0 ==>
              |r| == |list| && r[index].quantity == list[index].quantity + change
              && Matches(r[index], list[index].kind, list[index].name)
              && forall j :: 0 <= j < |list| && j != index ==> r[j] == list[j]
  {
    var updated := list[index].quantity + change;
    if updated <= 0 then RemoveAt(list, index) else list[index := list[index].(quantity := updated)]
  }

  // ---------------------------------------------------------------------------
  // Head counts: what each edit does to the number of individuals of each kind.
  // ---------------------------------------------------------------------------

  lemma {:induction false} HeadcountAppend(list: seq<Entity>, e: Entity, kind: string, name: string)
    ensures Headcount(list + [e], kind, name)
            == Headcount(list, kind, name) + (if Matches(e, kind, name) then e.quantity else 0)
  {
    assert (list + [e])[..|list|] == list;
  }

  lemma {:induction false} HeadcountOfAbsent(list: seq<Entity>, kind: string, name: string)
    requires !Present(list, kind, name)
    ensures Headcount(list, kind, name) == 0
    decreases |list|
  {
    if |list| > 0 {
      var p := list[..|list| - 1];
      assert !Present(p, kind, name) by {
        forall i | 0 <= i < |p|
          ensures !Matches(p[i], kind, name)
        {
          assert p[i] == list[i];
        }
      }
      HeadcountOfAbsent(p, kind, name);
    }
  }

  /** Changing one row's quantity by `d` changes the head count of that row's pair by `d` and no other. */
  lemma {:induction false} HeadcountUpdate(list: seq<Entity>, i: nat, d: int, kind: string, name: string)
    requires i < |list|
    ensures Headcount(list[i := list[i].(quantity := list[i].quantity + d)], kind, name)
            == Headcount(list, kind, name) + (if Matches(list[i], kind, name) then d else 0)
    decreases |list|
  {
    var r := list[i := list[i].(quantity := list[i].quantity + d)];
    var p := list[..|list| - 1];
    assert r[..|r| - 1] == if i == |list| - 1 then p else p[i := p[i].(quantity := p[i].quantity + d)];
    if i < |list| - 1 {
      HeadcountUpdate(p, i, d, kind, name);
    }
  }

  /** Removing a row removes exactly its quantity from its pair's head count. */
  lemma {:induction false} HeadcountRemove(list: seq<Entity>, i: nat, kind: string, name: string)
    requires i < |list|
    ensures Headcount(RemoveAt(list, i), kind, name)
            == Headcount(list, kind, name) - (if Matches(list[i], kind, name) then list[i].quantity else 0)
    decreases |list|
  {
    var p, last := list[..|list| - 1], list[|list| - 1];
    if i == |list| - 1 {
      assert RemoveAt(list, i) == p;
    } else {
      assert list == p + [last];
      assert RemoveAt(list, i) == RemoveAt(p, i) + [last];
      HeadcountRemove(p, i, kind, name);
      HeadcountAppend(RemoveAt(p, i), last, kind, name);
    }
  }

  /** Adding an entity adds its (clamped) quantity to its own pair's head count and to no other. */
  lemma AddEntityCounts(list: seq<Entity>, kind: string, name: string, parsed: Option<int>, k: string, n: string)
    ensures Headcount(AddEntity(list, kind, name, parsed), k, n)
            == Headcount(list, k, n) + (if name != "" && k == kind && n == name then AddedQuantity(parsed) else 0)
  {
    if name != "" {
      var q := AddedQuantity(parsed);
      match FindEntity(list, kind, name)
      case Some(i) =>
        HeadcountUpdate(list, i, q, k, n);
      case None =>
        HeadcountAppend(list, Entity(kind, name, q), k, n);
    }
  }

  /** Stepping a row changes its pair's head count by the step, or drops the pair to 0 when the row goes. */
  lemma AdjustQuantityCounts(list: seq<Entity>, index: nat, change: int)
    requires index < |list| && WellFormed(list)
    ensures var e := list[index];
            Headcount(AdjustQuantity(list, index, change), e.kind, e.name)
            == if e.quantity + change <= 0 then 0 else e.quantity + change
  {
    var e := list[index];
    HeadcountIsRow(list, index);
    if e.quantity + change <= 0 {
      HeadcountRemove(list, index, e.kind, e.name);
    } else {
      HeadcountUpdate(list, index, change, e.kind, e.name);
    }
  }

  /** In a well-formed list a pair's head count is the quantity on its one row. */
  lemma {:induction false} HeadcountIsRow(list: seq<Entity>, i: nat)
    requires i < |list| && WellFormed(list)
    ensures Headcount(list, list[i].kind, list[i].name) == list[i].quantity
    decreases |list|
  {
    var p, last := list[..|list| - 1], list[|list| - 1];
    var e := list[i];
    if i == |list| - 1 {
      assert !Present(p, e.kind, e.name) by {
        forall j | 0 <= j < |p|
          ensures !Matches(p[j], e.kind, e.name)
        {
          assert p[j] == list[j];
        }
      }
      HeadcountOfAbsent(p, e.kind, e.name);
    } else {
      assert WellFormed(p) by {
        forall j | 0 <= j < |p|
          ensures p[j].quantity >= 1
        {
          assert p[j] == list[j];
        }
      }
      HeadcountIsRow(p, i);
      assert p[i] == e;
      assert !Matches(last, e.kind, e.name);
    }
  }

  // ---------------------------------------------------------------------------
  // The list invariant is kept by every edit.
  // ---------------------------------------------------------------------------

  lemma RemoveAtKeepsWellFormed(list: seq<Entity>, i: nat)
    requires i < |list| && WellFormed(list)
    ensures WellFormed(RemoveAt(list, i))
  {
    var r := RemoveAt(list, i);
    forall a, b | 0 <= a < b < |r|
      ensures !Matches(r[b], r[a].kind, r[a].name)
    {
      var a', b' := if a < i then a else a + 1, if b < i then b else b + 1;
      assert r[a] == list[a'] && r[b] == list[b'];
    }
  }

  lemma AddEntityKeepsWellFormed(list: seq<Entity>, kind: string, name: string, parsed: Option<int>)
    requires WellFormed(list)
    ensures WellFormed(AddEntity(list, kind, name, parsed))
  {
    if name != "" {
      var q := AddedQuantity(parsed);
      var r := AddEntity(list, kind, name, parsed);
      match FindEntity(list, kind, name)
      case Some(i) =>
        forall a, b | 0 <= a < b < |r|
          ensures !Matches(r[b], r[a].kind, r[a].name)
        {
          assert Matches(r[a], list[a].kind, list[a].name) && Matches(r[b], list[b].kind, list[b].name);
        }
      case None =>
        forall a | 0 <= a < |list|
          ensures !Matches(r[|list|], r[a].kind, r[a].name)
        {
          assert r[a] == list[a];
        }
    }
  }

  lemma AdjustQuantityKeepsWellFormed(list: seq<Entity>, index: nat, change: int)
    requires index < |list| && WellFormed(list)
    ensures WellFormed(AdjustQuantity(list, index, change))
  {
    if list[index].quantity + change <= 0 {
      RemoveAtKeepsWellFormed(list, index);
    }
  }

  lemma RemoveEntityKeepsWellFormed(list: seq<Entity>, index: int)
    requires WellFormed(list)
    ensures WellFormed(RemoveEntity(list, index))
  {
    var start := SpliceStart(|list|, index);
    if start < |list| {
      RemoveAtKeepsWellFormed(list, start);
    }
  }

  /** Removing a row takes exactly that row out: the rows left plus the removed one are the rows before. */
  lemma RemoveEntityTakesOneRow(list: seq<Entity>, index: int)
    requires SpliceStart(|list|, index) < |list|
    ensures multiset(RemoveEntity(list, index)) + multiset{list[SpliceStart(|list|, index)]} == multiset(list)
  {
    var s := SpliceStart(|list|, index);
    assert list == list[..s] + [list[s]] + list[s + 1..];
  }

  // ---------------------------------------------------------------------------
  // Water totals (the arithmetic of `updateOutput`).
  // ---------------------------------------------------------------------------

  /**
   * `w` taken `q` times: added for a positive count, subtracted for a negative one. This is the
   * product `w * q` (`ScaleIsProduct`), written as a recursion so that sums of rows stay
   * linear.
   */
  function Scale(w: real, q: int): real
    decreases if q < 0 then -q else q
  {
    if q == 0 then 0.0 else if q > 0 then Scale(w, q - 1) + w else Scale(w, q + 1) - w
  }

  lemma {:induction false} ScaleIsProduct(w: real, q: int)
    ensures Scale(w, q) == w * q as real
    decreases if q < 0 then -q else q
  {
    if q > 0 {
      ScaleIsProduct(w, q - 1);
      assert w * (q - 1) as real + w == w * q as real;
    } else if q < 0 {
      ScaleIsProduct(w, q + 1);
      assert w * (q + 1) as real - w == w * q as real;
    }
  }

  lemma ScaleSucc(w: real, q: int)
    ensures Scale(w, q + 1) == Scale(w, q) + w
  {
  }

  /** Taking `w` first `a` and then `b` times is taking it `a + b` times. */
  lemma {:induction false} ScaleAdd(w: real, a: int, b: int)
    ensures Scale(w, a + b) == Scale(w, a) + Scale(w, b)
    decreases if b < 0 then -b else b
  {
    if b > 0 {
      ScaleAdd(w, a, b - 1);
      ScaleSucc(w, a + b - 1);
    } else if b < 0 {
      ScaleAdd(w, a, b + 1);
      ScaleSucc(w, a + b);
    }
  }

  /** One row's daily need: the per-individual need times the quantity. */
  function RowDaily(e: Entity, water: (string, string) -> real): real {
    Scale(water(e.kind, e.name), e.quantity)
  }

  lemma RowDailyIsProduct(e: Entity, water: (string, string) -> real)
    ensures RowDaily(e, water) == water(e.kind, e.name) * e.quantity as real
  {
    ScaleIsProduct(water(e.kind, e.name), e.quantity);
  }

  /** The daily total of the list, accumulated row by row as the `forEach` does. */
  function DailyWater(list: seq<Entity>, water: (string, string) -> real): real
    decreases |list|
  {
    if |list| == 0 then 0.0 else DailyWater(list[..|list| - 1], water) + RowDaily(list[|list| - 1], water)
  }

  /** The per-row totals for the period, as the breakdown table shows them. */
  function PeriodRows(list: seq<Entity>, water: (string, string) -> real, numDays: real): (rows: seq<real>)
    ensures |rows| == |list|
    ensures forall i :: 0 <= i < |list| ==> rows[i] == RowDaily(list[i], water) * numDays
  {
    seq(|list|, i requires 0 <= i < |list| => RowDaily(list[i], water) * numDays)
  }

  function Sum(xs: seq<real>): real
    decreases |xs|
  {
    if |xs| == 0 then 0.0 else Sum(xs[..|xs| - 1]) + xs[|xs| - 1]
  }

  /**
   * The loop of `updateOutput`: the daily total and the period total. An empty list yields 0
   * for both, as the page's early return does.
   */
  method UpdateTotals(list: seq<Entity>, water: (string, string) -> real, numDays: real)
    returns (daily: real, period: real)
    ensures daily == DailyWater(list, water)
    ensures period == daily * numDays
    ensures period == Sum(PeriodRows(list, water, numDays))
  {
    daily := 0.0;
    var i := 0;
    while i < |list|
      invariant 0 <= i <= |list|
      invariant daily == DailyWater(list[..i], water)
    {
      DailyWaterPrefix(list, i, water);
      daily := daily + RowDaily(list[i], water);
      i := i + 1;
    }
    assert list[..|list|] == list;
    period := daily * numDays;
    RowsSumToTotal(list, water, numDays);
  }

  lemma DailyWaterPrefix(list: seq<Entity>, i: nat, water: (string, string) -> real)
    requires i < |list|
    ensures DailyWater(list[..i + 1], water) == DailyWater(list[..i], water) + RowDaily(list[i], water)
  {
    assert list[..i + 1][..i] == list[..i];
  }

  /** The breakdown rows add up to the period total: scaling each row by the days scales the sum. */
  lemma {:induction false} RowsSumToTotal(list: seq<Entity>, water: (string, string) -> real, numDays: real)
    ensures Sum(PeriodRows(list, water, numDays)) == DailyWater(list, water) * numDays
    decreases |list|
  {
    if |list| > 0 {
      var p, last := list[..|list| - 1], list[|list| - 1];
      PeriodRowsLast(list, water, numDays);
      RowsSumToTotal(p, water, numDays);
      ScaleLast(list, water, numDays);
    }
  }

  lemma ScaleLast(list: seq<Entity>, water: (string, string) -> real, numDays: real)
    requires |list| > 0
    ensures DailyWater(list, water) * numDays
            == DailyWater(list[..|list| - 1], water) * numDays + RowDaily(list[|list| - 1], water) * numDays
  {
    Distribute(DailyWater(list[..|list| - 1], water), RowDaily(list[|list| - 1], water), numDays);
  }

  /** The period rows of a list are those of all but its last entity, then the last one's. */
  lemma PeriodRowsLast(list: seq<Entity>, water: (string, string) -> real, numDays: real)
    requires |list| > 0
    ensures Sum(PeriodRows(list, water, numDays))
            == Sum(PeriodRows(list[..|list| - 1], water, numDays)) + RowDaily(list[|list| - 1], water) * numDays
  {
    var p := list[..|list| - 1];
    var rows, before := PeriodRows(list, water, numDays), PeriodRows(p, water, numDays);
    assert rows[..|rows| - 1] == before by {
      forall k | 0 <= k < |p|
        ensures rows[k] == before[k]
      {
        assert p[k] == list[k];
      }
    }
  }

  lemma Distribute(a: real, b: real, k: real)
    ensures a * k + b * k == (a + b) * k
  {
  }

  lemma {:induction false} DailyWaterAppend(list: seq<Entity>, e: Entity, water: (string, string) -> real)
    ensures DailyWater(list + [e], water) == DailyWater(list, water) + RowDaily(e, water)
  {
    assert (list + [e])[..|list|] == list;
  }

  lemma {:induction false} DailyWaterUpdate(list: seq<Entity>, i: nat, d: int, water: (string, string) -> real)
    requires i < |list|
    ensures DailyWater(list[i := list[i].(quantity := list[i].quantity + d)], water)
            == DailyWater(list, water) + Scale(water(list[i].kind, list[i].name), d)
    decreases |list|
  {
    var r := list[i := list[i].(quantity := list[i].quantity + d)];
    var p := list[..|list| - 1];
    if i == |list| - 1 {
      assert r[..|r| - 1] == p;
      ScaleAdd(water(list[i].kind, list[i].name), list[i].quantity, d);
    } else {
      assert r[..|r| - 1] == p[i := p[i].(quantity := p[i].quantity + d)];
      DailyWaterUpdate(p, i, d, water);
    }
  }

  lemma {:induction false} DailyWaterRemove(list: seq<Entity>, i: nat, water: (string, string) -> real)
    requires i < |list|
    ensures DailyWater(RemoveAt(list, i), water) == DailyWater(list, water) - RowDaily(list[i], water)
    decreases |list|
  {
    var p, last := list[..|list| - 1], list[|list| - 1];
    if i == |list| - 1 {
      assert RemoveAt(list, i) == p;
    } else {
      assert RemoveAt(list, i) == RemoveAt(p, i) + [last];
      DailyWaterRemove(p, i, water);
      DailyWaterAppend(RemoveAt(p, i), last, water);
    }
  }

  /** Adding under a non-empty name either steps the first matching row or appends a new one. */
  lemma AddEntityFound(list: seq<Entity>, kind: string, name: string, parsed: Option<int>, i: nat)
    requires name != "" && FindEntity(list, kind, name) == Some(i)
    ensures AddEntity(list, kind, name, parsed) == list[i := list[i].(quantity := list[i].quantity + AddedQuantity(parsed))]
  {
  }

  lemma AddEntityNew(list: seq<Entity>, kind: string, name: string, parsed: Option<int>)
    requires name != "" && FindEntity(list, kind, name).None?
    ensures AddEntity(list, kind, name, parsed) == list + [Entity(kind, name, AddedQuantity(parsed))]
  {
  }

  lemma BumpWater(list: seq<Entity>, r: seq<Entity>, i: nat, q: int, water: (string, string) -> real, kind: string, name: string)
    requires i < |list| && Matches(list[i], kind, name)
    requires r == list[i := list[i].(quantity := list[i].quantity + q)]
    ensures DailyWater(r, water) == DailyWater(list, water) + Scale(water(kind, name), q)
  {
    DailyWaterUpdate(list, i, q, water);
  }

  lemma AddNewWater(list: seq<Entity>, kind: string, name: string, parsed: Option<int>, water: (string, string) -> real)
    requires name != "" && FindEntity(list, kind, name).None?
    ensures DailyWater(AddEntity(list, kind, name, parsed), water)
            == DailyWater(list, water) + Scale(water(kind, name), AddedQuantity(parsed))
  {
    AddEntityNew(list, kind, name, parsed);
    DailyWaterAppend(list, Entity(kind, name, AddedQuantity(parsed)), water);
  }

  /** Adding an entity raises the daily total by its need times the added quantity. */
  lemma AddEntityWater(list: seq<Entity>, kind: string, name: string, parsed: Option<int>, water: (string, string) -> real)
    requires name != ""
    ensures DailyWater(AddEntity(list, kind, name, parsed), water)
            == DailyWater(list, water) + Scale(water(kind, name), AddedQuantity(parsed))
  {
    match FindEntity(list, kind, name)
    case Some(i) =>
      AddEntityFound(list, kind, name, parsed, i);
      BumpWater(list, AddEntity(list, kind, name, parsed), i, AddedQuantity(parsed), water, kind, name);
    case None => AddNewWater(list, kind, name, parsed, water);
  }

  /** Removing a row lowers the daily total by exactly that row's need. */
  lemma RemoveEntityWater(list: seq<Entity>, index: int, water: (string, string) -> real)
    requires SpliceStart(|list|, index) < |list|
    ensures DailyWater(RemoveEntity(list, index), water)
            == DailyWater(list, water) - RowDaily(list[SpliceStart(|list|, index)], water)
  {
    DailyWaterRemove(list, SpliceStart(|list|, index), water);
  }

  /** Stepping a row changes the daily total by the step's worth of water, or removes the row's whole need. */
  lemma AdjustQuantityWater(list: seq<Entity>, index: nat, change: int, water: (string, string) -> real)
    requires index < |list|
    ensures var e := list[index];
            DailyWater(AdjustQuantity(list, index, change), water)
            == if e.quantity + change <= 0 then DailyWater(list, water) - RowDaily(e, water)
               else DailyWater(list, water) + Scale(water(e.kind, e.name), change)
  {
    if list[index].quantity + change <= 0 {
      DailyWaterRemove(list, index, water);
    } else {
      DailyWaterUpdate(list, index, change, water);
    }
  }
}

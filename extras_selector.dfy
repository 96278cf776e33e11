/** The per-line add-on selector. It owns no state: each handler computes the
    new selection list and hands it to `onChange`; `None` below means the
    handler does not call `onChange` at all. */
module ExtrasSelector {
  import opened Types
  import opened Pricing

  /** The add-ons offered for selection: `extras.filter(e => e.disponivel)`. */
  function Offered(extras: seq<Extra>): (r: seq<Extra>)
    ensures |r| <= |extras|
    ensures forall e :: e in r <==> e in extras && e.disponivel
    ensures (forall i :: 0 <= i < |extras| ==> extras[i].disponivel) ==> r == extras
  {
    if extras == [] then []
    else
      var last := extras[|extras| - 1];
      assert extras == extras[..|extras| - 1] + [last];
      var rest := Offered(extras[..|extras| - 1]);
      if last.disponivel then rest + [last] else rest
  }

  /** The filter keeps an add-on exactly when it is available. */
  lemma OfferedSingle(e: Extra)
    ensures Offered([e]) == if e.disponivel then [e] else []
  {
    assert [e][..0] == [];
  }

  /** The filter distributes over concatenation: together with
      `OfferedSingle` this fixes the offered list, in catalogue order. */
  lemma {:induction false} OfferedAppend(a: seq<Extra>, b: seq<Extra>)
    ensures Offered(a + b) == Offered(a) + Offered(b)
  {
    if b == [] {
      assert a + b == a;
    } else {
      var pre := b[..|b| - 1];
      assert (a + b)[..|a + b| - 1] == a + pre;
      OfferedAppend(a, pre);
    }
  }

  /** Index of the first selection of `extraId`, or -1. */
  function SelectionIndex(sel: seq<ItemExtra>, extraId: string): (k: int)
    ensures -1 <= k < |sel|
    ensures k == -1 <==> forall i :: 0 <= i < |sel| ==> sel[i].extraId != extraId
    ensures k >= 0 ==> sel[k].extraId == extraId && forall j :: 0 <= j < k ==> sel[j].extraId != extraId
  {
    if sel == [] then -1
    else if sel[0].extraId == extraId then 0
    else
      var k := SelectionIndex(sel[1..], extraId);
      if k < 0 then -1 else k + 1
  }

  /** `selectedExtras.find(e => e.extraId === extraId)` */
  function FindSelection(sel: seq<ItemExtra>, extraId: string): Option<ItemExtra>
  {
    var k := SelectionIndex(sel, extraId);
    if k < 0 then None else Some(sel[k])
  }

  /** The count shown beside an add-on: `selectedExtra?.quantidade || 0`. */
  function CountOf(sel: seq<ItemExtra>, extraId: string): int
  {
    match FindSelection(sel, extraId)
    case None => 0
    case Some(s) => s.quantidade
  }

  predicate UniqueExtras(sel: seq<ItemExtra>)
  {
    forall i, j :: 0 <= i < j < |sel| ==> sel[i].extraId != sel[j].extraId
  }

  /** At most one entry per add-on, none stored at a quantity below 1. */
  predicate WellFormed(sel: seq<ItemExtra>)
  {
    UniqueExtras(sel) && forall i :: 0 <= i < |sel| ==> sel[i].quantidade >= 1
  }

  function IncrementSel(sel: seq<ItemExtra>, extraId: string): (r: seq<ItemExtra>)
    ensures |r| == |sel|
    ensures forall i :: 0 <= i < |sel| ==>
      r[i] == if sel[i].extraId == extraId then sel[i].(quantidade := sel[i].quantidade + 1) else sel[i]
  {
    if sel == [] then []
    else
      var last := sel[|sel| - 1];
      IncrementSel(sel[..|sel| - 1], extraId)
        + [if last.extraId == extraId then last.(quantidade := last.quantidade + 1) else last]
  }

  function DecrementSel(sel: seq<ItemExtra>, extraId: string): (r: seq<ItemExtra>)
    ensures |r| == |sel|
    ensures forall i :: 0 <= i < |sel| ==>
      r[i] == if sel[i].extraId == extraId then sel[i].(quantidade := sel[i].quantidade - 1) else sel[i]
  {
    if sel == [] then []
    else
      var last := sel[|sel| - 1];
      DecrementSel(sel[..|sel| - 1], extraId)
        + [if last.extraId == extraId then last.(quantidade := last.quantidade - 1) else last]
  }

  /** `selectedExtras.filter(e => e.extraId !== extraId)` */
  function WithoutSel(sel: seq<ItemExtra>, extraId: string): (r: seq<ItemExtra>)
    ensures |r| <= |sel|
  {
    if sel == [] then []
    else
      var rest := WithoutSel(sel[..|sel| - 1], extraId);
      if sel[|sel| - 1].extraId == extraId then rest else rest + [sel[|sel| - 1]]
  }

  /** The filter keeps exactly the entries for other add-ons. */
  lemma {:induction false} WithoutSelMembers(sel: seq<ItemExtra>, extraId: string)
    ensures forall x :: x in WithoutSel(sel, extraId) <==> x in sel && x.extraId != extraId
  {
    if sel != [] {
      var pre, last := sel[..|sel| - 1], sel[|sel| - 1];
      assert sel == pre + [last];
      WithoutSelMembers(pre, extraId);
    }
  }

  /** Filtering out an add-on that is not selected changes nothing. */
  lemma {:induction false} WithoutSelAbsent(sel: seq<ItemExtra>, extraId: string)
    requires forall i :: 0 <= i < |sel| ==> sel[i].extraId != extraId
    ensures WithoutSel(sel, extraId) == sel
  {
    if sel != [] {
      var pre := sel[..|sel| - 1];
      WithoutSelAbsent(pre, extraId);
      assert pre + [sel[|sel| - 1]] == sel;
    }
  }

  /** `handleAddExtra`: bump the existing entry or append `{extraId, quantidade: 1}`. */
  function AddExtra(sel: seq<ItemExtra>, extraId: string): (r: seq<ItemExtra>)
    ensures FindSelection(r, extraId).Some?
    ensures |r| == |sel| + (if FindSelection(sel, extraId).None? then 1 else 0)
  {
    if FindSelection(sel, extraId).Some? then IncrementSel(sel, extraId)
    else
      var r := sel + [ItemExtra(extraId, 1)];
      assert r[|sel|].extraId == extraId;
      r
  }

  /** `handleRemoveExtra`: drop the entry at quantity 1, decrement it
      otherwise; an add-on that is not selected gives no `onChange` call. */
  function RemoveExtra(sel: seq<ItemExtra>, extraId: string): (r: Option<seq<ItemExtra>>)
    ensures r.None? <==> FindSelection(sel, extraId).None?
  {
    var existing := FindSelection(sel, extraId);
    if existing.Some? && existing.value.quantidade == 1 then Some(WithoutSel(sel, extraId))
    else if existing.Some? then Some(DecrementSel(sel, extraId))
    else None
  }

  // ---------------------------------------------------------------------------
  // Lookups under the one-entry-per-add-on invariant

  lemma FindSelectionUnique(sel: seq<ItemExtra>, k: int)
    requires UniqueExtras(sel)
    requires 0 <= k < |sel|
    ensures SelectionIndex(sel, sel[k].extraId) == k
    ensures FindSelection(sel, sel[k].extraId) == Some(sel[k])
  {
  }

  lemma {:induction false} SameExtrasSameIndex(a: seq<ItemExtra>, b: seq<ItemExtra>, extraId: string)
    requires |a| == |b|
    requires forall i :: 0 <= i < |a| ==> a[i].extraId == b[i].extraId
    ensures SelectionIndex(a, extraId) == SelectionIndex(b, extraId)
  {
    if a != [] && a[0].extraId != extraId {
      SameExtrasSameIndex(a[1..], b[1..], extraId);
    }
  }

  lemma FindSelectionByMembership(sel: seq<ItemExtra>, extraId: string, x: ItemExtra)
    requires UniqueExtras(sel)
    ensures FindSelection(sel, extraId) == Some(x) <==> x in sel && x.extraId == extraId
  {
    if x in sel && x.extraId == extraId {
      var k :| 0 <= k < |sel| && sel[k] == x;
      FindSelectionUnique(sel, k);
    }
  }

  /** No entry other than position `k` is for position `k`'s add-on. */
  predicate OnlyEntryFor(sel: seq<ItemExtra>, k: int)
    requires 0 <= k < |sel|
  {
    forall i :: 0 <= i < |sel| && i != k ==> sel[i].extraId != sel[k].extraId
  }

  /** Filtering out one add-on under the invariant removes exactly that one position. */
  lemma {:induction false} WithoutSelUnique(sel: seq<ItemExtra>, k: int)
    requires 0 <= k < |sel|
    requires OnlyEntryFor(sel, k)
    ensures WithoutSel(sel, sel[k].extraId) == sel[..k] + sel[k + 1..]
  {
    var extraId := sel[k].extraId;
    var pre, last := sel[..|sel| - 1], sel[|sel| - 1];
    if k == |sel| - 1 {
      WithoutSelAbsent(pre, extraId);
      assert sel[k + 1..] == [];
    } else {
      assert last.extraId != extraId;
      assert pre[k] == sel[k];
      assert OnlyEntryFor(pre, k);
      WithoutSelUnique(pre, k);
      assert WithoutSel(sel, extraId) == WithoutSel(pre, extraId) + [last];
      assert sel[..k] == pre[..k];
      assert sel[k + 1..] == pre[k + 1..] + [last];
    }
  }

  lemma WellFormedAfterDropping(sel: seq<ItemExtra>, k: int)
    requires WellFormed(sel)
    requires 0 <= k < |sel|
    ensures WellFormed(sel[..k] + sel[k + 1..])
  {
    var r := sel[..k] + sel[k + 1..];
    assert forall i :: 0 <= i < |r| ==> r[i] == sel[if i < k then i else i + 1];
  }

  // ---------------------------------------------------------------------------
  // The invariant is kept, and counts move by exactly one

  /** Adding keeps one entry per add-on, every quantity at least 1. */
  lemma AddExtraWellFormed(sel: seq<ItemExtra>, extraId: string)
    requires WellFormed(sel)
    ensures WellFormed(AddExtra(sel, extraId))
  {
    var r := AddExtra(sel, extraId);
    if FindSelection(sel, extraId).Some? {
      assert forall i :: 0 <= i < |r| ==> r[i].extraId == sel[i].extraId && r[i].quantidade >= sel[i].quantidade;
    } else {
      assert forall i :: 0 <= i < |sel| ==> r[i] == sel[i] && sel[i].extraId != r[|sel|].extraId;
    }
  }

  /** Adding raises that add-on's count by one and leaves other entries as they were. */
  lemma AddExtraCount(sel: seq<ItemExtra>, extraId: string, e: string)
    requires WellFormed(sel)
    ensures CountOf(AddExtra(sel, extraId), e) == CountOf(sel, e) + (if e == extraId then 1 else 0)
    ensures e != extraId ==> FindSelection(AddExtra(sel, extraId), e) == FindSelection(sel, e)
  {
    var r := AddExtra(sel, extraId);
    if FindSelection(sel, extraId).Some? {
      SameExtrasSameIndex(r, sel, e);
    } else {
      var k := SelectionIndex(sel, e);
      if k >= 0 {
        assert r[k] == sel[k];
        FindSelectionUnique(r, k);
      } else if e == extraId {
        FindSelectionUnique(r, |sel|);
      } else {
        assert forall i :: 0 <= i < |r| ==> r[i].extraId != e;
      }
    }
  }

  /** Removing keeps one entry per add-on, every quantity at least 1. */
  lemma RemoveExtraWellFormed(sel: seq<ItemExtra>, extraId: string)
    requires WellFormed(sel)
    requires RemoveExtra(sel, extraId).Some?
    ensures WellFormed(RemoveExtra(sel, extraId).value)
  {
    var existing := FindSelection(sel, extraId);
    if existing.value.quantidade == 1 {
      var k := SelectionIndex(sel, extraId);
      assert OnlyEntryFor(sel, k);
      WithoutSelUnique(sel, k);
      WellFormedAfterDropping(sel, k);
    }
  }

  /** Dropping an add-on's entry leaves every other entry as it was. */
  lemma WithoutSelKeepsOthers(sel: seq<ItemExtra>, extraId: string, e: string)
    requires WellFormed(sel)
    requires e != extraId
    ensures FindSelection(WithoutSel(sel, extraId), e) == FindSelection(sel, e)
  {
    var r := WithoutSel(sel, extraId);
    WithoutSelMembers(sel, extraId);
    if FindSelection(sel, e).Some? {
      assert UniqueExtras(r) by {
        var k := SelectionIndex(sel, extraId);
        if k >= 0 {
          assert OnlyEntryFor(sel, k);
          WithoutSelUnique(sel, k);
          WellFormedAfterDropping(sel, k);
        } else {
          WithoutSelAbsent(sel, extraId);
        }
      }
      var found := FindSelection(sel, e).value;
      FindSelectionByMembership(sel, e, found);
      FindSelectionByMembership(r, e, found);
    } else {
      assert SelectionIndex(r, e) < 0 by {
        assert forall x :: x in r ==> x.extraId != e;
      }
    }
  }

  /** Dropping an add-on's entry leaves no entry for it and every other entry as it was. */
  lemma WithoutSelLookups(sel: seq<ItemExtra>, extraId: string, e: string)
    requires WellFormed(sel)
    ensures FindSelection(WithoutSel(sel, extraId), extraId).None?
    ensures e != extraId ==> FindSelection(WithoutSel(sel, extraId), e) == FindSelection(sel, e)
  {
    var r := WithoutSel(sel, extraId);
    assert SelectionIndex(r, extraId) < 0 by {
      WithoutSelMembers(sel, extraId);
      assert forall x :: x in r ==> x.extraId != extraId;
    }
    if e != extraId {
      WithoutSelKeepsOthers(sel, extraId, e);
    }
  }

  /** Removing a selected add-on lowers its count by one (the entry goes at
      0); other entries are untouched. */
  lemma RemoveExtraCount(sel: seq<ItemExtra>, extraId: string, e: string)
    requires WellFormed(sel)
    requires RemoveExtra(sel, extraId).Some?
    ensures CountOf(RemoveExtra(sel, extraId).value, e) == CountOf(sel, e) - (if e == extraId then 1 else 0)
    ensures e != extraId ==> FindSelection(RemoveExtra(sel, extraId).value, e) == FindSelection(sel, e)
    ensures FindSelection(RemoveExtra(sel, extraId).value, extraId).None? <==> CountOf(sel, extraId) == 1
  {
    var existing := FindSelection(sel, extraId);
    if existing.value.quantidade == 1 {
      WithoutSelLookups(sel, extraId, e);
    } else {
      var d := DecrementSel(sel, extraId);
      SameExtrasSameIndex(d, sel, e);
      SameExtrasSameIndex(d, sel, extraId);
      var k := SelectionIndex(sel, e);
      if k >= 0 {
        assert FindSelection(d, e) == Some(d[k]);
      }
    }
  }

  /** Lowering every entry of an add-on after raising it restores the selections. */
  lemma DecrementIncrementSel(sel: seq<ItemExtra>, extraId: string)
    ensures DecrementSel(IncrementSel(sel, extraId), extraId) == sel
  {
    var r := DecrementSel(IncrementSel(sel, extraId), extraId);
    assert forall i :: 0 <= i < |sel| ==> r[i] == sel[i];
  }

  /** Bumping a selected add-on and removing a unit again restores the selections. */
  lemma IncrementThenRemoveSel(sel: seq<ItemExtra>, k: int)
    requires WellFormed(sel)
    requires 0 <= k < |sel|
    ensures RemoveExtra(IncrementSel(sel, sel[k].extraId), sel[k].extraId) == Some(sel)
  {
    var extraId := sel[k].extraId;
    var a := IncrementSel(sel, extraId);
    assert FindSelection(a, extraId) == Some(a[k]) && a[k].quantidade >= 2 by {
      FindSelectionUnique(sel, k);
      SameExtrasSameIndex(a, sel, extraId);
    }
    DecrementIncrementSel(sel, extraId);
  }

  /** An entry appended for an add-on that had none is the one the lookup finds. */
  lemma AppendedEntryIndex(sel: seq<ItemExtra>, x: ItemExtra)
    requires forall i :: 0 <= i < |sel| ==> sel[i].extraId != x.extraId
    ensures SelectionIndex(sel + [x], x.extraId) == |sel|
  {
    var a := sel + [x];
    assert a[|sel|] == x;
    assert forall i :: 0 <= i < |sel| ==> a[i] == sel[i];
  }

  /** Appending a fresh entry and removing it again restores the selections. */
  lemma AppendThenDropSel(sel: seq<ItemExtra>, extraId: string)
    requires forall i :: 0 <= i < |sel| ==> sel[i].extraId != extraId
    ensures RemoveExtra(sel + [ItemExtra(extraId, 1)], extraId) == Some(sel)
  {
    var a := sel + [ItemExtra(extraId, 1)];
    AppendedEntryIndex(sel, ItemExtra(extraId, 1));
    assert FindSelection(a, extraId) == Some(ItemExtra(extraId, 1));
    assert OnlyEntryFor(a, |sel|);
    WithoutSelUnique(a, |sel|);
    assert a[..|sel|] == sel && a[|sel| + 1..] == [];
    assert WithoutSel(a, extraId) == a[..|sel|] + a[|sel| + 1..];
    assert WithoutSel(a, extraId) == sel;
    assert RemoveExtra(a, extraId) == Some(WithoutSel(a, extraId));
  }

  /** Removing an add-on right after adding it gives back the selections as they were. */
  lemma AddThenRemoveExtra(sel: seq<ItemExtra>, extraId: string)
    requires WellFormed(sel)
    ensures RemoveExtra(AddExtra(sel, extraId), extraId) == Some(sel)
  {
    var k := SelectionIndex(sel, extraId);
    if k >= 0 {
      IncrementThenRemoveSel(sel, k);
    } else {
      AppendThenDropSel(sel, extraId);
    }
  }

  // ---------------------------------------------------------------------------
  // What each handler does to the line's add-on total

  /** One more unit of an add-on adds its price. */
  lemma ExtrasTotalSucc(s: ItemExtra, extras: seq<Extra>)
    ensures ExtrasTotal([s.(quantidade := s.quantidade + 1)], extras)
         == ExtrasTotal([s], extras) + ExtraPrice(extras, s.extraId)
  {
    var price := ExtraPrice(extras, s.extraId);
    assert [s.(quantidade := s.quantidade + 1)][..0] == [s][..0] == [];
    assert price * (s.quantidade + 1) == price * s.quantidade + price;
  }

  /** Changing one position changes the add-on total by the difference of its entries. */
  lemma {:induction false} ExtrasTotalUpdate(sel: seq<ItemExtra>, k: int, x: ItemExtra, extras: seq<Extra>)
    requires 0 <= k < |sel|
    ensures ExtrasTotal(sel[k := x], extras)
         == ExtrasTotal(sel, extras) - ExtrasTotal([sel[k]], extras) + ExtrasTotal([x], extras)
  {
    var n := |sel| - 1;
    SingleExtraTotal(sel[k], extras);
    SingleExtraTotal(x, extras);
    if k < n {
      assert sel[k := x][..n] == sel[..n][k := x];
      ExtrasTotalUpdate(sel[..n], k, x, extras);
    } else {
      assert sel[k := x][..n] == sel[..n];
    }
  }

  /** A single entry costs its add-on's price times its quantity. */
  lemma SingleExtraTotal(s: ItemExtra, extras: seq<Extra>)
    ensures ExtrasTotal([s], extras) == ExtraPrice(extras, s.extraId) * s.quantidade
  {
    assert [s][..0] == [];
  }

  /** Under the invariant, the increment touches exactly one position. */
  lemma IncrementSelAt(sel: seq<ItemExtra>, k: int)
    requires 0 <= k < |sel|
    requires OnlyEntryFor(sel, k)
    ensures IncrementSel(sel, sel[k].extraId) == sel[k := sel[k].(quantidade := sel[k].quantidade + 1)]
  {
  }

  /** Under the invariant, the decrement touches exactly one position. */
  lemma DecrementSelAt(sel: seq<ItemExtra>, k: int)
    requires 0 <= k < |sel|
    requires OnlyEntryFor(sel, k)
    ensures DecrementSel(sel, sel[k].extraId) == sel[k := sel[k].(quantidade := sel[k].quantidade - 1)]
  {
  }

  /** Bumping a selected add-on adds its price. */
  lemma IncrementSelTotal(sel: seq<ItemExtra>, k: int, extras: seq<Extra>)
    requires 0 <= k < |sel|
    requires OnlyEntryFor(sel, k)
    ensures ExtrasTotal(IncrementSel(sel, sel[k].extraId), extras)
         == ExtrasTotal(sel, extras) + ExtraPrice(extras, sel[k].extraId)
  {
    var x := sel[k].(quantidade := sel[k].quantidade + 1);
    ExtrasTotalSucc(sel[k], extras);
    var gain := ExtrasTotal([x], extras) - ExtrasTotal([sel[k]], extras);
    assert gain == ExtraPrice(extras, sel[k].extraId);
    ExtrasTotalUpdate(sel, k, x, extras);
    IncrementSelAt(sel, k);
  }

  /** Lowering a selected add-on by one subtracts its price. */
  lemma DecrementSelTotal(sel: seq<ItemExtra>, k: int, extras: seq<Extra>)
    requires 0 <= k < |sel|
    requires OnlyEntryFor(sel, k)
    ensures ExtrasTotal(DecrementSel(sel, sel[k].extraId), extras)
         == ExtrasTotal(sel, extras) - ExtraPrice(extras, sel[k].extraId)
  {
    var x := sel[k].(quantidade := sel[k].quantidade - 1);
    ExtrasTotalSucc(x, extras);
    assert x.(quantidade := x.quantidade + 1) == sel[k];
    var loss := ExtrasTotal([sel[k]], extras) - ExtrasTotal([x], extras);
    assert loss == ExtraPrice(extras, sel[k].extraId);
    ExtrasTotalUpdate(sel, k, x, extras);
    DecrementSelAt(sel, k);
  }

  /** Dropping an entry subtracts that entry's amount. */
  lemma WithoutSelTotal(sel: seq<ItemExtra>, k: int, extras: seq<Extra>)
    requires 0 <= k < |sel|
    requires OnlyEntryFor(sel, k)
    ensures ExtrasTotal(WithoutSel(sel, sel[k].extraId), extras)
         == ExtrasTotal(sel, extras) - ExtrasTotal([sel[k]], extras)
  {
    WithoutSelUnique(sel, k);
    assert sel == sel[..k] + [sel[k]] + sel[k + 1..];
    ExtrasTotalAppend(sel[..k] + [sel[k]], sel[k + 1..], extras);
    ExtrasTotalAppend(sel[..k], [sel[k]], extras);
    ExtrasTotalAppend(sel[..k], sel[k + 1..], extras);
  }

  /** Adding an add-on raises the line's add-on total by exactly its price. */
  lemma AddExtraTotal(sel: seq<ItemExtra>, extraId: string, extras: seq<Extra>)
    requires UniqueExtras(sel)
    ensures ExtrasTotal(AddExtra(sel, extraId), extras) == ExtrasTotal(sel, extras) + ExtraPrice(extras, extraId)
  {
    var k := SelectionIndex(sel, extraId);
    if k >= 0 {
      assert OnlyEntryFor(sel, k);
      IncrementSelTotal(sel, k, extras);
    } else {
      var n := ItemExtra(extraId, 1);
      assert (sel + [n])[..|sel|] == sel;
      assert ExtrasTotal([n], extras) == ExtraPrice(extras, extraId);
    }
  }

  /** Removing a selected add-on lowers the line's add-on total by exactly its price. */
  lemma RemoveExtraTotal(sel: seq<ItemExtra>, extraId: string, extras: seq<Extra>)
    requires UniqueExtras(sel)
    requires RemoveExtra(sel, extraId).Some?
    ensures ExtrasTotal(RemoveExtra(sel, extraId).value, extras) == ExtrasTotal(sel, extras) - ExtraPrice(extras, extraId)
  {
    var k := SelectionIndex(sel, extraId);
    assert OnlyEntryFor(sel, k);
    if sel[k].quantidade == 1 {
      WithoutSelTotal(sel, k, extras);
      assert [sel[k]][..0] == [];
      assert ExtrasTotal([sel[k]], extras) == ExtraPrice(extras, extraId);
    } else {
      DecrementSelTotal(sel, k, extras);
    }
  }
}

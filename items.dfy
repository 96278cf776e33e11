/** The cart rule shared by the storefront cart and the back-office draft:
    one line per product, +1 on add, -1 on remove, and a line whose quantity
    would fall from 1 to 0 is dropped. Each function is the new `items` value
    a handler computes with find/map/filter/append. */
module Items {
  import opened Types
  import opened Pricing

  /** Index of the first line for `produtoId`, or -1 (`findIndex`). */
  function ItemIndex(items: seq<ItemPedido>, produtoId: string): (k: int)
    ensures -1 <= k < |items|
    ensures k == -1 <==> forall i :: 0 <= i < |items| ==> items[i].produtoId != produtoId
    ensures k >= 0 ==> items[k].produtoId == produtoId && forall j :: 0 <= j < k ==> items[j].produtoId != produtoId
  {
    if items == [] then -1
    else if items[0].produtoId == produtoId then 0
    else
      var k := ItemIndex(items[1..], produtoId);
      if k < 0 then -1 else k + 1
  }

  /** `items.find(item => item.produtoId === produtoId)` */
  function FindItem(items: seq<ItemPedido>, produtoId: string): Option<ItemPedido>
  {
    var k := ItemIndex(items, produtoId);
    if k < 0 then None else Some(items[k])
  }

  /** The quantity shown next to a product: `item?.quantidade || 0`. */
  function QuantityOf(items: seq<ItemPedido>, produtoId: string): int
  {
    match FindItem(items, produtoId)
    case None => 0
    case Some(item) => item.quantidade
  }

  /** At most one line per product. */
  predicate UniqueProducts(items: seq<ItemPedido>)
  {
    forall i, j :: 0 <= i < j < |items| ==> items[i].produtoId != items[j].produtoId
  }

  /** No stored line has a quantity below 1. */
  predicate PositiveQuantities(items: seq<ItemPedido>)
  {
    forall i :: 0 <= i < |items| ==> items[i].quantidade >= 1
  }

  predicate WellFormed(items: seq<ItemPedido>)
  {
    UniqueProducts(items) && PositiveQuantities(items)
  }

  /** The line appended on a product's first add. */
  function NewItem(id: string, produtoId: string): ItemPedido
  {
    ItemPedido(id, produtoId, 1, [], None)
  }

  /** `items.map(item => item.produtoId === produtoId ? {...item, quantidade: item.quantidade + 1} : item)` */
  function Increment(items: seq<ItemPedido>, produtoId: string): (r: seq<ItemPedido>)
    ensures |r| == |items|
    ensures forall i :: 0 <= i < |items| ==>
      r[i] == if items[i].produtoId == produtoId then items[i].(quantidade := items[i].quantidade + 1) else items[i]
  {
    if items == [] then []
    else
      var last := items[|items| - 1];
      Increment(items[..|items| - 1], produtoId)
        + [if last.produtoId == produtoId then last.(quantidade := last.quantidade + 1) else last]
  }

  /** `items.map(item => item.produtoId === produtoId ? {...item, quantidade: item.quantidade - 1} : item)` */
  function Decrement(items: seq<ItemPedido>, produtoId: string): (r: seq<ItemPedido>)
    ensures |r| == |items|
    ensures forall i :: 0 <= i < |items| ==>
      r[i] == if items[i].produtoId == produtoId then items[i].(quantidade := items[i].quantidade - 1) else items[i]
  {
    if items == [] then []
    else
      var last := items[|items| - 1];
      Decrement(items[..|items| - 1], produtoId)
        + [if last.produtoId == produtoId then last.(quantidade := last.quantidade - 1) else last]
  }

  /** `items.map(item => item.produtoId === produtoId ? {...item, extras} : item)` */
  function ReplaceExtras(items: seq<ItemPedido>, produtoId: string, extras: seq<ItemExtra>): (r: seq<ItemPedido>)
    ensures |r| == |items|
    ensures forall i :: 0 <= i < |items| ==>
      r[i] == if items[i].produtoId == produtoId then items[i].(extras := extras) else items[i]
  {
    if items == [] then []
    else
      var last := items[|items| - 1];
      ReplaceExtras(items[..|items| - 1], produtoId, extras)
        + [if last.produtoId == produtoId then last.(extras := extras) else last]
  }

  /** `items.filter(item => item.produtoId !== produtoId)` */
  function Without(items: seq<ItemPedido>, produtoId: string): (r: seq<ItemPedido>)
    ensures |r| <= |items|
  {
    if items == [] then []
    else
      var rest := Without(items[..|items| - 1], produtoId);
      if items[|items| - 1].produtoId == produtoId then rest else rest + [items[|items| - 1]]
  }

  /** The filter keeps exactly the lines for other products. */
  lemma {:induction false} WithoutMembers(items: seq<ItemPedido>, produtoId: string)
    ensures forall x :: x in Without(items, produtoId) <==> x in items && x.produtoId != produtoId
  {
    if items != [] {
      var pre, last := items[..|items| - 1], items[|items| - 1];
      assert items == pre + [last];
      WithoutMembers(pre, produtoId);
    }
  }

  /** Filtering out a product that has no line changes nothing. */
  lemma {:induction false} WithoutAbsent(items: seq<ItemPedido>, produtoId: string)
    requires forall i :: 0 <= i < |items| ==> items[i].produtoId != produtoId
    ensures Without(items, produtoId) == items
  {
    if items != [] {
      var pre := items[..|items| - 1];
      WithoutAbsent(pre, produtoId);
      assert pre + [items[|items| - 1]] == items;
    }
  }

  /** `handleAddItem`: bump the existing line, or append a fresh one. */
  function AddProduct(items: seq<ItemPedido>, produtoId: string, freshId: string): (r: seq<ItemPedido>)
    ensures FindItem(r, produtoId).Some?
    ensures |r| == |items| + (if FindItem(items, produtoId).None? then 1 else 0)
  {
    if FindItem(items, produtoId).Some? then Increment(items, produtoId)
    else
      var r := items + [NewItem(freshId, produtoId)];
      assert r[|items|].produtoId == produtoId;
      r
  }

  /** `handleRemoveItem`: drop the line at quantity 1, otherwise decrement
      (which leaves the lines as they were when the product is absent). */
  function RemoveProduct(items: seq<ItemPedido>, produtoId: string): (r: seq<ItemPedido>)
    ensures FindItem(items, produtoId).None? ==> r == items
  {
    var existing := FindItem(items, produtoId);
    if existing.Some? && existing.value.quantidade == 1 then Without(items, produtoId)
    else
      var r := Decrement(items, produtoId);
      assert existing.None? ==> r == items;
      r
  }

  // ---------------------------------------------------------------------------
  // Lookups under the one-line-per-product invariant

  /** With unique products, the line found for a product is the one that has it. */
  lemma FindItemUnique(items: seq<ItemPedido>, k: int)
    requires UniqueProducts(items)
    requires 0 <= k < |items|
    ensures ItemIndex(items, items[k].produtoId) == k
    ensures FindItem(items, items[k].produtoId) == Some(items[k])
  {
  }

  /** No line other than position `k` is for position `k`'s product. */
  predicate OnlyLineFor(items: seq<ItemPedido>, k: int)
    requires 0 <= k < |items|
  {
    forall i :: 0 <= i < |items| && i != k ==> items[i].produtoId != items[k].produtoId
  }

  /** Two line lists with the same products at the same positions find
      each product at the same position. */
  lemma {:induction false} SameProductsSameIndex(a: seq<ItemPedido>, b: seq<ItemPedido>, produtoId: string)
    requires |a| == |b|
    requires forall i :: 0 <= i < |a| ==> a[i].produtoId == b[i].produtoId
    ensures ItemIndex(a, produtoId) == ItemIndex(b, produtoId)
  {
    if a != [] && a[0].produtoId != produtoId {
      SameProductsSameIndex(a[1..], b[1..], produtoId);
    }
  }

  /** Under the invariant, a product has a line exactly when its shown
      quantity is at least 1. */
  lemma PresentIffPositive(items: seq<ItemPedido>, produtoId: string)
    requires WellFormed(items)
    ensures FindItem(items, produtoId).Some? <==> QuantityOf(items, produtoId) >= 1
    ensures FindItem(items, produtoId).None? <==> QuantityOf(items, produtoId) == 0
  {
  }

  /** With unique products, a line is found exactly when it is in the list. */
  lemma FindItemByMembership(items: seq<ItemPedido>, produtoId: string, x: ItemPedido)
    requires UniqueProducts(items)
    ensures FindItem(items, produtoId) == Some(x) <==> x in items && x.produtoId == produtoId
  {
    if x in items && x.produtoId == produtoId {
      var k :| 0 <= k < |items| && items[k] == x;
      FindItemUnique(items, k);
    }
  }

  /** Filtering out one product's line under the invariant removes exactly
      that one position. */
  lemma {:induction false} WithoutUnique(items: seq<ItemPedido>, k: int)
    requires 0 <= k < |items|
    requires OnlyLineFor(items, k)
    ensures Without(items, items[k].produtoId) == items[..k] + items[k + 1..]
  {
    var produtoId := items[k].produtoId;
    var pre, last := items[..|items| - 1], items[|items| - 1];
    if k == |items| - 1 {
      WithoutAbsent(pre, produtoId);
      assert items[k + 1..] == [];
    } else {
      assert last.produtoId != produtoId;
      assert pre[k] == items[k];
      assert OnlyLineFor(pre, k);
      WithoutUnique(pre, k);
      assert Without(items, produtoId) == Without(pre, produtoId) + [last];
      assert items[..k] == pre[..k];
      assert items[k + 1..] == pre[k + 1..] + [last];
    }
  }

  /** Removing one position keeps products unique. */
  lemma UniqueAfterDropping(items: seq<ItemPedido>, k: int)
    requires UniqueProducts(items)
    requires 0 <= k < |items|
    ensures UniqueProducts(items[..k] + items[k + 1..])
    ensures PositiveQuantities(items) ==> PositiveQuantities(items[..k] + items[k + 1..])
  {
    var r := items[..k] + items[k + 1..];
    assert forall i :: 0 <= i < |r| ==> r[i] == items[if i < k then i else i + 1];
  }

  // ---------------------------------------------------------------------------
  // The invariant is kept, and quantities move by exactly one

  /** Adding keeps one line per product with every quantity at least 1. */
  lemma AddProductWellFormed(items: seq<ItemPedido>, produtoId: string, freshId: string)
    requires WellFormed(items)
    ensures WellFormed(AddProduct(items, produtoId, freshId))
  {
    var r := AddProduct(items, produtoId, freshId);
    if FindItem(items, produtoId).Some? {
      assert forall i :: 0 <= i < |r| ==> r[i].produtoId == items[i].produtoId && r[i].quantidade >= items[i].quantidade;
    } else {
      assert forall i :: 0 <= i < |items| ==> r[i] == items[i] && items[i].produtoId != r[|items|].produtoId;
    }
  }

  /** Adding raises that product's quantity by one and leaves every other
      product's line untouched. */
  lemma AddProductQuantity(items: seq<ItemPedido>, produtoId: string, freshId: string, p: string)
    requires WellFormed(items)
    ensures QuantityOf(AddProduct(items, produtoId, freshId), p)
         == QuantityOf(items, p) + (if p == produtoId then 1 else 0)
    ensures p != produtoId ==> FindItem(AddProduct(items, produtoId, freshId), p) == FindItem(items, p)
  {
    var r := AddProduct(items, produtoId, freshId);
    if FindItem(items, produtoId).Some? {
      SameProductsSameIndex(r, items, p);
    } else {
      var k := ItemIndex(items, p);
      if k >= 0 {
        assert r[k] == items[k];
        FindItemUnique(r, k);
      } else if p == produtoId {
        FindItemUnique(r, |items|);
      } else {
        assert forall i :: 0 <= i < |r| ==> r[i].produtoId != p;
      }
    }
  }

  /** A product's first add appends `{quantidade: 1, extras: []}` at the end;
      later adds keep the number of lines. */
  lemma AddProductAppendsOnFirstAdd(items: seq<ItemPedido>, produtoId: string, freshId: string)
    requires FindItem(items, produtoId).None?
    ensures AddProduct(items, produtoId, freshId)[..|items|] == items
    ensures FindItem(AddProduct(items, produtoId, freshId), produtoId) == Some(NewItem(freshId, produtoId))
  {
    var r := AddProduct(items, produtoId, freshId);
    assert forall i :: 0 <= i < |items| ==> r[i].produtoId != produtoId;
    assert ItemIndex(r, produtoId) == |items|;
  }

  /** Removing keeps one line per product with every quantity at least 1. */
  lemma RemoveProductWellFormed(items: seq<ItemPedido>, produtoId: string)
    requires WellFormed(items)
    ensures WellFormed(RemoveProduct(items, produtoId))
  {
    var existing := FindItem(items, produtoId);
    if existing.Some? && existing.value.quantidade == 1 {
      var k := ItemIndex(items, produtoId);
      assert OnlyLineFor(items, k);
      WithoutUnique(items, k);
      UniqueAfterDropping(items, k);
    }
  }

  /** Dropping a product's line leaves every other product's line as it was. */
  lemma WithoutKeepsOthers(items: seq<ItemPedido>, produtoId: string, p: string)
    requires UniqueProducts(items)
    requires p != produtoId
    ensures FindItem(Without(items, produtoId), p) == FindItem(items, p)
  {
    var r := Without(items, produtoId);
    WithoutMembers(items, produtoId);
    if FindItem(items, p).Some? {
      assert UniqueProducts(r) by {
        var k := ItemIndex(items, produtoId);
        if k >= 0 {
          assert OnlyLineFor(items, k);
          WithoutUnique(items, k);
          UniqueAfterDropping(items, k);
        } else {
          WithoutAbsent(items, produtoId);
        }
      }
      var found := FindItem(items, p).value;
      FindItemByMembership(items, p, found);
      FindItemByMembership(r, p, found);
    } else {
      assert ItemIndex(r, p) < 0 by {
        assert forall x :: x in r ==> x.produtoId != p;
      }
    }
  }

  /** Dropping a product's line leaves no line for it and every other
      product's line as it was. */
  lemma WithoutLookups(items: seq<ItemPedido>, produtoId: string, p: string)
    requires UniqueProducts(items)
    ensures FindItem(Without(items, produtoId), produtoId).None?
    ensures p != produtoId ==> FindItem(Without(items, produtoId), p) == FindItem(items, p)
  {
    var r := Without(items, produtoId);
    assert ItemIndex(r, produtoId) < 0 by {
      WithoutMembers(items, produtoId);
      assert forall x :: x in r ==> x.produtoId != produtoId;
    }
    if p != produtoId {
      WithoutKeepsOthers(items, produtoId, p);
    }
  }

  /** Removing lowers that product's quantity by one, down to 0 (line
      dropped); every other product's line is untouched. */
  lemma RemoveProductQuantity(items: seq<ItemPedido>, produtoId: string, p: string)
    requires WellFormed(items)
    ensures QuantityOf(RemoveProduct(items, produtoId), p)
         == if p == produtoId && QuantityOf(items, p) >= 1 then QuantityOf(items, p) - 1 else QuantityOf(items, p)
    ensures p != produtoId ==> FindItem(RemoveProduct(items, produtoId), p) == FindItem(items, p)
    ensures FindItem(RemoveProduct(items, produtoId), produtoId).None?
        <==> QuantityOf(items, produtoId) <= 1
  {
    var existing := FindItem(items, produtoId);
    if existing.Some? && existing.value.quantidade == 1 {
      WithoutLookups(items, produtoId, p);
    } else {
      var d := Decrement(items, produtoId);
      SameProductsSameIndex(d, items, p);
      SameProductsSameIndex(d, items, produtoId);
      var k := ItemIndex(items, p);
      if k >= 0 {
        assert FindItem(d, p) == Some(d[k]);
      }
    }
  }

  /** Lowering every line of a product after raising it restores the lines. */
  lemma DecrementIncrement(items: seq<ItemPedido>, produtoId: string)
    ensures Decrement(Increment(items, produtoId), produtoId) == items
  {
    var r := Decrement(Increment(items, produtoId), produtoId);
    assert forall i :: 0 <= i < |items| ==> r[i] == items[i];
  }

  /** Bumping an existing line and removing a unit again restores the lines. */
  lemma IncrementThenRemove(items: seq<ItemPedido>, k: int)
    requires WellFormed(items)
    requires 0 <= k < |items|
    ensures RemoveProduct(Increment(items, items[k].produtoId), items[k].produtoId) == items
  {
    var produtoId := items[k].produtoId;
    var a := Increment(items, produtoId);
    assert FindItem(a, produtoId) == Some(a[k]) && a[k].quantidade >= 2 by {
      FindItemUnique(items, k);
      SameProductsSameIndex(a, items, produtoId);
    }
    DecrementIncrement(items, produtoId);
  }

  /** A line appended for a product that had none is the one the lookup finds. */
  lemma AppendedLineIndex(items: seq<ItemPedido>, x: ItemPedido)
    requires forall i :: 0 <= i < |items| ==> items[i].produtoId != x.produtoId
    ensures ItemIndex(items + [x], x.produtoId) == |items|
  {
    var a := items + [x];
    assert a[|items|] == x;
    assert forall i :: 0 <= i < |items| ==> a[i] == items[i];
  }

  /** Appending a fresh line and removing it again restores the lines. */
  lemma AppendThenDrop(items: seq<ItemPedido>, produtoId: string, freshId: string)
    requires forall i :: 0 <= i < |items| ==> items[i].produtoId != produtoId
    ensures RemoveProduct(items + [NewItem(freshId, produtoId)], produtoId) == items
  {
    var a := items + [NewItem(freshId, produtoId)];
    AppendedLineIndex(items, NewItem(freshId, produtoId));
    assert OnlyLineFor(a, |items|);
    WithoutUnique(a, |items|);
    assert a[..|items|] == items;
  }

  /** Removing right after adding gives back the lines as they were. */
  lemma AddThenRemove(items: seq<ItemPedido>, produtoId: string, freshId: string)
    requires WellFormed(items)
    ensures RemoveProduct(AddProduct(items, produtoId, freshId), produtoId) == items
  {
    var k := ItemIndex(items, produtoId);
    if k >= 0 {
      IncrementThenRemove(items, k);
    } else {
      AppendThenDrop(items, produtoId, freshId);
    }
  }

  // ---------------------------------------------------------------------------
  // Add-on replacement (`handleExtrasChange`)

  /** Replacing one product's add-ons keeps the invariant, every quantity and
      every other line, and gives that product's line exactly the new add-ons. */
  lemma ReplaceExtrasEffect(items: seq<ItemPedido>, produtoId: string, extras: seq<ItemExtra>, p: string)
    requires WellFormed(items)
    ensures WellFormed(ReplaceExtras(items, produtoId, extras))
    ensures QuantityOf(ReplaceExtras(items, produtoId, extras), p) == QuantityOf(items, p)
    ensures p != produtoId ==> FindItem(ReplaceExtras(items, produtoId, extras), p) == FindItem(items, p)
    ensures FindItem(ReplaceExtras(items, produtoId, extras), produtoId)
         == match FindItem(items, produtoId)
            case None => None
            case Some(item) => Some(item.(extras := extras))
  {
    var r := ReplaceExtras(items, produtoId, extras);
    SameProductsSameIndex(r, items, p);
    SameProductsSameIndex(r, items, produtoId);
  }

  // ---------------------------------------------------------------------------
  // What each handler does to the storefront total

  /** One more unit on a line adds the product's price to that line. */
  lemma CartLineSucc(item: ItemPedido, produtos: seq<Produto>, extras: seq<Extra>)
    ensures CartLine(item.(quantidade := item.quantidade + 1), produtos, extras)
         == CartLine(item, produtos, extras) + ProdutoPrice(produtos, item.produtoId)
  {
    var price := ProdutoPrice(produtos, item.produtoId);
    assert price * (item.quantidade + 1) == price * item.quantidade + price;
  }

  /** Changing one position changes the total by the difference of its lines. */
  lemma {:induction false} CartTotalUpdate(items: seq<ItemPedido>, k: int, x: ItemPedido, produtos: seq<Produto>, extras: seq<Extra>)
    requires 0 <= k < |items|
    ensures CartTotal(items[k := x], produtos, extras)
         == CartTotal(items, produtos, extras) - CartLine(items[k], produtos, extras) + CartLine(x, produtos, extras)
  {
    var n := |items| - 1;
    if k < n {
      assert items[k := x][..n] == items[..n][k := x];
      CartTotalUpdate(items[..n], k, x, produtos, extras);
    } else {
      assert items[k := x][..n] == items[..n];
    }
  }

  /** Under the invariant, the increment touches exactly one position. */
  lemma IncrementAt(items: seq<ItemPedido>, k: int)
    requires 0 <= k < |items|
    requires OnlyLineFor(items, k)
    ensures Increment(items, items[k].produtoId) == items[k := items[k].(quantidade := items[k].quantidade + 1)]
  {
  }

  /** Under the invariant, the decrement touches exactly one position. */
  lemma DecrementAt(items: seq<ItemPedido>, k: int)
    requires 0 <= k < |items|
    requires OnlyLineFor(items, k)
    ensures Decrement(items, items[k].produtoId) == items[k := items[k].(quantidade := items[k].quantidade - 1)]
  {
  }

  /** Bumping an existing line adds its product's price. */
  lemma IncrementTotal(items: seq<ItemPedido>, k: int, produtos: seq<Produto>, extras: seq<Extra>)
    requires 0 <= k < |items|
    requires OnlyLineFor(items, k)
    ensures CartTotal(Increment(items, items[k].produtoId), produtos, extras)
         == CartTotal(items, produtos, extras) + ProdutoPrice(produtos, items[k].produtoId)
  {
    var x := items[k].(quantidade := items[k].quantidade + 1);
    CartLineSucc(items[k], produtos, extras);
    var gain := CartLine(x, produtos, extras) - CartLine(items[k], produtos, extras);
    assert gain == ProdutoPrice(produtos, items[k].produtoId);
    CartTotalUpdate(items, k, x, produtos, extras);
    IncrementAt(items, k);
  }

  /** Lowering a line by one subtracts its product's price. */
  lemma DecrementTotal(items: seq<ItemPedido>, k: int, produtos: seq<Produto>, extras: seq<Extra>)
    requires 0 <= k < |items|
    requires OnlyLineFor(items, k)
    ensures CartTotal(Decrement(items, items[k].produtoId), produtos, extras)
         == CartTotal(items, produtos, extras) - ProdutoPrice(produtos, items[k].produtoId)
  {
    var x := items[k].(quantidade := items[k].quantidade - 1);
    CartLineSucc(x, produtos, extras);
    assert x.(quantidade := x.quantidade + 1) == items[k];
    DecrementAt(items, k);
    CartTotalUpdate(items, k, x, produtos, extras);
  }

  /** Dropping a line subtracts the whole line, add-ons included. */
  lemma WithoutTotal(items: seq<ItemPedido>, k: int, produtos: seq<Produto>, extras: seq<Extra>)
    requires 0 <= k < |items|
    requires OnlyLineFor(items, k)
    ensures CartTotal(Without(items, items[k].produtoId), produtos, extras)
         == CartTotal(items, produtos, extras) - CartLine(items[k], produtos, extras)
  {
    WithoutUnique(items, k);
    assert items == items[..k] + [items[k]] + items[k + 1..];
    CartTotalAppend(items[..k] + [items[k]], items[k + 1..], produtos, extras);
    CartTotalAppend(items[..k], [items[k]], produtos, extras);
    CartTotalAppend(items[..k], items[k + 1..], produtos, extras);
    assert CartTotal([items[k]], produtos, extras) == CartLine(items[k], produtos, extras);
  }

  /** Adding a product raises the storefront total by exactly its price. */
  lemma AddProductTotal(items: seq<ItemPedido>, produtoId: string, freshId: string, produtos: seq<Produto>, extras: seq<Extra>)
    requires UniqueProducts(items)
    ensures CartTotal(AddProduct(items, produtoId, freshId), produtos, extras)
         == CartTotal(items, produtos, extras) + ProdutoPrice(produtos, produtoId)
  {
    var k := ItemIndex(items, produtoId);
    if k >= 0 {
      assert OnlyLineFor(items, k);
      IncrementTotal(items, k, produtos, extras);
    } else {
      var n := NewItem(freshId, produtoId);
      assert (items + [n])[..|items|] == items;
      assert CartLine(n, produtos, extras) == ProdutoPrice(produtos, produtoId);
    }
  }

  /** Removing a product lowers the total by its price, and also by its
      add-ons when the line is dropped; an absent product changes nothing. */
  lemma RemoveProductTotal(items: seq<ItemPedido>, produtoId: string, produtos: seq<Produto>, extras: seq<Extra>)
    requires UniqueProducts(items)
    ensures CartTotal(RemoveProduct(items, produtoId), produtos, extras)
         == CartTotal(items, produtos, extras)
            - match FindItem(items, produtoId)
              case None => 0
              case Some(item) =>
                ProdutoPrice(produtos, produtoId)
                + (if item.quantidade == 1 then ExtrasTotal(item.extras, extras) else 0)
  {
    var k := ItemIndex(items, produtoId);
    if k >= 0 {
      assert OnlyLineFor(items, k);
      if items[k].quantidade == 1 {
        WithoutTotal(items, k, produtos, extras);
      } else {
        DecrementTotal(items, k, produtos, extras);
      }
    }
  }

  /** Replacing one product's add-ons changes the total by the difference of
      the two add-on totals. */
  lemma ReplaceExtrasTotal(items: seq<ItemPedido>, produtoId: string, sel: seq<ItemExtra>, produtos: seq<Produto>, extras: seq<Extra>)
    requires UniqueProducts(items)
    ensures CartTotal(ReplaceExtras(items, produtoId, sel), produtos, extras)
         == CartTotal(items, produtos, extras)
            + match FindItem(items, produtoId)
              case None => 0
              case Some(item) => ExtrasTotal(sel, extras) - ExtrasTotal(item.extras, extras)
  {
    var k := ItemIndex(items, produtoId);
    if k >= 0 {
      var x := items[k].(extras := sel);
      assert OnlyLineFor(items, k);
      assert ReplaceExtras(items, produtoId, sel) == items[k := x];
      CartTotalUpdate(items, k, x, produtos, extras);
    } else {
      assert ReplaceExtras(items, produtoId, sel) == items;
    }
  }

  // ---------------------------------------------------------------------------
  // Any sequence of button presses

  datatype Press = Add(produtoId: string, freshId: string) | Remove(produtoId: string)

  /** The lines after a sequence of add/remove presses, oldest first. */
  function Replay(items: seq<ItemPedido>, presses: seq<Press>): seq<ItemPedido>
  {
    if presses == [] then items
    else
      var before := Replay(items, presses[..|presses| - 1]);
      match presses[|presses| - 1]
      case Add(p, id) => AddProduct(before, p, id)
      case Remove(p) => RemoveProduct(before, p)
  }

  /** The quantity a counter shows after the same presses: +1 per add and
      -1 per remove, never below 0. */
  function Counted(start: int, presses: seq<Press>, produtoId: string): int
  {
    if presses == [] then start
    else
      var before := Counted(start, presses[..|presses| - 1], produtoId);
      match presses[|presses| - 1]
      case Add(p, _) => if p == produtoId then before + 1 else before
      case Remove(p) => if p == produtoId && before >= 1 then before - 1 else before
  }

  /** After any sequence of presses the lines are well formed, each product's
      quantity is its clamped count, and it has a line exactly when that
      count is positive. */
  lemma {:induction false} ReplayQuantity(items: seq<ItemPedido>, presses: seq<Press>, produtoId: string)
    requires WellFormed(items)
    ensures WellFormed(Replay(items, presses))
    ensures QuantityOf(Replay(items, presses), produtoId) == Counted(QuantityOf(items, produtoId), presses, produtoId)
    ensures FindItem(Replay(items, presses), produtoId).Some?
        <==> Counted(QuantityOf(items, produtoId), presses, produtoId) >= 1
  {
    if presses != [] {
      var prefix := presses[..|presses| - 1];
      ReplayQuantity(items, prefix, produtoId);
      var before := Replay(items, prefix);
      match presses[|presses| - 1]
      case Add(p, id) =>
        AddProductWellFormed(before, p, id);
        AddProductQuantity(before, p, id, produtoId);
      case Remove(p) =>
        RemoveProductWellFormed(before, p);
        RemoveProductQuantity(before, p, produtoId);
    }
    PresentIffPositive(Replay(items, presses), produtoId);
  }
}

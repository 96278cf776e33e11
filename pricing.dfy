/** Catalogue lookups and the pricing of order lines.

    A lookup that finds nothing is not an error: a product or add-on that has
    left the catalogue contributes 0 to every total (`produto?.preco || 0`).
    Every sum recurses on the last element, as a left `reduce` accumulates. */
module Pricing {
  import opened Types

  /** `produtos.find(p => p.id === id)`: the first product with that id. */
  function FindProduto(produtos: seq<Produto>, id: string): (r: Option<Produto>)
    ensures r.None? <==> forall i :: 0 <= i < |produtos| ==> produtos[i].id != id
    ensures r.Some? ==> exists k :: 0 <= k < |produtos| && produtos[k] == r.value && r.value.id == id
                                   && forall j :: 0 <= j < k ==> produtos[j].id != id
  {
    if produtos == [] then None
    else
      var before := FindProduto(produtos[..|produtos| - 1], id);
      if before.Some? then before
      else if produtos[|produtos| - 1].id == id then Some(produtos[|produtos| - 1])
      else None
  }

  /** `extras.find(e => e.id === id)`: the first add-on with that id. */
  function FindExtra(extras: seq<Extra>, id: string): (r: Option<Extra>)
    ensures r.None? <==> forall i :: 0 <= i < |extras| ==> extras[i].id != id
    ensures r.Some? ==> exists k :: 0 <= k < |extras| && extras[k] == r.value && r.value.id == id
                                   && forall j :: 0 <= j < k ==> extras[j].id != id
  {
    if extras == [] then None
    else
      var before := FindExtra(extras[..|extras| - 1], id);
      if before.Some? then before
      else if extras[|extras| - 1].id == id then Some(extras[|extras| - 1])
      else None
  }

  /** `produto?.preco || 0` */
  function ProdutoPrice(produtos: seq<Produto>, id: string): nat
  {
    match FindProduto(produtos, id)
    case None => 0
    case Some(p) => p.preco
  }

  /** `extraInfo?.preco || 0` */
  function ExtraPrice(extras: seq<Extra>, id: string): nat
  {
    match FindExtra(extras, id)
    case None => 0
    case Some(e) => e.preco
  }

  predicate NonNegativeExtras(sel: seq<ItemExtra>)
  {
    forall i :: 0 <= i < |sel| ==> sel[i].quantidade >= 0
  }

  /** Σ (add-on price or 0) · add-on quantity over one line's selections. */
  function ExtrasTotal(sel: seq<ItemExtra>, extras: seq<Extra>): (r: int)
    ensures NonNegativeExtras(sel) ==> r >= 0
  {
    if sel == [] then 0
    else
      var e := sel[|sel| - 1];
      ExtrasTotal(sel[..|sel| - 1], extras) + ExtraPrice(extras, e.extraId) * e.quantidade
  }

  /** What one line adds to the storefront cart total. */
  function CartLine(item: ItemPedido, produtos: seq<Produto>, extras: seq<Extra>): int
  {
    ProdutoPrice(produtos, item.produtoId) * item.quantidade + ExtrasTotal(item.extras, extras)
  }

  predicate NonNegativeLines(items: seq<ItemPedido>)
  {
    forall i :: 0 <= i < |items| ==> items[i].quantidade >= 0 && NonNegativeExtras(items[i].extras)
  }

  /** The storefront total: products and their add-ons. */
  function CartTotal(items: seq<ItemPedido>, produtos: seq<Produto>, extras: seq<Extra>): (r: int)
    ensures NonNegativeLines(items) ==> r >= 0
  {
    if items == [] then 0
    else
      var last := items[|items| - 1];
      assert last.quantidade >= 0 ==> ProdutoPrice(produtos, last.produtoId) * last.quantidade >= 0;
      CartTotal(items[..|items| - 1], produtos, extras) + CartLine(last, produtos, extras)
  }

  /** The back-office total: products only, add-ons are not priced. */
  function PlainTotal(items: seq<ItemPedido>, produtos: seq<Produto>): (r: int)
    ensures (forall i :: 0 <= i < |items| ==> items[i].quantidade >= 0) ==> r >= 0
  {
    if items == [] then 0
    else
      var last := items[|items| - 1];
      assert last.quantidade >= 0 ==> ProdutoPrice(produtos, last.produtoId) * last.quantidade >= 0;
      PlainTotal(items[..|items| - 1], produtos) + ProdutoPrice(produtos, last.produtoId) * last.quantidade
  }

  predicate NoExtras(items: seq<ItemPedido>)
  {
    forall i :: 0 <= i < |items| ==> items[i].extras == []
  }

  /** The cart total distributes over concatenation of line lists. */
  lemma {:induction false} CartTotalAppend(a: seq<ItemPedido>, b: seq<ItemPedido>, produtos: seq<Produto>, extras: seq<Extra>)
    ensures CartTotal(a + b, produtos, extras) == CartTotal(a, produtos, extras) + CartTotal(b, produtos, extras)
  {
    if b != [] {
      assert (a + b)[..|a + b| - 1] == a + b[..|b| - 1];
      CartTotalAppend(a, b[..|b| - 1], produtos, extras);
    } else {
      assert a + b == a;
    }
  }

  /** The add-on total distributes over concatenation of selections. */
  lemma {:induction false} ExtrasTotalAppend(a: seq<ItemExtra>, b: seq<ItemExtra>, extras: seq<Extra>)
    ensures ExtrasTotal(a + b, extras) == ExtrasTotal(a, extras) + ExtrasTotal(b, extras)
  {
    if b != [] {
      assert (a + b)[..|a + b| - 1] == a + b[..|b| - 1];
      ExtrasTotalAppend(a, b[..|b| - 1], extras);
    } else {
      assert a + b == a;
    }
  }

  /** Without add-ons the two totals agree. */
  lemma {:induction false} PlainTotalWithoutExtras(items: seq<ItemPedido>, produtos: seq<Produto>, extras: seq<Extra>)
    requires NoExtras(items)
    ensures PlainTotal(items, produtos) == CartTotal(items, produtos, extras)
  {
    if items != [] {
      PlainTotalWithoutExtras(items[..|items| - 1], produtos, extras);
    }
  }

  /** Add-ons only ever add to a total: the back-office total never exceeds
      the storefront total of the same lines. */
  lemma {:induction false} PlainTotalAtMostCartTotal(items: seq<ItemPedido>, produtos: seq<Produto>, extras: seq<Extra>)
    requires forall i :: 0 <= i < |items| ==> NonNegativeExtras(items[i].extras)
    ensures PlainTotal(items, produtos) <= CartTotal(items, produtos, extras)
  {
    if items != [] {
      PlainTotalAtMostCartTotal(items[..|items| - 1], produtos, extras);
    }
  }

  /** Selections of add-ons missing from the catalogue are free. */
  lemma {:induction false} UnknownExtrasFree(sel: seq<ItemExtra>, extras: seq<Extra>)
    requires forall i :: 0 <= i < |sel| ==> FindExtra(extras, sel[i].extraId).None?
    ensures ExtrasTotal(sel, extras) == 0
  {
    if sel != [] {
      UnknownExtrasFree(sel[..|sel| - 1], extras);
    }
  }

  /** A line whose product and add-ons are all missing from the catalogue
      adds nothing to the total. */
  lemma UnknownLineFree(items: seq<ItemPedido>, item: ItemPedido, produtos: seq<Produto>, extras: seq<Extra>)
    requires FindProduto(produtos, item.produtoId).None?
    requires forall i :: 0 <= i < |item.extras| ==> FindExtra(extras, item.extras[i].extraId).None?
    ensures CartTotal(items + [item], produtos, extras) == CartTotal(items, produtos, extras)
  {
    UnknownExtrasFree(item.extras, extras);
    assert (items + [item])[..|items|] == items;
  }

  // ---------------------------------------------------------------------------
  // Lines of a committed order as the tracking page and the order modal show them

  /** A shown line: the order line, the product it still refers to, and the
      amount printed beside it. */
  datatype ShownLine = ShownLine(item: ItemPedido, produto: Produto, amount: int)

  /** `product.preco * item.quantidade + itemExtrasTotal` for a line whose
      product was found. */
  function LineAmount(item: ItemPedido, produto: Produto, extras: seq<Extra>): int
  {
    produto.preco * item.quantidade + ExtrasTotal(item.extras, extras)
  }

  /** `items.map(...)` where a line whose product is gone renders nothing. */
  function ShownLines(items: seq<ItemPedido>, produtos: seq<Produto>, extras: seq<Extra>): (r: seq<ShownLine>)
    ensures |r| <= |items|
    ensures forall i :: 0 <= i < |r| ==>
      FindProduto(produtos, r[i].item.produtoId) == Some(r[i].produto)
      && r[i].amount == CartLine(r[i].item, produtos, extras)
  {
    if items == [] then []
    else
      var rest := ShownLines(items[..|items| - 1], produtos, extras);
      var item := items[|items| - 1];
      match FindProduto(produtos, item.produtoId)
      case None => rest
      case Some(produto) => rest + [ShownLine(item, produto, LineAmount(item, produto, extras))]
  }

  function SumAmounts(lines: seq<ShownLine>): int
  {
    if lines == [] then 0 else SumAmounts(lines[..|lines| - 1]) + lines[|lines| - 1].amount
  }

  predicate AllProductsExist(items: seq<ItemPedido>, produtos: seq<Produto>)
  {
    forall i :: 0 <= i < |items| ==> FindProduto(produtos, items[i].produtoId).Some?
  }

  /** Every shown line is a line of the order. */
  lemma {:induction false} ShownLineFromOrder(items: seq<ItemPedido>, produtos: seq<Produto>, extras: seq<Extra>, i: int)
    requires 0 <= i < |ShownLines(items, produtos, extras)|
    ensures ShownLines(items, produtos, extras)[i].item in items
  {
    var pre, last := items[..|items| - 1], items[|items| - 1];
    var rest := ShownLines(pre, produtos, extras);
    assert items == pre + [last];
    if i < |rest| {
      assert ShownLines(items, produtos, extras)[i] == rest[i];
      ShownLineFromOrder(pre, produtos, extras, i);
    }
  }

  /** Every line whose product is still in the catalogue is shown. */
  lemma {:induction false} OrderLineShown(items: seq<ItemPedido>, produtos: seq<Produto>, extras: seq<Extra>, k: int)
    requires 0 <= k < |items| && FindProduto(produtos, items[k].produtoId).Some?
    ensures exists i :: 0 <= i < |ShownLines(items, produtos, extras)| && ShownLines(items, produtos, extras)[i].item == items[k]
  {
    var pre, last := items[..|items| - 1], items[|items| - 1];
    var r, rest := ShownLines(items, produtos, extras), ShownLines(pre, produtos, extras);
    if k < |items| - 1 {
      OrderLineShown(pre, produtos, extras, k);
      var i :| 0 <= i < |rest| && rest[i].item == pre[k];
      assert r[i] == rest[i];
    } else {
      assert r[|rest|].item == items[k];
    }
  }

  /** While every product is still in the catalogue, every line is shown and
      the shown amounts add up to the cart total of the same lines. */
  lemma {:induction false} ShownLinesSum(items: seq<ItemPedido>, produtos: seq<Produto>, extras: seq<Extra>)
    requires AllProductsExist(items, produtos)
    ensures |ShownLines(items, produtos, extras)| == |items|
    ensures SumAmounts(ShownLines(items, produtos, extras)) == CartTotal(items, produtos, extras)
  {
    if items != [] {
      var pre := items[..|items| - 1];
      ShownLinesSum(pre, produtos, extras);
      var r := ShownLines(items, produtos, extras);
      assert r[..|r| - 1] == ShownLines(pre, produtos, extras);
    }
  }
}

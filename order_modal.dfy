/** The back-office order modal: the short order number, each line's product
    amount and add-on amount, and the stored total. */
module OrderModal {
  import opened Types
  import opened Pricing

  /** `pedido.id.slice(0, 8)` */
  function ShortId(id: string): (r: string)
    ensures |r| == if |id| < 8 then |id| else 8
    ensures r <= id
  {
    if |id| < 8 then id else id[..8]
  }

  /** `itemTotal = produto.preco * item.quantidade` */
  function ItemTotal(item: ItemPedido, produto: Produto): int
  {
    produto.preco * item.quantidade
  }

  /** One rendered line: the product amount and the add-on amount. */
  datatype ModalLine = ModalLine(item: ItemPedido, produto: Produto, itemTotal: int, extrasTotal: int)

  /** The lines of the modal: lines whose product is gone render nothing. */
  function ModalLines(pedido: Pedido, produtos: seq<Produto>, extras: seq<Extra>): (r: seq<ModalLine>)
    ensures |r| == |ShownLines(pedido.items, produtos, extras)|
    ensures forall i :: 0 <= i < |r| ==>
      r[i].itemTotal + r[i].extrasTotal == ShownLines(pedido.items, produtos, extras)[i].amount
      && r[i].item == ShownLines(pedido.items, produtos, extras)[i].item
  {
    var shown := ShownLines(pedido.items, produtos, extras);
    seq(|shown|, i requires 0 <= i < |shown| =>
      ModalLine(shown[i].item, shown[i].produto, ItemTotal(shown[i].item, shown[i].produto),
                ExtrasTotal(shown[i].item.extras, extras)))
  }

  /** What the modal shows. */
  datatype Modal = Modal(title: string, lines: seq<ModalLine>, total: int)

  function OrderModalView(pedido: Pedido, produtos: seq<Produto>, extras: seq<Extra>): (r: Modal)
    ensures r.total == pedido.total
    ensures r.title <= pedido.id && |r.title| <= 8
    ensures |r.lines| <= |pedido.items|
  {
    Modal(ShortId(pedido.id), ModalLines(pedido, produtos, extras), pedido.total)
  }

  // ---------------------------------------------------------------------------

  /** A line's printed amount is what that line added to the cart total, as
      long as the product is in the catalogue. */
  lemma ModalLineIsCartLine(pedido: Pedido, produtos: seq<Produto>, extras: seq<Extra>, i: int)
    requires 0 <= i < |ModalLines(pedido, produtos, extras)|
    ensures var line := ModalLines(pedido, produtos, extras)[i];
      line.itemTotal + line.extrasTotal == CartLine(line.item, produtos, extras)
      && line.item in pedido.items
  {
    ShownLineFromOrder(pedido.items, produtos, extras, i);
  }

  /** An order line without add-ons has a zero add-on amount. */
  lemma NoExtrasZero(pedido: Pedido, produtos: seq<Produto>, extras: seq<Extra>, i: int)
    requires 0 <= i < |ModalLines(pedido, produtos, extras)|
    requires ModalLines(pedido, produtos, extras)[i].item.extras == []
    ensures ModalLines(pedido, produtos, extras)[i].extrasTotal == 0
    ensures ModalLines(pedido, produtos, extras)[i].itemTotal == ShownLines(pedido.items, produtos, extras)[i].amount
  {
  }

  /** Ids of eight characters or more are cut to their first eight. */
  lemma ShortIdPrefix(id: string)
    ensures |id| >= 8 ==> ShortId(id) == id[..8]
    ensures |id| <= 8 ==> ShortId(id) == id
  {
  }
}

/** The back-office order form: staff build a draft of lines (no add-ons),
    choose table or delivery and a client, and submit it to the store. */
module NovoPedido {
  import opened Types
  import opened Pricing
  import opened Items
  import AppStore

  /** `handleSubmit`'s guard and the order it builds: nothing without lines
      or without a chosen client; otherwise a pending order priced by
      products alone, with a table number exactly for table orders. */
  function Submit(items: seq<ItemPedido>, clienteId: string, tipo: Tipo, mesa: int,
                  produtos: seq<Produto>, orderId: string, now: Moment): (r: Option<Pedido>)
    ensures r.None? <==> |items| == 0 || clienteId == ""
    ensures r.Some? ==>
      r.value.id == orderId && r.value.createdAt == now
      && r.value.status == Pendente && r.value.items == items && r.value.clienteId == clienteId
      && r.value.tipo == tipo && (r.value.mesa.Some? <==> tipo == Mesa)
      && (r.value.mesa.Some? ==> r.value.mesa.value == mesa)
      && r.value.total == PlainTotal(items, produtos)
  {
    if |items| == 0 || clienteId == "" then None
    else Some(Pedido(orderId, clienteId, items, PlainTotal(items, produtos), Pendente, tipo,
                     if tipo == Mesa then Some(mesa) else None, now))
  }

  class Draft {
    var items: seq<ItemPedido>
    var tipo: Tipo
    var mesa: int
    var clienteId: string

    /** A fresh form: no lines, table 1, no client chosen. */
    constructor()
      ensures items == [] && tipo == Mesa && mesa == 1 && clienteId == ""
      ensures Valid()
    {
      items := [];
      tipo := Mesa;
      mesa := 1;
      clienteId := "";
    }

    /** One line per product, each at quantity 1 or more, none with add-ons. */
    predicate Valid()
      reads this
    {
      WellFormed(items) && NoExtras(items)
    }

    /** `handleAddItem` */
    method AddItem(produtoId: string, freshId: string)
      requires Valid()
      modifies this
      ensures Valid()
      ensures items == AddProduct(old(items), produtoId, freshId)
      ensures tipo == old(tipo) && mesa == old(mesa) && clienteId == old(clienteId)
    {
      AddProductWellFormed(items, produtoId, freshId);
      AddKeepsNoExtras(items, produtoId, freshId);
      items := AddProduct(items, produtoId, freshId);
    }

    /** `handleRemoveItem` */
    method RemoveItem(produtoId: string)
      requires Valid()
      modifies this
      ensures Valid()
      ensures items == RemoveProduct(old(items), produtoId)
      ensures tipo == old(tipo) && mesa == old(mesa) && clienteId == old(clienteId)
    {
      RemoveProductWellFormed(items, produtoId);
      RemoveKeepsNoExtras(items, produtoId);
      items := RemoveProduct(items, produtoId);
    }

    /** The table / delivery toggle. */
    method SetTipo(t: Tipo)
      modifies this
      ensures tipo == t && items == old(items) && mesa == old(mesa) && clienteId == old(clienteId)
    {
      tipo := t;
    }

    /** The table-number field. */
    method SetMesa(n: int)
      modifies this
      ensures mesa == n && items == old(items) && tipo == old(tipo) && clienteId == old(clienteId)
    {
      mesa := n;
    }

    /** The client drop-down. */
    method SetClienteId(id: string)
      modifies this
      ensures clienteId == id && items == old(items) && tipo == old(tipo) && mesa == old(mesa)
    {
      clienteId := id;
    }

    /** `handleSubmit`: add the order to the store, or do nothing. */
    method HandleSubmit(store: AppStore.Store, orderId: string, now: Moment)
      modifies store
      ensures store.pedidos == old(store.pedidos)
        + match Submit(items, clienteId, tipo, mesa, old(store.produtos), orderId, now)
          case None => []
          case Some(pedido) => [pedido]
      ensures store.clientes == old(store.clientes) && store.produtos == old(store.produtos)
    {
      var pedido := Submit(items, clienteId, tipo, mesa, store.produtos, orderId, now);
      if pedido.Some? {
        store.AddPedido(pedido.value);
      }
    }
  }

  // ---------------------------------------------------------------------------

  /** Adding never gives a line add-ons. */
  lemma AddKeepsNoExtras(items: seq<ItemPedido>, produtoId: string, freshId: string)
    requires NoExtras(items)
    ensures NoExtras(AddProduct(items, produtoId, freshId))
  {
  }

  /** Removing never gives a line add-ons. */
  lemma RemoveKeepsNoExtras(items: seq<ItemPedido>, produtoId: string)
    requires WellFormed(items)
    requires NoExtras(items)
    ensures NoExtras(RemoveProduct(items, produtoId))
  {
    var existing := FindItem(items, produtoId);
    if existing.Some? && existing.value.quantidade == 1 {
      var k := ItemIndex(items, produtoId);
      assert OnlyLineFor(items, k);
      WithoutUnique(items, k);
      var r := items[..k] + items[k + 1..];
      assert forall i :: 0 <= i < |r| ==> r[i] == items[if i < k then i else i + 1];
    }
  }

  /** Adding a product raises the draft total by exactly its price. */
  lemma DraftAddTotal(items: seq<ItemPedido>, produtoId: string, freshId: string, produtos: seq<Produto>)
    requires WellFormed(items) && NoExtras(items)
    ensures PlainTotal(AddProduct(items, produtoId, freshId), produtos)
         == PlainTotal(items, produtos) + ProdutoPrice(produtos, produtoId)
  {
    AddKeepsNoExtras(items, produtoId, freshId);
    PlainTotalWithoutExtras(items, produtos, []);
    PlainTotalWithoutExtras(AddProduct(items, produtoId, freshId), produtos, []);
    AddProductTotal(items, produtoId, freshId, produtos, []);
  }

  /** Removing a product lowers the draft total by its price, and an absent
      product changes nothing. */
  lemma DraftRemoveTotal(items: seq<ItemPedido>, produtoId: string, produtos: seq<Produto>)
    requires WellFormed(items) && NoExtras(items)
    ensures PlainTotal(RemoveProduct(items, produtoId), produtos)
         == PlainTotal(items, produtos) - (if FindItem(items, produtoId).Some? then ProdutoPrice(produtos, produtoId) else 0)
  {
    RemoveKeepsNoExtras(items, produtoId);
    PlainTotalWithoutExtras(items, produtos, []);
    PlainTotalWithoutExtras(RemoveProduct(items, produtoId), produtos, []);
    RemoveProductTotal(items, produtoId, produtos, []);
    var k := ItemIndex(items, produtoId);
    if k >= 0 {
      assert items[k] in items;
      assert items[k].extras == [];
    }
  }

  /** A submitted draft is priced as the storefront would price the same
      lines, and is never negative. */
  lemma SubmittedTotal(items: seq<ItemPedido>, clienteId: string, tipo: Tipo, mesa: int,
                       produtos: seq<Produto>, extras: seq<Extra>, orderId: string, now: Moment)
    requires WellFormed(items) && NoExtras(items)
    requires Submit(items, clienteId, tipo, mesa, produtos, orderId, now).Some?
    ensures Submit(items, clienteId, tipo, mesa, produtos, orderId, now).value.total == CartTotal(items, produtos, extras)
    ensures Submit(items, clienteId, tipo, mesa, produtos, orderId, now).value.total >= 0
  {
    PlainTotalWithoutExtras(items, produtos, extras);
  }
}

/** The application store: three in-memory collections and the mutators that
    replace them. Every mutator computes the new collection from the old one
    by append, map or filter; the other two collections are left as they are. */
module AppStore {
  import opened Types

  // ---------------------------------------------------------------------------
  // Keyed collection updates, shared by clients, products and orders

  /** `xs.map(c => c.id === x.id ? x : c)`: every element with the new
      element's id is replaced by it. */
  function Replace<T>(xs: seq<T>, key: T -> string, x: T): (r: seq<T>)
    ensures |r| == |xs|
    ensures forall i :: 0 <= i < |xs| ==> r[i] == if key(xs[i]) == key(x) then x else xs[i]
  {
    if xs == [] then []
    else
      var last := xs[|xs| - 1];
      Replace(xs[..|xs| - 1], key, x) + [if key(last) == key(x) then x else last]
  }

  /** `xs.filter(c => c.id !== id)` */
  function Remove<T>(xs: seq<T>, key: T -> string, id: string): (r: seq<T>)
    ensures |r| <= |xs|
  {
    if xs == [] then []
    else
      var rest := Remove(xs[..|xs| - 1], key, id);
      if key(xs[|xs| - 1]) == id then rest else rest + [xs[|xs| - 1]]
  }

  /** `pedidos.map(p => p.id === id ? {...p, status} : p)` */
  function SetStatus(pedidos: seq<Pedido>, id: string, status: Status): (r: seq<Pedido>)
    ensures |r| == |pedidos|
    ensures forall i :: 0 <= i < |pedidos| ==>
      r[i] == if pedidos[i].id == id then pedidos[i].(status := status) else pedidos[i]
  {
    if pedidos == [] then []
    else
      var last := pedidos[|pedidos| - 1];
      SetStatus(pedidos[..|pedidos| - 1], id, status) + [if last.id == id then last.(status := status) else last]
  }

  function ClienteKey(c: Cliente): string { c.id }
  function ProdutoKey(p: Produto): string { p.id }

  /** An update for an id no element has leaves the collection as it was. */
  lemma ReplaceUnknown<T>(xs: seq<T>, key: T -> string, x: T)
    requires forall i :: 0 <= i < |xs| ==> key(xs[i]) != key(x)
    ensures Replace(xs, key, x) == xs
  {
  }

  /** Updating twice with the same element is updating once. */
  lemma ReplaceIdempotent<T>(xs: seq<T>, key: T -> string, x: T)
    ensures Replace(Replace(xs, key, x), key, x) == Replace(xs, key, x)
  {
  }

  /** An update keeps every element's id, so ids stay where they were. */
  lemma ReplaceKeepsKeys<T>(xs: seq<T>, key: T -> string, x: T)
    ensures forall i :: 0 <= i < |xs| ==> key(Replace(xs, key, x)[i]) == key(xs[i])
  {
  }

  /** The filter keeps exactly the elements with another id. */
  lemma {:induction false} RemoveMembers<T>(xs: seq<T>, key: T -> string, id: string, x: T)
    ensures x in Remove(xs, key, id) <==> x in xs && key(x) != id
  {
    if xs != [] {
      var pre, last := xs[..|xs| - 1], xs[|xs| - 1];
      assert xs == pre + [last];
      RemoveMembers(pre, key, id, x);
    }
  }

  /** The filter distributes over concatenation, so the kept elements stay
      in their original order. */
  lemma {:induction false} RemoveAppend<T>(a: seq<T>, b: seq<T>, key: T -> string, id: string)
    ensures Remove(a + b, key, id) == Remove(a, key, id) + Remove(b, key, id)
  {
    if b != [] {
      var pre, last := b[..|b| - 1], b[|b| - 1];
      assert (a + b)[..|a + b| - 1] == a + pre;
      assert (a + b)[|a + b| - 1] == last;
      RemoveAppend(a, pre, key, id);
    } else {
      assert a + b == a;
    }
  }

  /** Removing an id no element has is a no-op. */
  lemma {:induction false} RemoveUnknown<T>(xs: seq<T>, key: T -> string, id: string)
    requires forall i :: 0 <= i < |xs| ==> key(xs[i]) != id
    ensures Remove(xs, key, id) == xs
  {
    if xs != [] {
      var pre := xs[..|xs| - 1];
      RemoveUnknown(pre, key, id);
      assert pre + [xs[|xs| - 1]] == xs;
    }
  }

  /** Removing the same id twice is removing it once. */
  lemma RemoveIdempotent<T>(xs: seq<T>, key: T -> string, id: string)
    ensures Remove(Remove(xs, key, id), key, id) == Remove(xs, key, id)
  {
    var r := Remove(xs, key, id);
    forall i | 0 <= i < |r|
      ensures key(r[i]) != id
    {
      RemoveMembers(xs, key, id, r[i]);
    }
    RemoveUnknown(r, key, id);
  }

  /** Any status may be set from any status: there is no transition guard,
      and only `status` changes on the matching orders. */
  lemma SetStatusAnyTransition(pedidos: seq<Pedido>, id: string, status: Status, k: int)
    requires 0 <= k < |pedidos| && pedidos[k].id == id
    ensures SetStatus(pedidos, id, status)[k].status == status
    ensures SetStatus(pedidos, id, status)[k].(status := pedidos[k].status) == pedidos[k]
  {
  }

  /** Setting the status for an id no order has changes nothing. */
  lemma SetStatusUnknown(pedidos: seq<Pedido>, id: string, status: Status)
    requires forall i :: 0 <= i < |pedidos| ==> pedidos[i].id != id
    ensures SetStatus(pedidos, id, status) == pedidos
  {
  }

  // ---------------------------------------------------------------------------
  // The store

  class Store {
    var clientes: seq<Cliente>
    var produtos: seq<Produto>
    var pedidos: seq<Pedido>

    /** The initial state: no clients, no orders, the seed catalogue. */
    constructor(seed: seq<Produto>)
      ensures clientes == [] && pedidos == [] && produtos == seed
    {
      clientes := [];
      produtos := seed;
      pedidos := [];
    }

    method AddCliente(cliente: Cliente)
      modifies this
      ensures clientes == old(clientes) + [cliente]
      ensures produtos == old(produtos) && pedidos == old(pedidos)
    {
      clientes := clientes + [cliente];
    }

    method UpdateCliente(cliente: Cliente)
      modifies this
      ensures clientes == Replace(old(clientes), ClienteKey, cliente)
      ensures produtos == old(produtos) && pedidos == old(pedidos)
    {
      clientes := Replace(clientes, ClienteKey, cliente);
    }

    method RemoveCliente(id: string)
      modifies this
      ensures clientes == Remove(old(clientes), ClienteKey, id)
      ensures produtos == old(produtos) && pedidos == old(pedidos)
    {
      clientes := Remove(clientes, ClienteKey, id);
    }

    method AddProduto(produto: Produto)
      modifies this
      ensures produtos == old(produtos) + [produto]
      ensures clientes == old(clientes) && pedidos == old(pedidos)
    {
      produtos := produtos + [produto];
    }

    method UpdateProduto(produto: Produto)
      modifies this
      ensures produtos == Replace(old(produtos), ProdutoKey, produto)
      ensures clientes == old(clientes) && pedidos == old(pedidos)
    {
      produtos := Replace(produtos, ProdutoKey, produto);
    }

    method RemoveProduto(id: string)
      modifies this
      ensures produtos == Remove(old(produtos), ProdutoKey, id)
      ensures clientes == old(clientes) && pedidos == old(pedidos)
    {
      produtos := Remove(produtos, ProdutoKey, id);
    }

    method AddPedido(pedido: Pedido)
      modifies this
      ensures pedidos == old(pedidos) + [pedido]
      ensures clientes == old(clientes) && produtos == old(produtos)
    {
      pedidos := pedidos + [pedido];
    }

    method UpdatePedidoStatus(id: string, status: Status)
      modifies this
      ensures pedidos == SetStatus(old(pedidos), id, status)
      ensures clientes == old(clientes) && produtos == old(produtos)
    {
      pedidos := SetStatus(pedidos, id, status);
    }
  }
}

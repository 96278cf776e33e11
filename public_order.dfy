/** The public storefront: the URL slug of the business, the product search,
    the category list, and the customer's cart with its add-on panel and the
    order submission. */
module PublicOrder {
  import opened Types
  import opened Pricing
  import opened Items
  import ExtrasSelector
  import AppStore
  import OrderTracking

  // ---------------------------------------------------------------------------
  // Slug: `nome.toLowerCase().replace(/\s+/g, '-')`

  /** The characters the regular-expression class `\s` matches. */
  predicate IsSpace(c: char)
  {
    c == ' ' || c == '\t' || c == '\n' || c == '\r' || c == '\U{000B}' || c == '\U{000C}'
    || c == '\U{00A0}' || c == '\U{1680}' || ('\U{2000}' <= c <= '\U{200A}')
    || c == '\U{2028}' || c == '\U{2029}' || c == '\U{202F}' || c == '\U{205F}'
    || c == '\U{3000}' || c == '\U{FEFF}'
  }

  /** Upper-case letters of the Basic Latin and Latin-1 blocks. */
  predicate IsUpper(c: char)
  {
    ('A' <= c <= 'Z') || ('\U{00C0}' <= c <= '\U{00DE}' && c != '\U{00D7}')
  }

  function Lower(c: char): (r: char)
    ensures !IsUpper(r)
    ensures IsSpace(r) <==> IsSpace(c)
    ensures !IsUpper(c) ==> r == c
    ensures IsUpper(c) ==> r as int == c as int + 32
  {
    if IsUpper(c) then (c as int + 32) as char else c
  }

  /** `toLowerCase()`, character by character. */
  function LowerStr(s: string): (r: string)
    ensures |r| == |s|
    ensures forall i :: 0 <= i < |s| ==> r[i] == Lower(s[i])
  {
    if s == [] then [] else LowerStr(s[..|s| - 1]) + [Lower(s[|s| - 1])]
  }

  /** `replace(/\s+/g, '-')`: every maximal run of whitespace becomes one dash. */
  function Dashes(s: string): (r: string)
    ensures |r| <= |s|
  {
    if s == [] then []
    else
      var pre, c := s[..|s| - 1], s[|s| - 1];
      if !IsSpace(c) then Dashes(pre) + [c]
      else if pre != [] && IsSpace(pre[|pre| - 1]) then Dashes(pre)
      else Dashes(pre) + ['-']
  }

  function Slug(nome: string): string
  {
    Dashes(LowerStr(nome))
  }

  /** The page sends the visitor to the not-found page when the slug in the
      URL is not the business's slug. */
  predicate RedirectsToNotFound(slug: string, lanchonete: Option<Lanchonete>)
  {
    lanchonete.Some? && slug != Slug(lanchonete.value.nome)
  }

  /** Every character of the result is a dash or a non-space input character. */
  lemma {:induction false} DashesChars(s: string)
    ensures forall i :: 0 <= i < |Dashes(s)| ==> Dashes(s)[i] == '-' || (Dashes(s)[i] in s && !IsSpace(Dashes(s)[i]))
  {
    if s != [] {
      var pre := s[..|s| - 1];
      DashesChars(pre);
      assert forall x :: x in pre ==> x in s;
    }
  }

  /** A string without whitespace is left alone. */
  lemma {:induction false} DashesNoSpace(s: string)
    requires forall i :: 0 <= i < |s| ==> !IsSpace(s[i])
    ensures Dashes(s) == s
  {
    if s != [] {
      DashesNoSpace(s[..|s| - 1]);
      assert s[..|s| - 1] + [s[|s| - 1]] == s;
    }
  }

  /** A non-empty run of whitespace becomes a single dash. */
  lemma {:induction false} DashesRun(w: string)
    requires w != []
    requires forall i :: 0 <= i < |w| ==> IsSpace(w[i])
    ensures Dashes(w) == "-"
  {
    if |w| > 1 {
      DashesRun(w[..|w| - 1]);
    }
  }

  /** Replacing runs distributes over a concatenation that does not split a run. */
  lemma {:induction false} DashesAppend(a: string, b: string)
    requires !(a != [] && b != [] && IsSpace(a[|a| - 1]) && IsSpace(b[0]))
    ensures Dashes(a + b) == Dashes(a) + Dashes(b)
  {
    if b == [] {
      assert a + b == a;
    } else {
      var ab, pre, c := a + b, b[..|b| - 1], b[|b| - 1];
      assert ab[..|ab| - 1] == a + pre;
      assert ab[|ab| - 1] == c;
      DashesAppend(a, pre);
      var join := a + pre != [] && IsSpace((a + pre)[|a + pre| - 1]);
      var inRun := pre != [] && IsSpace(pre[|pre| - 1]);
      assert IsSpace(c) ==> join == inRun by {
        if pre == [] {
          assert a + pre == a;
          assert c == b[0];
        } else {
          assert (a + pre)[|a + pre| - 1] == pre[|pre| - 1];
        }
      }
    }
  }

  /** The slug has no whitespace and no upper-case letter. */
  lemma SlugClean(nome: string)
    ensures forall i :: 0 <= i < |Slug(nome)| ==> !IsSpace(Slug(nome)[i]) && !IsUpper(Slug(nome)[i])
    ensures |Slug(nome)| <= |nome|
  {
    var low := LowerStr(nome);
    DashesChars(low);
    forall x | x in low
      ensures !IsUpper(x)
    {
      var i :| 0 <= i < |low| && low[i] == x;
    }
  }

  /** Lower-casing is the identity on a string without upper-case letters. */
  lemma LowerStrClean(s: string)
    requires forall i :: 0 <= i < |s| ==> !IsUpper(s[i])
    ensures LowerStr(s) == s
  {
  }

  /** A slug is its own slug. */
  lemma SlugIdempotent(nome: string)
    ensures Slug(Slug(nome)) == Slug(nome)
  {
    var s := Slug(nome);
    SlugClean(nome);
    LowerStrClean(s);
    DashesNoSpace(s);
  }

  /** Lower-casing distributes over concatenation. */
  lemma LowerStrAppend(a: string, b: string)
    ensures LowerStr(a + b) == LowerStr(a) + LowerStr(b)
  {
  }

  /** Words separated by any run of whitespace are joined by exactly one dash. */
  lemma SlugJoin(a: string, w: string, b: string)
    requires a != [] && !IsSpace(a[|a| - 1])
    requires b != [] && !IsSpace(b[0])
    requires w != [] && forall i :: 0 <= i < |w| ==> IsSpace(w[i])
    ensures Slug(a + w + b) == Slug(a) + "-" + Slug(b)
  {
    var la, lw, lb := LowerStr(a), LowerStr(w), LowerStr(b);
    LowerStrAppend(a + w, b);
    LowerStrAppend(a, w);
    DashesRun(lw);
    DashesAppend(la, lw);
    DashesAppend(la + lw, lb);
  }

  /** The business's own slug is accepted; any other slug is redirected. */
  lemma CanonicalSlug(slug: string, lanchonete: Lanchonete)
    ensures !RedirectsToNotFound(Slug(lanchonete.nome), Some(lanchonete))
    ensures RedirectsToNotFound(slug, Some(lanchonete)) <==> slug != Slug(lanchonete.nome)
  {
  }

  // ---------------------------------------------------------------------------
  // Product search and the category list

  /** `s.includes(t)` */
  function Includes(s: string, t: string): bool
  {
    if |t| > |s| then false
    else if s[..|t|] == t then true
    else Includes(s[1..], t)
  }

  /** `t` occurs in `s` starting at position `i`. */
  predicate OccursAt(s: string, t: string, i: int)
  {
    0 <= i && i + |t| <= |s| && s[i..i + |t|] == t
  }

  /** When `includes` holds, `t` occurs at some position of `s`. */
  lemma {:induction false} IncludesWitness(s: string, t: string)
    requires Includes(s, t)
    ensures exists i :: OccursAt(s, t, i)
  {
    if s[..|t|] != t {
      IncludesWitness(s[1..], t);
      var i :| OccursAt(s[1..], t, i);
      assert s[i + 1..i + 1 + |t|] == s[1..][i..i + |t|];
      assert OccursAt(s, t, i + 1);
    } else {
      assert OccursAt(s, t, 0);
    }
  }

  /** Every occurrence of `t` in `s` makes `includes` hold. */
  lemma {:induction false} OccurrenceIncluded(s: string, t: string, i: int)
    requires OccursAt(s, t, i)
    ensures Includes(s, t)
  {
    if s[..|t|] != t {
      assert i != 0;
      var shifted, here := s[1..][i - 1..i - 1 + |t|], s[i..i + |t|];
      assert forall k :: 0 <= k < |t| ==> shifted[k] == here[k];
      assert OccursAt(s[1..], t, i - 1);
      OccurrenceIncluded(s[1..], t, i - 1);
    }
  }

  /** `includes` holds exactly when `t` occurs at some position of `s`. */
  lemma IncludesIff(s: string, t: string)
    ensures Includes(s, t) <==> exists i :: OccursAt(s, t, i)
  {
    if Includes(s, t) {
      IncludesWitness(s, t);
    }
    forall i | OccursAt(s, t, i)
      ensures Includes(s, t)
    {
      OccurrenceIncluded(s, t, i);
    }
  }

  /** The search matches a product by name or category, ignoring case. */
  predicate Matches(produto: Produto, term: string)
  {
    Includes(LowerStr(produto.nome), LowerStr(term))
    || Includes(LowerStr(CategoriaName(produto.categoria)), LowerStr(term))
  }

  /** `produtos.filter(p => matches(p, searchTerm))` */
  function FilteredProdutos(produtos: seq<Produto>, term: string): (r: seq<Produto>)
    ensures |r| <= |produtos|
    ensures forall i :: 0 <= i < |r| ==> Matches(r[i], term)
  {
    if produtos == [] then []
    else
      var rest := FilteredProdutos(produtos[..|produtos| - 1], term);
      var last := produtos[|produtos| - 1];
      if Matches(last, term) then rest + [last] else rest
  }

  /** Filtering keeps the catalogue's order: it distributes over concatenation. */
  lemma {:induction false} FilteredAppend(a: seq<Produto>, b: seq<Produto>, term: string)
    ensures FilteredProdutos(a + b, term) == FilteredProdutos(a, term) + FilteredProdutos(b, term)
    decreases |b|
  {
    if b == [] {
      assert a + b == a;
    } else {
      var pre, last := b[..|b| - 1], b[|b| - 1];
      FilteredAppend(a, pre, term);
      assert (a + b)[..|a + b| - 1] == a + pre;
      assert (a + b)[|a + b| - 1] == last;
    }
  }

  /** The list shows exactly the products that match. */
  lemma {:induction false} FilteredMembers(produtos: seq<Produto>, term: string, p: Produto)
    ensures p in FilteredProdutos(produtos, term) <==> p in produtos && Matches(p, term)
  {
    if produtos != [] {
      var pre, last := produtos[..|produtos| - 1], produtos[|produtos| - 1];
      assert produtos == pre + [last];
      FilteredMembers(pre, term, p);
    }
  }

  /** An empty search term lists the whole catalogue, in order. */
  lemma {:induction false} EmptyTermKeepsAll(produtos: seq<Produto>)
    ensures FilteredProdutos(produtos, "") == produtos
  {
    if produtos != [] {
      var pre, last := produtos[..|produtos| - 1], produtos[|produtos| - 1];
      EmptyTermKeepsAll(pre);
      assert LowerStr(last.nome)[..0] == LowerStr("");
      assert pre + [last] == produtos;
    }
  }

  /** `Array.from(new Set(produtos.map(p => p.categoria)))`: each category
      once, in order of first appearance. */
  function Categorias(produtos: seq<Produto>): (r: seq<Categoria>)
    ensures |r| <= |produtos|
  {
    if produtos == [] then []
    else
      var rest := Categorias(produtos[..|produtos| - 1]);
      var c := produtos[|produtos| - 1].categoria;
      if c in rest then rest else rest + [c]
  }

  /** Position of the first product of category `c`, or -1. */
  function FirstOfCategory(produtos: seq<Produto>, c: Categoria): (k: int)
    ensures -1 <= k < |produtos|
    ensures k == -1 <==> forall i :: 0 <= i < |produtos| ==> produtos[i].categoria != c
    ensures k >= 0 ==> produtos[k].categoria == c && forall j :: 0 <= j < k ==> produtos[j].categoria != c
  {
    if produtos == [] then -1
    else if produtos[0].categoria == c then 0
    else
      var k := FirstOfCategory(produtos[1..], c);
      if k < 0 then -1 else k + 1
  }

  /** Appending a product keeps earlier first appearances. */
  lemma FirstOfCategoryAppend(produtos: seq<Produto>, p: Produto, c: Categoria)
    ensures FirstOfCategory(produtos + [p], c)
         == if FirstOfCategory(produtos, c) >= 0 then FirstOfCategory(produtos, c)
            else if p.categoria == c then |produtos| else -1
  {
    var all := produtos + [p];
    var k := FirstOfCategory(produtos, c);
    if k >= 0 {
      assert all[k] == produtos[k];
    } else if p.categoria == c {
      assert all[|produtos|] == p;
    }
  }

  /** The category list holds every category of the catalogue exactly once,
      ordered by where each first appears. */
  lemma {:induction false} CategoriasSpec(produtos: seq<Produto>)
    ensures forall c :: c in Categorias(produtos) <==> FirstOfCategory(produtos, c) >= 0
    ensures forall i, j :: 0 <= i < j < |Categorias(produtos)| ==>
      FirstOfCategory(produtos, Categorias(produtos)[i]) < FirstOfCategory(produtos, Categorias(produtos)[j])
  {
    if produtos != [] {
      var pre, last := produtos[..|produtos| - 1], produtos[|produtos| - 1];
      assert produtos == pre + [last];
      CategoriasSpec(pre);
      forall c {
        FirstOfCategoryAppend(pre, last, c);
      }
    }
  }

  // ---------------------------------------------------------------------------
  // The cart

  /** `produto?.permiteExtras` for the product with that id. */
  predicate OffersExtras(produtos: seq<Produto>, produtoId: string)
  {
    FindProduto(produtos, produtoId).Some? && AllowsExtras(FindProduto(produtos, produtoId).value)
  }

  /** `item?.extras || []`: the selections the add-on panel starts from. */
  function SelectionOf(items: seq<ItemPedido>, produtoId: string): seq<ItemExtra>
  {
    match FindItem(items, produtoId)
    case None => []
    case Some(item) => item.extras
  }

  /** Every line's add-on selections are well formed. */
  predicate SelectionsWellFormed(items: seq<ItemPedido>)
  {
    forall i :: 0 <= i < |items| ==> ExtrasSelector.WellFormed(items[i].extras)
  }

  /** The contact fields the customer types in before ordering. */
  datatype ClienteForm = ClienteForm(
    nome: string, telefone: string, endereco: string, numero: string, complemento: string,
    bairro: string, cidade: string, estado: string, cep: string)

  function NewCliente(id: string, form: ClienteForm): Cliente
  {
    Cliente(id, form.nome, form.telefone, form.cep, form.endereco, form.numero,
            form.complemento, form.bairro, form.cidade, form.estado)
  }

  class Cart {
    /** The cart lines (`items`). */
    var items: seq<ItemPedido>
    /** The product whose add-on panel is open (`selectedProductId`). */
    var selected: Option<string>

    constructor()
      ensures items == [] && selected == None
      ensures Valid()
    {
      items := [];
      selected := None;
    }

    /** One line per product, each at quantity 1 or more, with well-formed
        add-on selections. */
    predicate Valid()
      reads this
    {
      WellFormed(items) && SelectionsWellFormed(items)
    }

    /** The open add-on panel belongs to a product that has a line. */
    predicate PanelOnLine()
      reads this
    {
      selected.Some? ==> FindItem(items, selected.value).Some?
    }

    /** `handleAddItem`: one more unit; a product's first add opens its
        add-on panel when it allows add-ons. */
    method AddItem(produtoId: string, freshId: string, produtos: seq<Produto>)
      requires Valid()
      modifies this
      ensures Valid()
      ensures items == AddProduct(old(items), produtoId, freshId)
      ensures selected == if FindItem(old(items), produtoId).None? && OffersExtras(produtos, produtoId)
                          then Some(produtoId) else old(selected)
      ensures old(PanelOnLine()) ==> PanelOnLine()
    {
      var first := FindItem(items, produtoId).None?;
      ghost var before := items;
      items := AddProduct(items, produtoId, freshId);
      AddProductWellFormed(before, produtoId, freshId);
      if first && OffersExtras(produtos, produtoId) {
        selected := Some(produtoId);
      }
      forall i | 0 <= i < |items|
        ensures ExtrasSelector.WellFormed(items[i].extras)
      {
        if i < |before| {
          assert items[i].extras == before[i].extras;
        }
      }
      if selected.Some? && selected.value != produtoId {
        AddProductQuantity(before, produtoId, freshId, selected.value);
      }
    }

    /** `handleRemoveItem`: one unit less; the line goes at quantity 1, and
        so does its open add-on panel. */
    method RemoveItem(produtoId: string)
      requires Valid()
      modifies this
      ensures Valid()
      ensures items == RemoveProduct(old(items), produtoId)
      ensures selected == if QuantityOf(old(items), produtoId) == 1 && FindItem(old(items), produtoId).Some?
                             && old(selected) == Some(produtoId)
                          then None else old(selected)
      ensures old(PanelOnLine()) ==> PanelOnLine()
    {
      ghost var before := items;
      var existing := FindItem(items, produtoId);
      items := RemoveProduct(items, produtoId);
      RemoveProductWellFormed(before, produtoId);
      if existing.Some? && existing.value.quantidade == 1 && selected == Some(produtoId) {
        selected := None;
      }
      RemoveKeepsSelections(before, produtoId);
      if selected.Some? {
        RemoveProductQuantity(before, produtoId, selected.value);
      }
    }

    /** `handleExtrasChange`: the product's line gets the new selections. */
    method ChangeExtras(produtoId: string, sel: seq<ItemExtra>)
      requires Valid()
      requires ExtrasSelector.WellFormed(sel)
      modifies this
      ensures Valid()
      ensures items == ReplaceExtras(old(items), produtoId, sel)
      ensures selected == old(selected)
      ensures old(PanelOnLine()) ==> PanelOnLine()
    {
      ghost var before := items;
      items := ReplaceExtras(items, produtoId, sel);
      ReplaceExtrasEffect(before, produtoId, sel, produtoId);
      if selected.Some? {
        ReplaceExtrasEffect(before, produtoId, sel, selected.value);
      }
    }

    /** The add-on panel's + button for one add-on. */
    method AddExtraTo(produtoId: string, extraId: string, produtos: seq<Produto>, extras: seq<Extra>)
      requires Valid()
      modifies this
      ensures Valid()
      ensures items == ReplaceExtras(old(items), produtoId, ExtrasSelector.AddExtra(SelectionOf(old(items), produtoId), extraId))
      ensures CartTotal(items, produtos, extras)
           == old(CartTotal(items, produtos, extras))
              + (if FindItem(old(items), produtoId).Some? then ExtraPrice(extras, extraId) else 0)
      ensures selected == old(selected)
      ensures old(PanelOnLine()) ==> PanelOnLine()
    {
      var current := SelectionOf(items, produtoId);
      SelectionOfWellFormed(items, produtoId);
      var next := ExtrasSelector.AddExtra(current, extraId);
      ExtrasSelector.AddExtraWellFormed(current, extraId);
      ExtrasSelector.AddExtraTotal(current, extraId, extras);
      ReplaceExtrasTotal(items, produtoId, next, produtos, extras);
      ChangeExtras(produtoId, next);
    }

    /** The add-on panel's - button for one add-on; nothing happens when that
        add-on is not selected. */
    method RemoveExtraFrom(produtoId: string, extraId: string, produtos: seq<Produto>, extras: seq<Extra>)
      requires Valid()
      modifies this
      ensures Valid()
      ensures items == match ExtrasSelector.RemoveExtra(SelectionOf(old(items), produtoId), extraId)
                       case None => old(items)
                       case Some(next) => ReplaceExtras(old(items), produtoId, next)
      ensures CartTotal(items, produtos, extras)
           == old(CartTotal(items, produtos, extras))
              - (if ExtrasSelector.FindSelection(SelectionOf(old(items), produtoId), extraId).Some?
                 then ExtraPrice(extras, extraId) else 0)
      ensures selected == old(selected)
      ensures old(PanelOnLine()) ==> PanelOnLine()
    {
      var current := SelectionOf(items, produtoId);
      SelectionOfWellFormed(items, produtoId);
      var next := ExtrasSelector.RemoveExtra(current, extraId);
      if next.Some? {
        ExtrasSelector.RemoveExtraWellFormed(current, extraId);
        ExtrasSelector.RemoveExtraTotal(current, extraId, extras);
        ReplaceExtrasTotal(items, produtoId, next.value, produtos, extras);
        ChangeExtras(produtoId, next.value);
      }
    }

    /** The "Adicionar extras" button, shown only on a product that has a line. */
    method OpenExtras(produtoId: string)
      requires FindItem(items, produtoId).Some?
      modifies this
      ensures items == old(items) && selected == Some(produtoId)
      ensures PanelOnLine()
    {
      selected := Some(produtoId);
    }

    /** The panel's "Fechar" button. */
    method CloseExtras()
      modifies this
      ensures items == old(items) && selected == None
      ensures PanelOnLine()
    {
      selected := None;
    }

    /** `handleSubmitOrder`: record the customer, then the order with the
        cart's lines and total, then empty the cart. The open panel is not
        closed. */
    method SubmitOrder(store: AppStore.Store, form: ClienteForm, clienteId: string, orderId: string,
                       now: Moment, extras: seq<Extra>)
      requires Valid()
      modifies this, store
      ensures Valid()
      ensures store.clientes == old(store.clientes) + [NewCliente(clienteId, form)]
      ensures store.pedidos == old(store.pedidos)
        + [Pedido(orderId, clienteId, old(items), CartTotal(old(items), old(store.produtos), extras),
                  Pendente, Delivery, None, now)]
      ensures store.produtos == old(store.produtos)
      ensures items == [] && selected == old(selected)
    {
      var total := CartTotal(items, store.produtos, extras);
      var cliente := NewCliente(clienteId, form);
      store.AddCliente(cliente);
      var pedido := Pedido(orderId, cliente.id, items, total, Pendente, Delivery, None, now);
      store.AddPedido(pedido);
      items := [];
    }
  }

  /** The selections of any line are well formed when every line's are. */
  lemma SelectionOfWellFormed(items: seq<ItemPedido>, produtoId: string)
    requires SelectionsWellFormed(items)
    ensures ExtrasSelector.WellFormed(SelectionOf(items, produtoId))
  {
  }

  /** Removing a unit never changes any line's selections. */
  lemma RemoveKeepsSelections(items: seq<ItemPedido>, produtoId: string)
    requires WellFormed(items)
    requires SelectionsWellFormed(items)
    ensures SelectionsWellFormed(RemoveProduct(items, produtoId))
  {
    var existing := FindItem(items, produtoId);
    if existing.Some? && existing.value.quantidade == 1 {
      var k := ItemIndex(items, produtoId);
      assert OnlyLineFor(items, k);
      WithoutUnique(items, k);
      var r := items[..k] + items[k + 1..];
      assert forall i :: 0 <= i < |r| ==> r[i] == items[if i < k then i else i + 1];
    }
  }

  // ---------------------------------------------------------------------------
  // After submission the customer lands on the tracking page of the new order

  /** The order the storefront commits for these lines. */
  function Committed(items: seq<ItemPedido>, clienteId: string, orderId: string, now: Moment,
                     produtos: seq<Produto>, extras: seq<Extra>): Pedido
  {
    Pedido(orderId, clienteId, items, CartTotal(items, produtos, extras), Pendente, Delivery, None, now)
  }

  /** With a fresh order id, the tracking page finds the new order at the
      first step and shows the cart total of the moment it was placed,
      whatever the catalogue has become since. */
  lemma SubmitThenTrack(pedidos: seq<Pedido>, items: seq<ItemPedido>, clienteId: string, orderId: string,
                        now: Moment, produtos: seq<Produto>, extras: seq<Extra>,
                        laterProdutos: seq<Produto>, laterExtras: seq<Extra>)
    requires forall i :: 0 <= i < |pedidos| ==> pedidos[i].id != orderId
    ensures var page := OrderTracking.TrackingPage(pedidos + [Committed(items, clienteId, orderId, now, produtos, extras)],
                                                   laterProdutos, laterExtras, orderId);
      page.Tracking? && page.total == CartTotal(items, produtos, extras)
      && page.currentStepIndex == 0 && page.progress == 25
  {
    var all := pedidos + [Committed(items, clienteId, orderId, now, produtos, extras)];
    assert all[|pedidos|].id == orderId;
    OrderTracking.FindPedidoUnique(all, |pedidos|);
    OrderTracking.ProgressByStatus(Pendente);
  }

  /** Adding P1 twice and then A1 on its panel gives one line of two P1
      with one A1. */
  lemma ExampleLines()
    ensures ReplaceExtras(AddProduct(AddProduct([], "P1", "L1"), "P1", "L2"), "P1", ExtrasSelector.AddExtra([], "A1"))
         == [ItemPedido("L1", "P1", 2, [ItemExtra("A1", 1)], None)]
  {
    var items1 := AddProduct([], "P1", "L1");
    assert items1 == [NewItem("L1", "P1")];
    assert FindItem(items1, "P1").Some?;
    var items2 := AddProduct(items1, "P1", "L2");
    assert items2 == Increment(items1, "P1");
    assert items2 == [ItemPedido("L1", "P1", 2, [], None)];
    assert ExtrasSelector.AddExtra([], "A1") == [ItemExtra("A1", 1)];
  }

  /** That line costs 22.00 with the add-on priced, 20.00 without it. */
  lemma ExampleTotals()
    ensures CartTotal([ItemPedido("L1", "P1", 2, [ItemExtra("A1", 1)], None)],
                      [Produto("P1", "X-Burger", "", 1000, Lanches, "", Some(true))],
                      [Extra("A1", "Bacon", 200, true)]) == 2200
    ensures CartTotal([ItemPedido("L1", "P1", 2, [ItemExtra("A1", 1)], None)],
                      [Produto("P1", "X-Burger", "", 1000, Lanches, "", Some(true))], []) == 2000
  {
    var produtos := [Produto("P1", "X-Burger", "", 1000, Lanches, "", Some(true))];
    var extras := [Extra("A1", "Bacon", 200, true)];
    var line := ItemPedido("L1", "P1", 2, [ItemExtra("A1", 1)], None);
    assert ProdutoPrice(produtos, "P1") == 1000;
    assert ExtraPrice(extras, "A1") == 200;
    assert ExtraPrice([], "A1") == 0;
    assert ExtrasTotal(line.extras, extras) == 200;
    assert ExtrasTotal(line.extras, []) == 0;
    assert [line][..0] == [];
  }

  /** Two units of a 10.00 product with one 2.00 add-on cost 22.00; the
      order placed for them still shows 22.00 after the add-on is taken off
      the catalogue, although the same lines would now be priced 20.00. */
  lemma WorkedExample()
    ensures var produtos := [Produto("P1", "X-Burger", "", 1000, Lanches, "", Some(true))];
      var extras := [Extra("A1", "Bacon", 200, true)];
      var items := ReplaceExtras(AddProduct(AddProduct([], "P1", "L1"), "P1", "L2"), "P1",
                                 ExtrasSelector.AddExtra([], "A1"));
      var placed := Committed(items, "C1", "O1", Moment(0, 0), produtos, extras);
      && CartTotal(items, produtos, extras) == 2200
      && CartTotal(items, produtos, []) == 2000
      && OrderTracking.TrackingPage([placed], produtos, [], "O1").total == 2200
  {
    var produtos := [Produto("P1", "X-Burger", "", 1000, Lanches, "", Some(true))];
    var extras := [Extra("A1", "Bacon", 200, true)];
    ExampleLines();
    ExampleTotals();
    var items := [ItemPedido("L1", "P1", 2, [ItemExtra("A1", 1)], None)];
    SubmitThenTrack([], items, "C1", "O1", Moment(0, 0), produtos, extras, produtos, []);
  }
}

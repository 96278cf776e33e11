/** Data shapes of the ordering application: catalogue entries, order lines,
    add-on selections and committed orders. Prices are integer cents. */
module Types {

  datatype Option<+T> = None | Some(value: T)

  /** Product category: exactly four values. */
  datatype Categoria = Lanches | Bebidas | Sobremesas | Acompanhamentos

  /** Lifecycle status of a committed order. */
  datatype Status = Pendente | EmPreparo | Pronto | Entregue

  /** Fulfilment type: dine-in at a numbered table, or delivery. */
  datatype Tipo = Mesa | Delivery

  /** The text the interface shows (and searches) for a category. */
  function CategoriaName(c: Categoria): string
  {
    match c
    case Lanches => "Lanches"
    case Bebidas => "Bebidas"
    case Sobremesas => "Sobremesas"
    case Acompanhamentos => "Acompanhamentos"
  }

  datatype Cliente = Cliente(
    id: string,
    nome: string,
    telefone: string,
    cep: string,
    endereco: string,
    numero: string,
    complemento: string,
    bairro: string,
    cidade: string,
    estado: string)

  /** `permiteExtras` is optional in the record; absent means "no add-ons". */
  datatype Produto = Produto(
    id: string,
    nome: string,
    descricao: string,
    preco: nat,
    categoria: Categoria,
    imagem: string,
    permiteExtras: Option<bool>)

  predicate AllowsExtras(p: Produto)
  {
    p.permiteExtras == Some(true)
  }

  datatype Extra = Extra(id: string, nome: string, preco: nat, disponivel: bool)

  /** One add-on selection on an order line. */
  datatype ItemExtra = ItemExtra(extraId: string, quantidade: int)

  /** One order line; an absent add-on list is the empty sequence. */
  datatype ItemPedido = ItemPedido(
    id: string,
    produtoId: string,
    quantidade: int,
    extras: seq<ItemExtra>,
    observacoes: Option<string>)

  /** Creation time, split into the local calendar day and the time within it. */
  datatype Moment = Moment(day: int, millis: nat)

  datatype Pedido = Pedido(
    id: string,
    clienteId: string,
    items: seq<ItemPedido>,
    total: int,
    status: Status,
    tipo: Tipo,
    mesa: Option<int>,
    createdAt: Moment)

  datatype Lanchonete = Lanchonete(
    nome: string,
    logo: Option<string>,
    endereco: Option<string>,
    telefone: Option<string>)
}

/** The public order-tracking page: the order found by id, its position on
    the fixed four-step status track, the progress bar, the lines that can
    still be shown, and the stored total. */
module OrderTracking {
  import opened Types
  import opened Pricing

  /** The step table, in display order. */
  const StatusSteps: seq<Status> := [Pendente, EmPreparo, Pronto, Entregue]

  /** `steps.findIndex(step => step.status === status)`, or -1. */
  function IndexOf(steps: seq<Status>, status: Status): (k: int)
    ensures -1 <= k < |steps|
    ensures k == -1 <==> status !in steps
    ensures k >= 0 ==> steps[k] == status && forall j :: 0 <= j < k ==> steps[j] != status
  {
    if steps == [] then -1
    else if steps[0] == status then 0
    else
      var k := IndexOf(steps[1..], status);
      if k < 0 then -1 else k + 1
  }

  /** `currentStepIndex`: every status is on the track, so it is never -1. */
  function StepIndex(status: Status): (k: int)
    ensures 0 <= k < |StatusSteps| && StatusSteps[k] == status
  {
    IndexOf(StatusSteps, status)
  }

  /** How far along the lifecycle a status is, written out case by case. */
  function Rank(status: Status): nat
  {
    match status
    case Pendente => 0
    case EmPreparo => 1
    case Pronto => 2
    case Entregue => 3
  }

  /** The width of the progress bar, in percent. */
  function ProgressWidth(currentStepIndex: int): int
  {
    (currentStepIndex + 1) * (100 / |StatusSteps|)
  }

  /** Step `index` is drawn highlighted. */
  predicate IsActive(index: int, currentStepIndex: int)
  {
    index <= currentStepIndex
  }

  /** `pedidos.find(p => p.id === id)` */
  function FindPedido(pedidos: seq<Pedido>, id: string): (r: Option<Pedido>)
    ensures r.None? <==> forall i :: 0 <= i < |pedidos| ==> pedidos[i].id != id
    ensures r.Some? ==> r.value in pedidos && r.value.id == id
    ensures r.Some? ==> exists k :: 0 <= k < |pedidos| && pedidos[k] == r.value
                                   && forall j :: 0 <= j < k ==> pedidos[j].id != id
  {
    if pedidos == [] then None
    else if pedidos[0].id == id then Some(pedidos[0])
    else
      var r := FindPedido(pedidos[1..], id);
      if r.Some? then
        var k :| 0 <= k < |pedidos[1..]| && pedidos[1..][k] == r.value
                 && forall j :: 0 <= j < k ==> pedidos[1..][j].id != id;
        assert pedidos[k + 1] == r.value;
        assert forall j :: 0 <= j < k + 1 ==> pedidos[j].id != id by {
          forall j | 0 <= j < k + 1
            ensures pedidos[j].id != id
          {
            if j > 0 {
              assert pedidos[j] == pedidos[1..][j - 1];
            }
          }
        }
        r
      else r
  }

  /** What the page renders. */
  datatype Page =
    | NotFound
    | Tracking(pedido: Pedido, currentStepIndex: int, progress: int, lines: seq<ShownLine>, total: int)

  function TrackingPage(pedidos: seq<Pedido>, produtos: seq<Produto>, extras: seq<Extra>, id: string): (r: Page)
    ensures r.NotFound? <==> forall i :: 0 <= i < |pedidos| ==> pedidos[i].id != id
    ensures r.Tracking? ==>
      FindPedido(pedidos, id) == Some(r.pedido)
      && r.pedido in pedidos && r.pedido.id == id
      && r.total == r.pedido.total
      && 0 <= r.currentStepIndex < 4 && StatusSteps[r.currentStepIndex] == r.pedido.status
      && r.progress == ProgressWidth(r.currentStepIndex)
      && r.lines == ShownLines(r.pedido.items, produtos, extras)
      && |r.lines| <= |r.pedido.items|
  {
    match FindPedido(pedidos, id)
    case None => NotFound
    case Some(pedido) =>
      var k := StepIndex(pedido.status);
      Tracking(pedido, k, ProgressWidth(k), ShownLines(pedido.items, produtos, extras), pedido.total)
  }

  // ---------------------------------------------------------------------------

  /** The step index of a status is its rank in the lifecycle. */
  lemma StepIndexIsRank(status: Status)
    ensures StepIndex(status) == Rank(status)
  {
    assert StatusSteps[Rank(status)] == status;
  }

  /** The bar is 25, 50, 75 or 100 percent, in step order. */
  lemma ProgressByStatus(status: Status)
    ensures ProgressWidth(StepIndex(status)) == 25 * (Rank(status) + 1)
    ensures status == Entregue <==> ProgressWidth(StepIndex(status)) == 100
  {
    StepIndexIsRank(status);
  }

  /** The bar grows strictly along the lifecycle. */
  lemma ProgressIncreasing(s: Status, t: Status)
    requires Rank(s) < Rank(t)
    ensures ProgressWidth(StepIndex(s)) < ProgressWidth(StepIndex(t))
  {
    ProgressByStatus(s);
    ProgressByStatus(t);
  }

  /** The highlighted steps are exactly those the order has already reached:
      a prefix of the track ending at the current status. */
  lemma ActiveSteps(status: Status, index: int)
    requires 0 <= index < |StatusSteps|
    ensures IsActive(index, StepIndex(status)) <==> Rank(StatusSteps[index]) <= Rank(status)
  {
    StepIndexIsRank(status);
    StepIndexIsRank(StatusSteps[index]);
    assert StepIndex(StatusSteps[index]) == index;
  }

  /** The total on the page is the stored one: changing the catalogue (a
      price, a removed product or add-on) does not change it. */
  lemma TotalIsSnapshot(pedidos: seq<Pedido>, produtos1: seq<Produto>, extras1: seq<Extra>,
                        produtos2: seq<Produto>, extras2: seq<Extra>, id: string)
    ensures TrackingPage(pedidos, produtos1, extras1, id).Tracking?
        <==> TrackingPage(pedidos, produtos2, extras2, id).Tracking?
    ensures TrackingPage(pedidos, produtos1, extras1, id).Tracking? ==>
      TrackingPage(pedidos, produtos1, extras1, id).total == TrackingPage(pedidos, produtos2, extras2, id).total
  {
  }

  /** With unique order ids, the page shows the order with that id. */
  lemma {:induction false} FindPedidoUnique(pedidos: seq<Pedido>, k: int)
    requires 0 <= k < |pedidos|
    requires forall i :: 0 <= i < |pedidos| && i != k ==> pedidos[i].id != pedidos[k].id
    ensures FindPedido(pedidos, pedidos[k].id) == Some(pedidos[k])
  {
    if k > 0 {
      var rest := pedidos[1..];
      assert forall i :: 0 <= i < |rest| && i != k - 1 ==> rest[i].id != rest[k - 1].id by {
        forall i | 0 <= i < |rest| && i != k - 1
          ensures rest[i].id != rest[k - 1].id
        {
          assert rest[i] == pedidos[i + 1];
        }
      }
      FindPedidoUnique(rest, k - 1);
    }
  }
}

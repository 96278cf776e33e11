/** The back-office dashboard: today's orders, revenue and order counts, all
    derived from the committed orders. "Today" is the local calendar day the
    page is rendered on, passed in as a day number. */
module Dashboard {
  import opened Types
  import AppStore

  /** `pedidos.filter(p => format(p.createdAt, 'yyyy-MM-dd') === format(hoje, 'yyyy-MM-dd'))`,
      with `Moment.day` standing for the local `yyyy-MM-dd` date. */
  function PedidosHoje(pedidos: seq<Pedido>, today: int): (r: seq<Pedido>)
    ensures |r| <= |pedidos|
    ensures forall i :: 0 <= i < |r| ==> r[i].createdAt.day == today
  {
    if pedidos == [] then []
    else
      var rest := PedidosHoje(pedidos[..|pedidos| - 1], today);
      var last := pedidos[|pedidos| - 1];
      if last.createdAt.day == today then rest + [last] else rest
  }

  /** `reduce((acc, p) => acc + p.total, 0)` */
  function Revenue(pedidos: seq<Pedido>): int
  {
    if pedidos == [] then 0 else Revenue(pedidos[..|pedidos| - 1]) + pedidos[|pedidos| - 1].total
  }

  predicate NonNegativeTotals(pedidos: seq<Pedido>)
  {
    forall i :: 0 <= i < |pedidos| ==> pedidos[i].total >= 0
  }

  /** `pedidos.filter(p => p.status === status).length` */
  function CountStatus(pedidos: seq<Pedido>, status: Status): (r: nat)
    ensures r <= |pedidos|
    ensures pedidos == [] ==> r == 0
  {
    if pedidos == [] then 0
    else CountStatus(pedidos[..|pedidos| - 1], status) + (if pedidos[|pedidos| - 1].status == status then 1 else 0)
  }

  /** The four cards of the dashboard. */
  datatype Stats = Stats(faturamentoHoje: int, faturamentoMes: int, pedidosHoje: nat, emPreparo: nat)

  function DashboardStats(pedidos: seq<Pedido>, today: int): (r: Stats)
    ensures r.pedidosHoje <= |pedidos| && r.emPreparo <= |pedidos|
    ensures NonNegativeTotals(pedidos) ==> 0 <= r.faturamentoHoje <= r.faturamentoMes
    ensures pedidos == [] ==> r == Stats(0, 0, 0, 0)
  {
    TodayAtMostAll(pedidos, today);
    var hoje := PedidosHoje(pedidos, today);
    Stats(Revenue(hoje), Revenue(pedidos), |hoje|, CountStatus(pedidos, EmPreparo))
  }

  // ---------------------------------------------------------------------------

  /** Today's orders are exactly the orders created on that day. */
  lemma {:induction false} PedidosHojeMembers(pedidos: seq<Pedido>, today: int, p: Pedido)
    ensures p in PedidosHoje(pedidos, today) <==> p in pedidos && p.createdAt.day == today
  {
    if pedidos != [] {
      var pre, last := pedidos[..|pedidos| - 1], pedidos[|pedidos| - 1];
      assert pedidos == pre + [last];
      PedidosHojeMembers(pre, today, p);
    }
  }

  /** Appending an order adds one to its own status's count and nothing to the others. */
  lemma {:induction false} CountStatusAppend(pedidos: seq<Pedido>, pedido: Pedido, status: Status)
    ensures CountStatus(pedidos + [pedido], status)
         == CountStatus(pedidos, status) + (if pedido.status == status then 1 else 0)
  {
    var all := pedidos + [pedido];
    assert all[..|all| - 1] == pedidos;
  }

  /** A status counts at least one order exactly when some order has it. */
  lemma {:induction false} CountStatusPositive(pedidos: seq<Pedido>, status: Status)
    ensures CountStatus(pedidos, status) > 0 <==> exists i :: 0 <= i < |pedidos| && pedidos[i].status == status
  {
    if pedidos != [] {
      var pre := pedidos[..|pedidos| - 1];
      CountStatusPositive(pre, status);
      if exists i :: 0 <= i < |pre| && pre[i].status == status {
        var i :| 0 <= i < |pre| && pre[i].status == status;
        assert pedidos[i].status == status;
      }
      if exists i :: 0 <= i < |pedidos| && pedidos[i].status == status {
        var i :| 0 <= i < |pedidos| && pedidos[i].status == status;
        if i < |pre| {
          assert pre[i].status == status;
        }
      }
    }
  }

  /** Every order counts under exactly one status. */
  lemma {:induction false} CountStatusPartition(pedidos: seq<Pedido>)
    ensures CountStatus(pedidos, Pendente) + CountStatus(pedidos, EmPreparo)
          + CountStatus(pedidos, Pronto) + CountStatus(pedidos, Entregue) == |pedidos|
  {
    if pedidos != [] {
      CountStatusPartition(pedidos[..|pedidos| - 1]);
    }
  }

  /** With non-negative order totals, today's revenue never exceeds the
      revenue over all orders (which is what the "monthly" card shows: no
      month filter is applied). */
  lemma {:induction false} TodayAtMostAll(pedidos: seq<Pedido>, today: int)
    ensures NonNegativeTotals(pedidos) ==> 0 <= Revenue(PedidosHoje(pedidos, today)) <= Revenue(pedidos)
  {
    if pedidos != [] {
      var pre, last := pedidos[..|pedidos| - 1], pedidos[|pedidos| - 1];
      TodayAtMostAll(pre, today);
      if last.createdAt.day == today {
        RevenueAppend(PedidosHoje(pre, today), [last]);
      }
    }
  }

  /** Revenue distributes over concatenation. */
  lemma {:induction false} RevenueAppend(a: seq<Pedido>, b: seq<Pedido>)
    ensures Revenue(a + b) == Revenue(a) + Revenue(b)
  {
    if b != [] {
      assert (a + b)[..|a + b| - 1] == a + b[..|b| - 1];
      RevenueAppend(a, b[..|b| - 1]);
    } else {
      assert a + b == a;
    }
  }

  /** When every order was created today, today's revenue is the whole revenue. */
  lemma {:induction false} AllCreatedToday(pedidos: seq<Pedido>, today: int)
    requires forall i :: 0 <= i < |pedidos| ==> pedidos[i].createdAt.day == today
    ensures PedidosHoje(pedidos, today) == pedidos
  {
    if pedidos != [] {
      var pre := pedidos[..|pedidos| - 1];
      AllCreatedToday(pre, today);
      assert pre + [pedidos[|pedidos| - 1]] == pedidos;
    }
  }

  /** A committed order adds its total to the revenue and, when created
      today, to today's revenue and count. */
  lemma AddPedidoStats(pedidos: seq<Pedido>, pedido: Pedido, today: int)
    ensures DashboardStats(pedidos + [pedido], today).faturamentoMes
         == DashboardStats(pedidos, today).faturamentoMes + pedido.total
    ensures DashboardStats(pedidos + [pedido], today).faturamentoHoje
         == DashboardStats(pedidos, today).faturamentoHoje + (if pedido.createdAt.day == today then pedido.total else 0)
    ensures DashboardStats(pedidos + [pedido], today).pedidosHoje
         == DashboardStats(pedidos, today).pedidosHoje + (if pedido.createdAt.day == today then 1 else 0)
    ensures DashboardStats(pedidos + [pedido], today).emPreparo
         == DashboardStats(pedidos, today).emPreparo + (if pedido.status == EmPreparo then 1 else 0)
  {
    var all := pedidos + [pedido];
    assert all[..|all| - 1] == pedidos;
    if pedido.createdAt.day == today {
      RevenueAppend(PedidosHoje(pedidos, today), [pedido]);
    }
  }

  /** A status change keeps the revenue over all orders. */
  lemma {:induction false} SetStatusKeepsTotal(pedidos: seq<Pedido>, id: string, status: Status)
    ensures Revenue(AppStore.SetStatus(pedidos, id, status)) == Revenue(pedidos)
  {
    if pedidos != [] {
      var pre := pedidos[..|pedidos| - 1];
      var r := AppStore.SetStatus(pedidos, id, status);
      assert r[..|r| - 1] == AppStore.SetStatus(pre, id, status);
      SetStatusKeepsTotal(pre, id, status);
    }
  }

  /** Re-statusing an order and then picking today's orders is the same as
      picking today's orders and then re-statusing: the creation day is kept. */
  lemma {:induction false} SetStatusThenToday(pedidos: seq<Pedido>, id: string, status: Status, today: int)
    ensures PedidosHoje(AppStore.SetStatus(pedidos, id, status), today)
         == AppStore.SetStatus(PedidosHoje(pedidos, today), id, status)
  {
    if pedidos != [] {
      var pre, last := pedidos[..|pedidos| - 1], pedidos[|pedidos| - 1];
      var r := AppStore.SetStatus(pedidos, id, status);
      assert r[..|r| - 1] == AppStore.SetStatus(pre, id, status);
      SetStatusThenToday(pre, id, status, today);
      if last.createdAt.day == today {
        var hoje := PedidosHoje(pre, today) + [last];
        assert AppStore.SetStatus(hoje, id, status)[..|hoje| - 1] == AppStore.SetStatus(PedidosHoje(pre, today), id, status);
      }
    }
  }

  /** A status change keeps both revenue figures and today's count. */
  lemma SetStatusKeepsRevenue(pedidos: seq<Pedido>, id: string, status: Status, today: int)
    ensures Revenue(AppStore.SetStatus(pedidos, id, status)) == Revenue(pedidos)
    ensures Revenue(PedidosHoje(AppStore.SetStatus(pedidos, id, status), today)) == Revenue(PedidosHoje(pedidos, today))
    ensures |PedidosHoje(AppStore.SetStatus(pedidos, id, status), today)| == |PedidosHoje(pedidos, today)|
  {
    SetStatusKeepsTotal(pedidos, id, status);
    SetStatusThenToday(pedidos, id, status, today);
    SetStatusKeepsTotal(PedidosHoje(pedidos, today), id, status);
  }
}

// The first steps of example runs: one order is created, filed and sent to the exchange.
module OrderStart {
  import opened Runs
  import opened Clock
  import opened Maps
  import opened OrderStatus
  import opened Orders
  import opened OrderRuns

  const STARTED: Time := 1
  const EXCHANGE := "hyperliquid-http"
  const OID := "1"
  const NOTHING: map<nat, Call> := map[]

  function FiledOrder(order: Order): Order {
    Filed(order, "", STARTED)
  }

  function SentSteps(order: Order): seq<Step> {
    [BeginCreate(0, order), Insert(0, FiledOrder(order), STARTED), Submit(0)]
  }

  // The order is filed and its submission waits for the answer.
  function SentState(order: Order): State {
    var filed := FiledOrder(order);
    State(map[order.id := filed], map[0 := AwaitingSubmit(filed)], {order.id}, [order.id])
  }

  lemma FirstFiled(order: Order)
    ensures var none: OrderMap := map[];
            CreateReturns(none, order, "", STARTED, FiledOrder(order))
    ensures AfterCreate(map[], order, "", STARTED) == map[FiledOrder(order).id := FiledOrder(order)]
  {
    hide Filed;
    hide Duplicate;
    var none: OrderMap := map[];
    assert !HasDuplicate(none, order);
  }

  lemma FirstBegins(order: Order)
    requires Fresh(order)
    ensures Enabled(Init(), BeginCreate(0, order))
    ensures After(Init(), BeginCreate(0, order)) == State(map[], map[0 := Creating(order)], {order.id}, [])
  {
    hide Fresh;
  }

  lemma FiledIs(order: Order)
    requires Fresh(order)
    ensures var filed := FiledOrder(order);
            && filed.id == order.id && filed.cloid == order.cloid && filed.userAddress == order.userAddress
            && filed.status == PENDING && filed.providerOrderId == "" && Submittable(filed, order)
  {
  }

  lemma FirstInsert(order: Order, filed: Order)
    requires Fresh(order) && filed == FiledOrder(order)
    ensures var s, t := State(map[], map[0 := Creating(order)], {order.id}, []), Insert(0, filed, STARTED);
            Enabled(s, t) && After(s, t) == State(map[order.id := filed], map[0 := Inserted(filed)], {order.id}, [])
  {
    FiledIs(order);
    FirstFiled(order);
    hide *;
    var calls: map<nat, Call> := map[0 := Creating(order)];
    Replaced(NOTHING, 0, Creating(order), Inserted(filed));
    InsertEffect(State(map[], calls, {order.id}, []), 0, filed, STARTED);
  }

  lemma FirstSubmit(order: Order, filed: Order)
    requires filed.id == order.id
    ensures var orders: OrderMap := map[order.id := filed];
            var s := State(orders, map[0 := Inserted(filed)], {order.id}, []);
            && Enabled(s, Submit(0))
            && After(s, Submit(0)) == State(orders, map[0 := AwaitingSubmit(filed)], {order.id}, [order.id])
  {
    Replaced(NOTHING, 0, Inserted(filed), AwaitingSubmit(filed));
  }

  lemma InTwo<T>(a: T, b: T)
    ensures [] + [a] + [b] == [a, b]
  {
  }

  lemma AfterThree<T>(xs: seq<T>, a: T, b: T, c: T)
    ensures xs + [a] + [b] + [c] == xs + [a, b, c]
  {
  }

  lemma SentTrace(order: Order)
    requires Fresh(order)
    ensures Legal(Protocol, Init(), SentSteps(order))
    ensures Exec(Protocol, Init(), SentSteps(order)) == SentState(order)
  {
    var filed := FiledOrder(order);
    FiledIs(order);
    FirstBegins(order);
    FirstInsert(order, filed);
    FirstSubmit(order, filed);
    NoSteps(Protocol, Init());
    assert SentSteps(order) == [BeginCreate(0, order), Insert(0, filed, STARTED), Submit(0)];
    assert SentState(order) ==
           State(map[order.id := filed], map[0 := AwaitingSubmit(filed)], {order.id}, [order.id]);
    hide *;
    var t0, t1, t2 := BeginCreate(0, order), Insert(0, filed, STARTED), Submit(0);
    ProtocolStep(Init(), [], Init(), t0);
    ProtocolStep(Init(), [] + [t0], State(map[], map[0 := Creating(order)], {order.id}, []), t1);
    ProtocolStep(Init(), [] + [t0] + [t1],
                 State(map[order.id := filed], map[0 := Inserted(filed)], {order.id}, []), t2);
    AfterThree([], t0, t1, t2);
    assert [] + [t0, t1, t2] == [t0, t1, t2];
  }
}

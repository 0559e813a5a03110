// Spot orders and what the store operations do to them.
module SpotOrders {
  import opened Results
  import opened Clock
  import opened Text
  import opened Money
  import opened Quotes

  datatype Order = Order(
    id: string, userId: string, chainType: string, walletAddress: string, orderType: string, side: string,
    inputToken: string, outputToken: string, inputAmount: string, expectedOutput: string, minOutput: string,
    slippageBps: int, routeId: string, status: string, txHash: string, failureCode: string, clientRequestId: string,
    createdAt: Time, updatedAt: Time, filledAt: Option<Time>, expiredAt: Time)

  type OrderMap = map<string, Order>

  const PENDING := "pending"
  const CONFIRMED := "confirmed"
  const STATUSES := {"pending", "submitted", "confirmed", "failed", "cancelled"}

  datatype StatusUpdate = StatusUpdate(status: string, txHash: string, failureCode: string)

  predicate SameRequest(existing: Order, userId: string, request: string) {
    existing.userId == userId && existing.clientRequestId == request
  }

  predicate HasRequest(orders: OrderMap, userId: string, request: string) {
    exists id | id in orders :: SameRequest(orders[id], userId, request)
  }

  predicate Duplicates(orders: OrderMap, order: Order) {
    order.clientRequestId != "" && HasRequest(orders, order.userId, order.clientRequestId)
  }

  function WithId(order: Order, freshId: string): Order {
    if order.id == "" then order.(id := freshId) else order
  }

  function AfterCreate(orders: OrderMap, order: Order): OrderMap {
    if Duplicates(orders, order) then orders else orders[order.id := order]
  }

  // Any stored order of the request, or the one just stored.
  predicate CreateReturns(orders: OrderMap, order: Order, created: Order) {
    if Duplicates(orders, order)
    then exists id | id in orders :: orders[id] == created && SameRequest(created, order.userId, order.clientRequestId)
    else created == order
  }

  predicate FindReturns(orders: OrderMap, userId: string, request: string, found: Option<Order>) {
    match found
    case Some(o) => SameRequest(o, userId, request) && exists id | id in orders :: orders[id] == o
    case None => !HasRequest(orders, userId, request)
  }

  function Restatused(order: Order, update: StatusUpdate, now: Time): Order {
    order.(status := update.status, txHash := TrimSpace(update.txHash), failureCode := TrimSpace(update.failureCode),
           updatedAt := now, filledAt := if update.status == CONFIRMED then Some(now) else order.filledAt)
  }

  function AfterStatus(orders: OrderMap, id: string, update: StatusUpdate, now: Time): OrderMap {
    if id in orders then orders[id := Restatused(orders[id], update, now)] else orders
  }

  // The amounts of an order are those of a quote for its input and slippage.
  predicate Quoted(order: Order) {
    var q := QuoteAmounts(order.inputAmount, order.slippageBps);
    && 0 < order.slippageBps <= MAX_SLIPPAGE_BPS
    && q.Ok? && q.value.output == order.expectedOutput && q.value.minOutput == order.minOutput
  }

  // Read as numbers: the output is the input less a fee of 0.3%, the minimum is the
  // slippage below it, and neither exceeds what it is taken from.
  ghost predicate AmountsBounded(order: Order) {
    && Parse(order.inputAmount).Ok? && Parse(order.expectedOutput).Ok? && Parse(order.minOutput).Ok?
    && var x, out, min := Parse(order.inputAmount).value,
                          Parse(order.expectedOutput).value, Parse(order.minOutput).value;
       && out == OutputOf(x)
       && 0.0 <= min <= out
       && (OnGrid(x) ==> FeeOf(x) + out == x && out <= x)
       && 0 < order.slippageBps <= MAX_SLIPPAGE_BPS
       && -0.5 < BpsShare(Units(out), 10000 - order.slippageBps) - Units(min) <= 0.5
  }

  lemma QuotedBounded(order: Order)
    requires Quoted(order)
    ensures AmountsBounded(order)
  {
    hide QuoteAmounts;
    hide Parse;
    hide FeeOf;
    hide OutputOf;
    hide MinOutputOf;
    hide OnGrid;
    hide BpsShare;
    hide Units;
    QuoteValues(order.inputAmount, order.slippageBps);
    var x := Parse(order.inputAmount).value;
    QuoteBounds(x, order.slippageBps);
    FeeAndOutputConserve(x);
  }

  // What no operation rewrites; a fill time, once set, stays set.
  predicate Evolves(a: Order, b: Order) {
    && b == a.(status := b.status, txHash := b.txHash, failureCode := b.failureCode,
               updatedAt := b.updatedAt, filledAt := b.filledAt)
    && (a.filledAt.Some? ==> b.filledAt.Some?)
    && (b.status == CONFIRMED && a.status != CONFIRMED ==> b.filledAt.Some?)
  }
}

// The spot trading service and its in-memory store. Alone, each call is a legal run of the
// spot order protocol.
module SpotService {
  import opened Results
  import opened Runs
  import opened Clock
  import opened Maps
  import opened Text
  import Money
  import opened Quotes
  import opened SpotOrders
  import opened SpotRuns

  datatype StoreError = NotFound

  datatype Error =
    | FieldsRequired
    | OrderTypeUnsupported
    | SideUnknown
    | BadAmount(error: Money.Error)
    | StatusRequired
    | StatusUnknown
    | OrderNotFound

  datatype Quote = Quote(
    id: string, routeId: string, userId: string, chainType: string, inputToken: string, outputToken: string,
    inputAmount: string, amounts: Amounts, expiresAt: Time, createdAt: Time)

  datatype QuoteRequest = QuoteRequest(
    userId: string, chainType: string, inputToken: string, outputToken: string, inputAmount: string, slippageBps: int)

  datatype CreateInput = CreateInput(
    userId: string, chainType: string, walletAddress: string, orderType: string, side: string,
    inputToken: string, outputToken: string, inputAmount: string, slippageBps: int, clientRequestId: string)

  datatype OrderEvent = OrderEvent(orderId: string, kind: string, status: string, createdAt: Time)

  const QUOTE_TTL := 30 * SECOND

  class MemoryStore {
    var quotes: map<string, Quote>
    var orders: OrderMap
    var events: seq<OrderEvent>

    constructor ()
      ensures quotes == map[] && orders == map[] && events == []
    {
      quotes, orders, events := map[], map[], [];
    }

    method SaveQuote(quote: Quote, freshId: string) returns (saved: Quote)
      modifies this`quotes
      ensures saved == quote.(id := if quote.id == "" then freshId else quote.id)
      ensures quotes == old(quotes)[saved.id := saved]
    {
      saved := quote;
      if saved.id == "" {
        saved := saved.(id := freshId);
      }
      quotes := quotes[saved.id := saved];
    }

    method CreateOrder(order: Order, freshId: string) returns (created: Order)
      modifies this`orders
      ensures orders == AfterCreate(old(orders), WithId(order, freshId))
      ensures CreateReturns(old(orders), WithId(order, freshId), created)
    {
      if order.clientRequestId != "" {
        var found := FindOrderByClientRequestID(order.userId, order.clientRequestId);
        if found.Ok? {
          return found.value;
        }
      }
      created := order;
      if created.id == "" {
        created := created.(id := freshId);
      }
      orders := orders[created.id := created];
    }

    method GetOrder(id: string) returns (order: Result<Order, StoreError>)
      ensures order == if id in orders then Ok(orders[id]) else Err(NotFound)
    {
      order := if id in orders then Ok(orders[id]) else Err(NotFound);
    }

    method FindOrderByClientRequestID(userId: string, request: string) returns (found: Result<Order, StoreError>)
      ensures FindReturns(orders, userId, request, if found.Ok? then Some(found.value) else None)
    {
      var left := orders.Keys;
      while left != {}
        invariant left <= orders.Keys
        invariant forall id | id in orders.Keys - left :: !SameRequest(orders[id], userId, request)
      {
        var id :| id in left;
        var order := orders[id];
        left := left - {id};
        if order.userId == userId && order.clientRequestId == request {
          return Ok(order);
        }
      }
      found := Err(NotFound);
    }

    method UpdateOrderStatus(id: string, update: StatusUpdate, now: Time) returns (updated: Result<Order, StoreError>)
      modifies this`orders
      ensures orders == AfterStatus(old(orders), id, update, now)
      ensures updated == if id in old(orders) then Ok(Restatused(old(orders)[id], update, now)) else Err(NotFound)
    {
      hide TrimSpace;
      if id !in orders {
        return Err(NotFound);
      }
      var order := orders[id];
      order := order.(status := update.status);
      order := order.(txHash := TrimSpace(update.txHash));
      order := order.(failureCode := TrimSpace(update.failureCode));
      order := order.(updatedAt := now);
      if update.status == CONFIRMED {
        order := order.(filledAt := Some(now));
      }
      orders := orders[id := order];
      updated := Ok(order);
    }

    method AppendOrderEvent(event: OrderEvent)
      modifies this`events
      ensures events == old(events) + [event]
    {
      events := events + [event];
    }
  }

  // What a quote request comes to before it is stored.
  function Priced(req: QuoteRequest): Result<Amounts, Error> {
    if TrimSpace(req.chainType) == "" || TrimSpace(req.inputToken) == "" || TrimSpace(req.outputToken) == ""
       || TrimSpace(req.inputAmount) == "" then Err(FieldsRequired)
    else
      match QuoteAmounts(TrimSpace(req.inputAmount), req.slippageBps)
      case Ok(a) => Ok(a)
      case Err(e) => Err(BadAmount(e))
  }

  // The first complaint about a create request, if any.
  function Complaint(input: CreateInput): Option<Error> {
    if TrimSpace(input.userId) == "" || TrimSpace(input.chainType) == "" || TrimSpace(input.walletAddress) == ""
    then Some(FieldsRequired)
    else if LowerOr(input.orderType, "market") !in {"market", "limit"} then Some(OrderTypeUnsupported)
    else if ToLower(TrimSpace(input.side)) !in {"buy", "sell"} then Some(SideUnknown)
    else None
  }

  function RequestOf(input: CreateInput): QuoteRequest {
    QuoteRequest(TrimSpace(input.userId), TrimSpace(input.chainType), TrimSpace(input.inputToken),
                 TrimSpace(input.outputToken), TrimSpace(input.inputAmount), input.slippageBps)
  }

  function Built(input: CreateInput, amounts: Amounts, id: string, routeId: string, now: Time, expires: Time): Order {
    Order(id, TrimSpace(input.userId), TrimSpace(input.chainType), TrimSpace(input.walletAddress),
          LowerOr(input.orderType, "market"), ToLower(TrimSpace(input.side)),
          TrimSpace(input.inputToken), TrimSpace(input.outputToken), TrimSpace(input.inputAmount),
          amounts.output, amounts.minOutput, amounts.slippageBps, routeId, PENDING, "", "",
          TrimSpace(input.clientRequestId), now, now, None, expires)
  }

  // The order has the terms of the request; a slippage of zero or less stands for 1%.
  ghost predicate TermsOf(order: Order, input: CreateInput) {
    && order.userId == TrimSpace(input.userId) && order.chainType == TrimSpace(input.chainType)
    && order.walletAddress == TrimSpace(input.walletAddress)
    && order.orderType == (if TrimSpace(input.orderType) == "" then "market" else ToLower(TrimSpace(input.orderType)))
    && order.side == ToLower(TrimSpace(input.side))
    && order.inputToken == TrimSpace(input.inputToken) && order.outputToken == TrimSpace(input.outputToken)
    && order.inputAmount == TrimSpace(input.inputAmount)
    && order.slippageBps == (if input.slippageBps <= 0 then 100 else input.slippageBps)
    && order.clientRequestId == TrimSpace(input.clientRequestId)
    && order.txHash == "" && order.failureCode == "" && order.filledAt.None?
  }

  // Why a request is refused for what it says of the caller and the kind of order.
  ghost predicate Refused(input: CreateInput, error: Error) {
    var named :=
      TrimSpace(input.userId) != "" && TrimSpace(input.chainType) != "" && TrimSpace(input.walletAddress) != "";
    var kind, side := ToLower(TrimSpace(input.orderType)), ToLower(TrimSpace(input.side));
    var typed := kind == "" || kind == "market" || kind == "limit";
    match error
    case FieldsRequired => !named
    case OrderTypeUnsupported => named && !typed
    case SideUnknown => named && typed && side != "buy" && side != "sell"
    case _ => false
  }

  // What becomes of a create request, in terms of the request and the store.
  ghost predicate CreatedAsAsked(before: OrderMap, after: OrderMap, input: CreateInput, freshId: string,
                                 created: Result<Order, Error>) {
    var user, request := TrimSpace(input.userId), TrimSpace(input.clientRequestId);
    var amount := TrimSpace(input.inputAmount);
    var slippage := if input.slippageBps <= 0 then 100 else input.slippageBps;
    && (created.Err? ==> after == before)
    && (forall e | Refused(input, e) :: created == Err(e))
    && ((forall e :: !Refused(input, e)) ==>
          if request != "" &&
             exists id | id in before :: before[id].userId == user && before[id].clientRequestId == request
          then
            && created.Ok? && after == before && created.value.id in before
            && before[created.value.id] == created.value
            && created.value.userId == user && created.value.clientRequestId == request
          else
            var priced := TrimSpace(input.inputToken) != "" && TrimSpace(input.outputToken) != "" && amount != "";
            && (created == Err(FieldsRequired) <==> !priced)
            && (created.Ok? <==> priced && slippage <= 5000 && Money.Parse(amount).Ok?)
            && (created.Ok? ==>
                  && freshId !in before && after == before[freshId := created.value]
                  && created.value.id == freshId && created.value.status == PENDING
                  && TermsOf(created.value, input) && AmountsBounded(created.value)))
  }

  lemma ComplaintIff(input: CreateInput)
    ensures forall e :: Complaint(input) == Some(e) <==> Refused(input, e)
  {
    LowerOrIs(input.orderType, "market");
    assert |ToLower(TrimSpace(input.orderType))| == |TrimSpace(input.orderType)|;
    hide TrimSpace;
    hide ToLower;
    hide LowerOr;
  }

  lemma PricedIff(input: CreateInput)
    requires TrimSpace(input.chainType) != ""
    ensures var p, amount := Priced(RequestOf(input)), TrimSpace(input.inputAmount);
            var fields := TrimSpace(input.inputToken) != "" && TrimSpace(input.outputToken) != "" && amount != "";
            && (p == Err(FieldsRequired) <==> !fields)
            && (p.Ok? <==> fields && (input.slippageBps <= 0 || input.slippageBps <= 5000) && Money.Parse(amount).Ok?)
  {
    TrimTwice(input.chainType);
    TrimTwice(input.inputToken);
    TrimTwice(input.outputToken);
    TrimTwice(input.inputAmount);
    QuoteValues(TrimSpace(input.inputAmount), input.slippageBps);
    hide TrimSpace;
    hide QuoteAmounts;
    hide Money.Parse;
  }

  lemma AsAsked(before: OrderMap, after: OrderMap, input: CreateInput, freshId: string, created: Result<Order, Error>)
    requires CreateOutcome(before, after, input, freshId, created)
    ensures CreatedAsAsked(before, after, input, freshId, created)
  {
    ComplaintIff(input);
    if Complaint(input).None? {
      CallerNamed(input);
      PricedIff(input);
      HasRequestIff(before, TrimSpace(input.userId), TrimSpace(input.clientRequestId));
    }
    hide Complaint;
    hide Refused;
    hide Priced;
    hide HasRequest;
    hide TermsOf;
    hide AmountsBounded;
    hide TrimSpace;
    hide Money.Parse;
    hide PENDING;
  }

  lemma CallerNamed(input: CreateInput)
    requires Complaint(input).None?
    ensures TrimSpace(input.chainType) != ""
  {
    hide TrimSpace;
    hide LowerOr;
  }

  lemma HasRequestIff(orders: OrderMap, userId: string, request: string)
    ensures HasRequest(orders, userId, request) <==>
              exists id | id in orders :: orders[id].userId == userId && orders[id].clientRequestId == request
  {
  }

  // A repeated request returns the earlier order and stores nothing; any other stores one
  // new pending order with the amounts of a quote for it, or fails and stores none.
  ghost predicate CreateOutcome(before: OrderMap, after: OrderMap, input: CreateInput, freshId: string,
                                created: Result<Order, Error>) {
    var user, request := TrimSpace(input.userId), TrimSpace(input.clientRequestId);
    if Complaint(input).Some? then after == before && created == Err(Complaint(input).value)
    else if request != "" && HasRequest(before, user, request) then
      && after == before && created.Ok? && SameRequest(created.value, user, request)
      && created.value.id in before && before[created.value.id] == created.value
    else match Priced(RequestOf(input))
         case Err(e) => after == before && created == Err(e)
         case Ok(a) =>
           && created.Ok? && after == before[freshId := created.value] && freshId !in before
           && created.value.id == freshId && created.value.status == PENDING
           && SameRequest(created.value, user, request)
           && created.value.inputAmount == TrimSpace(input.inputAmount)
           && created.value.expectedOutput == a.output && created.value.minOutput == a.minOutput
           && AmountsBounded(created.value) && TermsOf(created.value, input)
  }

  class Service {
    const store: MemoryStore

    constructor (store: MemoryStore)
      ensures this.store == store
    {
      this.store := store;
    }

    ghost predicate Shows(m: State)
      reads store`orders
    {
      m.orders == store.orders
    }

    method QuoteFor(req: QuoteRequest, routeId: string, freshId: string, now: Time)
      returns (quote: Result<Quote, Error>)
      modifies store`quotes
      ensures match Priced(req)
              case Err(e) => quote == Err(e) && store.quotes == old(store.quotes)
              case Ok(a) =>
                && quote.Ok? && quote.value.amounts == a && quote.value.id == freshId && quote.value.routeId == routeId
                && quote.value.expiresAt == now + QUOTE_TTL
                && store.quotes == old(store.quotes)[freshId := quote.value]
      ensures quote.Ok? ==>
                quote.value == Quote(freshId, routeId, TrimSpace(req.userId), TrimSpace(req.chainType),
                                     TrimSpace(req.inputToken), TrimSpace(req.outputToken), TrimSpace(req.inputAmount),
                                     quote.value.amounts, now + 30 * SECOND, now)
    {
      hide QuoteAmounts;
      hide TrimSpace;
      var chain, input, output, amount :=
        TrimSpace(req.chainType), TrimSpace(req.inputToken), TrimSpace(req.outputToken), TrimSpace(req.inputAmount);
      if chain == "" || input == "" || output == "" || amount == "" {
        return Err(FieldsRequired);
      }
      var amounts := QuoteAmounts(amount, req.slippageBps);
      if amounts.Err? {
        return Err(BadAmount(amounts.error));
      }
      var saved := store.SaveQuote(
        Quote("", routeId, TrimSpace(req.userId), chain, input, output, amount, amounts.value, now + QUOTE_TTL, now),
        freshId);
      quote := Ok(saved);
    }

    method CreateOrder(input: CreateInput, freshId: string, quoteId: string, routeId: string, now: Time,
                       ghost m: State, ghost c: nat)
      returns (created: Result<Order, Error>, ghost steps: seq<Step>)
      requires Shows(m) && Inv(m) && c !in m.calls && freshId != "" && freshId !in m.ids
      modifies store
      ensures Legal(Protocol, m, steps) && Shows(Exec(Protocol, m, steps)) && Exec(Protocol, m, steps).calls == m.calls
      ensures CreateOutcome(m.orders, store.orders, input, freshId, created)
      ensures CreatedAsAsked(m.orders, store.orders, input, freshId, created)
      ensures created.Ok? ==>
                Exec(Protocol, m, steps).answers ==
                  m.answers + [Answer(TrimSpace(input.userId), TrimSpace(input.clientRequestId), created.value.id)]
    {
      NoSteps(Protocol, m);
      UnusedId(m, freshId);
      hide *;
      steps := [];
      var complaint := Complaint(input);
      if complaint.Some? {
        Complained(m.orders, input, freshId);
        AsAsked(m.orders, m.orders, input, freshId, Err(complaint.value));
        return Err(complaint.value), [];
      }
      var existing;
      existing, steps := Earlier(TrimSpace(input.userId), TrimSpace(input.clientRequestId), m);
      if existing.Some? {
        Repeated(m.orders, input, freshId, existing.value);
        AsAsked(m.orders, m.orders, input, freshId, Ok(existing.value));
        return Ok(existing.value), steps;
      }
      IsFirst(m.orders, input);
      var quote := QuoteFor(RequestOf(input), routeId, quoteId, now);
      if quote.Err? {
        QuoteFailed(m.orders, input, freshId);
        AsAsked(m.orders, m.orders, input, freshId, Err(quote.error));
        return Err(quote.error), [];
      }
      var stored;
      stored, steps := StoreNew(input, quote.value, freshId, routeId, now, m, c);
      created := Ok(stored);
      AsAsked(m.orders, store.orders, input, freshId, created);
    }

    // The order of an earlier call with the same request, if the request is named.
    method Earlier(userId: string, request: string, ghost m: State)
      returns (existing: Option<Order>, ghost steps: seq<Step>)
      requires Shows(m) && forall i | i in m.orders :: m.orders[i].id == i
      ensures existing.Some? <==> request != "" && HasRequest(m.orders, userId, request)
      ensures existing.None? ==> steps == []
      ensures existing.Some? ==>
                var found := existing.value;
                && Legal(Protocol, m, steps)
                && Exec(Protocol, m, steps) == m.(answers := m.answers + [Answer(userId, request, found.id)])
                && SameRequest(found, userId, request) && found.id in m.orders && m.orders[found.id] == found
    {
      hide Legal;
      hide Exec;
      hide HasRequest;
      hide SameRequest;
      hide FindReturns;
      if request == "" {
        return None, [];
      }
      var found := store.FindOrderByClientRequestID(userId, request);
      FoundOrNot(m.orders, userId, request, if found.Ok? then Some(found.value) else None);
      if found.Err? {
        return None, [];
      }
      HitRun(m, userId, request, found.value);
      existing, steps := Some(found.value), [] + [Hit(userId, request, found.value)];
    }

    // The part of CreateOrder after the quote.
    method StoreNew(input: CreateInput, quote: Quote, freshId: string, routeId: string, now: Time,
                    ghost m: State, ghost c: nat)
      returns (stored: Order, ghost steps: seq<Step>)
      requires Shows(m) && c !in m.calls && freshId != "" && freshId !in m.ids && freshId !in m.orders
      requires FirstRequest(m.orders, input) && Priced(RequestOf(input)) == Ok(quote.amounts)
      modifies store
      ensures Legal(Protocol, m, steps) && Shows(Exec(Protocol, m, steps)) && Exec(Protocol, m, steps).calls == m.calls
      ensures CreateOutcome(m.orders, store.orders, input, freshId, Ok(stored))
      ensures Exec(Protocol, m, steps).answers ==
              m.answers + [Answer(TrimSpace(input.userId), TrimSpace(input.clientRequestId), stored.id)]
    {
      hide Legal;
      hide Exec;
      hide Complaint;
      hide Priced;
      hide TrimSpace;
      hide Quoted;
      hide AmountsBounded;
      hide SameRequest;
      hide RequestOf;
      hide Built;
      hide HasRequest;
      hide Duplicates;
      hide CreateReturns;
      hide AfterCreate;
      hide CreateOutcome;
      hide TermsOf;
      hide PENDING;
      var order := Built(input, quote.amounts, freshId, routeId, now, quote.expiresAt);
      BuiltQuoted(input, quote.amounts, freshId, routeId, now, quote.expiresAt);
      NewRun(m, c, order);
      stored := store.CreateOrder(order, "");
      StoresNew(m.orders, order, stored);
      StoredNew(m.orders, input, quote.amounts, order);
      store.AppendOrderEvent(OrderEvent(stored.id, "created", stored.status, now));
      steps := [] + [Miss(c, order.userId, order.clientRequestId)] + [Prepare(c, order)] + [Insert(c, order)];
    }

    // Any known status may follow any other; only the order named changes.
    method UpdateOrderStatus(orderId: string, update: StatusUpdate, now: Time, ghost m: State)
      returns (updated: Result<Order, Error>, ghost steps: seq<Step>)
      requires Shows(m)
      modifies store
      ensures Legal(Protocol, m, steps) && Exec(Protocol, m, steps) == m.(orders := store.orders)
      ensures var id, status := TrimSpace(orderId), ToLower(TrimSpace(update.status));
              && (updated == Err(StatusRequired) <==> id == "" || status == "")
              && (updated == Err(StatusUnknown) <==> id != "" && status != "" && status !in STATUSES)
              && (updated == Err(OrderNotFound) <==> id != "" && status in STATUSES && id !in m.orders)
              && (updated.Ok? ==>
                    && updated.value == Restatused(m.orders[id], update.(status := status), now)
                    && store.orders == m.orders[id := updated.value])
              && (updated.Err? ==> store.orders == m.orders)
              && (updated.Ok? <==> id != "" && id in m.orders && KnownStatus(status))
              && (updated.Ok? ==>
                    && store.orders == m.orders[id := updated.value]
                    && UpdatedAs(m.orders[id], updated.value, update, now))
    {
      NoSteps(Protocol, m);
      NoBlankStatus();
      hide Legal;
      hide Exec;
      hide TrimSpace;
      hide Restatused;
      hide KnownStatus;
      hide UpdatedAs;
      hide STATUSES;
      steps := [];
      var id := TrimSpace(orderId);
      var cleaned := update.(status := ToLower(TrimSpace(update.status)));
      KnownIff(cleaned.status);
      if id == "" || cleaned.status == "" {
        return Err(StatusRequired), [];
      }
      if cleaned.status !in STATUSES {
        return Err(StatusUnknown), [];
      }
      if id in m.orders {
        UpdatedIs(m.orders[id], update, now);
      }
      StatusRun(m, id, cleaned, now);
      var r := store.UpdateOrderStatus(id, cleaned, now);
      steps := [] + [SetStatus(id, cleaned, now)];
      if r.Err? {
        return Err(OrderNotFound), steps;
      }
      store.AppendOrderEvent(OrderEvent(id, "status_updated", cleaned.status, now));
      updated := Ok(r.value);
    }
  }

  lemma Complained(orders: OrderMap, input: CreateInput, freshId: string)
    requires Complaint(input).Some?
    ensures CreateOutcome(orders, orders, input, freshId, Err(Complaint(input).value))
  {
    hide Complaint;
    hide AmountsBounded;
  }

  lemma Repeated(orders: OrderMap, input: CreateInput, freshId: string, existing: Order)
    requires Complaint(input).None? && TrimSpace(input.clientRequestId) != ""
    requires HasRequest(orders, TrimSpace(input.userId), TrimSpace(input.clientRequestId))
    requires SameRequest(existing, TrimSpace(input.userId), TrimSpace(input.clientRequestId))
    requires existing.id in orders && orders[existing.id] == existing
    ensures CreateOutcome(orders, orders, input, freshId, Ok(existing))
  {
    hide Complaint;
    hide AmountsBounded;
    hide HasRequest;
    hide SameRequest;
    hide TrimSpace;
  }

  predicate FirstRequest(orders: OrderMap, input: CreateInput) {
    && Complaint(input).None?
    && (TrimSpace(input.clientRequestId) == "" ||
        !HasRequest(orders, TrimSpace(input.userId), TrimSpace(input.clientRequestId)))
  }

  lemma IsFirst(orders: OrderMap, input: CreateInput)
    requires Complaint(input).None?
    requires TrimSpace(input.clientRequestId) == "" ||
             !HasRequest(orders, TrimSpace(input.userId), TrimSpace(input.clientRequestId))
    ensures FirstRequest(orders, input)
  {
    hide Complaint;
    hide TrimSpace;
    hide HasRequest;
  }

  lemma QuoteFailed(orders: OrderMap, input: CreateInput, freshId: string)
    requires FirstRequest(orders, input) && Priced(RequestOf(input)).Err?
    ensures CreateOutcome(orders, orders, input, freshId, Err(Priced(RequestOf(input)).error))
  {
    hide Complaint;
    hide AmountsBounded;
    hide HasRequest;
    hide SameRequest;
    hide TrimSpace;
    hide Priced;
  }

  lemma StoredNew(orders: OrderMap, input: CreateInput, a: Amounts, order: Order)
    requires FirstRequest(orders, input) && Priced(RequestOf(input)) == Ok(a) && order.id !in orders
    requires order.status == PENDING && AmountsBounded(order)
    requires SameRequest(order, TrimSpace(input.userId), TrimSpace(input.clientRequestId))
    requires order.inputAmount == TrimSpace(input.inputAmount)
    requires order.expectedOutput == a.output && order.minOutput == a.minOutput && TermsOf(order, input)
    ensures CreateOutcome(orders, orders[order.id := order], input, order.id, Ok(order))
  {
    hide Complaint;
    hide AmountsBounded;
    hide HasRequest;
    hide SameRequest;
    hide TrimSpace;
    hide Priced;
  }

  lemma FoundOrNot(orders: OrderMap, userId: string, request: string, found: Option<Order>)
    requires FindReturns(orders, userId, request, found)
    ensures found.Some? <==> HasRequest(orders, userId, request)
  {
    hide SameRequest;
  }

  lemma StoresNew(orders: OrderMap, order: Order, created: Order)
    requires !Duplicates(orders, order) && CreateReturns(orders, order, created)
    ensures created == order && AfterCreate(orders, order) == orders[order.id := order]
  {
    hide Duplicates;
  }

  ghost predicate KnownStatus(status: string) {
    status == "pending" || status == "submitted" || status == "confirmed" || status == "failed" || status == "cancelled"
  }

  lemma KnownIff(status: string)
    ensures status in STATUSES <==> KnownStatus(status)
  {
  }

  // The order with the status, hash and failure code of the update, and the time when that
  // confirms it.
  ghost predicate UpdatedAs(before: Order, after: Order, update: StatusUpdate, now: Time) {
    var status := ToLower(TrimSpace(update.status));
    after == before.(
      status := status, txHash := TrimSpace(update.txHash), failureCode := TrimSpace(update.failureCode),
      updatedAt := now, filledAt := if status == CONFIRMED then Some(now) else before.filledAt)
  }

  lemma UpdatedIs(order: Order, update: StatusUpdate, now: Time)
    ensures UpdatedAs(order, Restatused(order, update.(status := ToLower(TrimSpace(update.status))), now), update, now)
  {
    hide TrimSpace;
    hide ToLower;
  }

  lemma NoBlankStatus()
    ensures "" !in STATUSES
  {
  }

  lemma UnusedId(m: State, id: string)
    requires Inv(m) && id !in m.ids
    ensures id !in m.orders
    ensures forall i | i in m.orders :: m.orders[i].id == i
  {
    hide Quoted;
    hide OnePerRequest;
    hide Answered;
  }

  lemma BuiltTerms(input: CreateInput, amounts: Amounts, id: string, routeId: string, now: Time, expires: Time)
    requires Priced(RequestOf(input)) == Ok(amounts)
    ensures TermsOf(Built(input, amounts, id, routeId, now, expires), input)
  {
    LowerOrIs(input.orderType, "market");
    TrimTwice(input.inputAmount);
    QuoteValues(TrimSpace(input.inputAmount), input.slippageBps);
    hide QuoteAmounts;
    hide TrimSpace;
    hide ToLower;
    hide LowerOr;
    hide Money.Parse;
  }

  lemma BuiltQuoted(input: CreateInput, amounts: Amounts, id: string, routeId: string, now: Time, expires: Time)
    requires Priced(RequestOf(input)) == Ok(amounts)
    ensures var o := Built(input, amounts, id, routeId, now, expires);
            && Quoted(o) && AmountsBounded(o) && o.id == id && o.status == PENDING && o.filledAt.None?
            && SameRequest(o, TrimSpace(input.userId), TrimSpace(input.clientRequestId))
            && o.inputAmount == TrimSpace(input.inputAmount)
            && o.expectedOutput == amounts.output && o.minOutput == amounts.minOutput
            && o.userId == TrimSpace(input.userId) && o.clientRequestId == TrimSpace(input.clientRequestId)
            && TermsOf(o, input)
  {
    BuiltTerms(input, amounts, id, routeId, now, expires);
    var o := Built(input, amounts, id, routeId, now, expires);
    TrimTwice(input.inputAmount);
    assert QuoteAmounts(o.inputAmount, input.slippageBps) == Ok(amounts) by {
      hide QuoteAmounts;
      hide TrimSpace;
    }
    hide TrimSpace;
    QuotedAmounts(o, input.slippageBps, amounts);
    QuotedBounded(o);
    hide Quoted;
    hide AmountsBounded;
    hide QuoteAmounts;
  }

  // Asking again with the effective slippage gives the same amounts.
  lemma QuotedAmounts(o: Order, slippageBps: int, amounts: Amounts)
    requires QuoteAmounts(o.inputAmount, slippageBps) == Ok(amounts)
    requires o.expectedOutput == amounts.output && o.minOutput == amounts.minOutput
             && o.slippageBps == amounts.slippageBps
    ensures Quoted(o)
  {
    hide Money.Parse;
    hide Money.MultiplyBps;
    hide Money.Sub;
  }

  lemma HitRun(m: State, userId: string, request: string, found: Order)
    requires request != "" && FindReturns(m.orders, userId, request, Some(found))
    requires forall i | i in m.orders :: m.orders[i].id == i
    ensures var steps := [] + [Hit(userId, request, found)];
            && Legal(Protocol, m, steps)
            && Exec(Protocol, m, steps) == m.(answers := m.answers + [Answer(userId, request, found.id)])
    ensures HasRequest(m.orders, userId, request) && SameRequest(found, userId, request)
    ensures found.id in m.orders && m.orders[found.id] == found
  {
    FoundStored(m.orders, userId, request, found);
    NoSteps(Protocol, m);
    hide Legal;
    hide Exec;
    ProtocolStep(m, [], m, Hit(userId, request, found));
  }

  lemma MissEffect(s: State, c: nat, userId: string, request: string)
    requires c !in s.calls && (request == "" || !HasRequest(s.orders, userId, request))
    ensures Enabled(s, Miss(c, userId, request))
    ensures After(s, Miss(c, userId, request)) == s.(calls := s.calls[c := Checked(userId, request)])
  {
    hide HasRequest;
  }

  lemma PrepareEffect(s: State, c: nat, order: Order)
    requires c in s.calls && s.calls[c] == Checked(order.userId, order.clientRequestId)
    requires order.id !in s.ids && order.status == PENDING && order.filledAt.None? && Quoted(order)
    ensures Enabled(s, Prepare(c, order))
    ensures After(s, Prepare(c, order)) == s.(calls := s.calls[c := Ready(order)], ids := s.ids + {order.id})
  {
    hide Quoted;
  }

  lemma InsertEffect(s: State, c: nat, order: Order)
    requires c in s.calls && s.calls[c] == Ready(order) && !Duplicates(s.orders, order)
    ensures Enabled(s, Insert(c, order))
    ensures After(s, Insert(c, order)) ==
            s.(orders := s.orders[order.id := order], calls := s.calls - {c},
               answers := s.answers + [Answer(order.userId, order.clientRequestId, order.id)])
  {
    hide Duplicates;
  }

  lemma NewRun(m: State, c: nat, order: Order)
    requires c !in m.calls && order.id !in m.ids && order.status == PENDING && order.filledAt.None? && Quoted(order)
    requires order.clientRequestId == "" || !HasRequest(m.orders, order.userId, order.clientRequestId)
    ensures var steps := [] + [Miss(c, order.userId, order.clientRequestId)] + [Prepare(c, order)] + [Insert(c, order)];
            && Legal(Protocol, m, steps)
            && Exec(Protocol, m, steps) ==
                 State(m.orders[order.id := order], m.calls, m.ids + {order.id},
                       m.answers + [Answer(order.userId, order.clientRequestId, order.id)])
    ensures !Duplicates(m.orders, order)
  {
    NoSteps(Protocol, m);
    hide Legal;
    hide Exec;
    hide HasRequest;
    hide Quoted;
    var user, request := order.userId, order.clientRequestId;
    var t0, t1, t2 := Miss(c, user, request), Prepare(c, order), Insert(c, order);
    MissEffect(m, c, user, request);
    ProtocolStep(m, [], m, t0);
    var s1 := m.(calls := m.calls[c := Checked(user, request)]);
    PrepareEffect(s1, c, order);
    ProtocolStep(m, [] + [t0], s1, t1);
    Replaced(m.calls, c, Checked(user, request), Ready(order));
    var s2 := m.(calls := m.calls[c := Ready(order)], ids := m.ids + {order.id});
    InsertEffect(s2, c, order);
    hide Enabled;
    hide After;
    ProtocolStep(m, [] + [t0] + [t1], s2, t2);
    Replaced(m.calls, c, Ready(order), Ready(order));
  }

  lemma StatusRun(m: State, id: string, update: StatusUpdate, now: Time)
    requires update.status in STATUSES
    ensures var steps := [] + [SetStatus(id, update, now)];
            Legal(Protocol, m, steps)
            && Exec(Protocol, m, steps) == m.(orders := AfterStatus(m.orders, id, update, now))
  {
    NoSteps(Protocol, m);
    hide Legal;
    hide Exec;
    hide AfterStatus;
    hide STATUSES;
    ProtocolStep(m, [], m, SetStatus(id, update, now));
  }
}

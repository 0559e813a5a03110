// The futures order service over the in-memory store. Alone, each call is a legal run of
// the order protocol, so everything proved of its runs holds of the service.
module OrderService {
  import opened Results
  import opened Runs
  import opened Clock
  import opened Maps
  import opened Text
  import opened OrderStatus
  import opened Orders
  import opened OrderRuns
  import opened HyperStore

  datatype Error =
    | SymbolRequired
    | SideUnknown
    | SizeRequired
    | OrderIdRequired
    | SignerRefused
    | OrderNotFound
    | ProviderFailed

  datatype CreateInput = CreateInput(
    userId: string, userAddress: string, symbol: string, side: string, orderType: string,
    price: string, size: string, cloid: string, clientRequestId: string, reduceOnly: bool, timeInForce: string,
    rawPayload: Payload, exchangePayload: Option<string>, exchangeAction: Option<string>)

  // What the agent signer makes of a request without an exchange payload: it is off, it
  // refuses, or it adds its payloads.
  datatype Signing = SignerOff | Refuses | Signs(exchangePayload: string, agentSigner: string)

  const SIDES := {"buy", "sell", "long", "short"}

  // The raw payload with the exchange fields of the request put over it.
  function WithExchange(raw: Payload, payload: Option<string>, action: Option<string>): Payload {
    raw
    + (if payload.Some? then map["exchangePayload" := payload.value] else map[])
    + (if action.Some? then map["exchangeAction" := action.value] else map[])
  }

  function NormalizeOrder(input: CreateInput, freshId: string, provider: string, now: Time): (r: Result<Order, Error>)
    ensures r.Err? ==> r.error in {SymbolRequired, SideUnknown, SizeRequired}
    ensures r.Ok? && freshId != "" ==> Fresh(r.value) && r.value.id == freshId
  {
    var symbol := ToUpper(TrimSpace(input.symbol));
    var side := ToLower(TrimSpace(input.side));
    var size := TrimSpace(input.size);
    if symbol == "" then Err(SymbolRequired)
    else if side !in SIDES then Err(SideUnknown)
    else if size == "" then Err(SizeRequired)
    else Ok(Order(
      freshId, TrimSpace(input.userId), TrimSpace(input.userAddress),
      symbol, side, LowerOr(input.orderType, "market"), TrimSpace(input.price), size,
      PENDING, TrimSpace(input.cloid), provider, "", TrimSpace(input.clientRequestId),
      input.reduceOnly, TrimSpace(input.timeInForce),
      WithExchange(input.rawPayload, input.exchangePayload, input.exchangeAction), map[],
      now, now, None, None))
  }

  // The input that repeats a normalised order's fields.
  function Repeating(input: CreateInput, o: Order): CreateInput {
    input.(userId := o.userId, userAddress := o.userAddress, symbol := o.symbol, side := o.side,
           orderType := o.orderType, price := o.price, size := o.size, cloid := o.cloid,
           clientRequestId := o.clientRequestId, timeInForce := o.timeInForce, rawPayload := o.rawPayload)
  }

  lemma OrderTypeAgain(s: string)
    ensures LowerOr(LowerOr(s, "market"), "market") == LowerOr(s, "market")
  {
    MarketPlain();
    hide *;
    LowerOrAgain(s, "market");
  }

  lemma MarketPlain()
    ensures TrimSpace("market") == "market" && ToLower("market") == "market" && "market" != ""
  {
    PlainIfLower("market");
    hide TrimSpace;
    hide ToLower;
  }

  lemma ExchangeAgain(raw: Payload, payload: Option<string>, action: Option<string>)
    ensures WithExchange(WithExchange(raw, payload, action), payload, action) == WithExchange(raw, payload, action)
  {
  }

  // Normalising is idempotent: what it produced it accepts and leaves as it is.
  lemma NormalizeOrderAgain(input: CreateInput, freshId: string, provider: string, now: Time)
    requires NormalizeOrder(input, freshId, provider, now).Ok?
    ensures var o := NormalizeOrder(input, freshId, provider, now).value;
            NormalizeOrder(Repeating(input, o), freshId, provider, now) == Ok(o)
  {
    UpperTrimFixed(input.symbol);
    LowerTrimFixed(input.side);
    OrderTypeAgain(input.orderType);
    ExchangeAgain(input.rawPayload, input.exchangePayload, input.exchangeAction);
    TrimTwice(input.size);
    TrimTwice(input.userId);
    TrimTwice(input.userAddress);
    TrimTwice(input.price);
    TrimTwice(input.cloid);
    TrimTwice(input.clientRequestId);
    TrimTwice(input.timeInForce);
    hide TrimSpace;
    hide ToLower;
    hide ToUpper;
    hide SIDES;
    hide LowerOr;
    hide WithExchange;
  }

  function Signed(order: Order, signing: Signing): (r: Order)
    ensures Fresh(order) ==> Fresh(r)
    ensures r.id == order.id && r.clientRequestId == order.clientRequestId
    ensures r.userId == order.userId && r.userAddress == order.userAddress
  {
    match signing
    case Signs(exchange, agent) =>
      order.(rawPayload := order.rawPayload["exchangePayload" := exchange],
             responsePayload := order.responsePayload["agentSigner" := agent])
    case _ => order
  }

  // The order a create call inserts, or why it inserts none.
  function Prepared(input: CreateInput, freshId: string, provider: string, now: Time,
                    signing: Signing): (r: Result<Order, Error>)
    ensures r.Ok? && freshId != "" ==> Fresh(r.value) && r.value.id == freshId
  {
    var order :- NormalizeOrder(input, freshId, provider, now);
    if input.exchangePayload.Some? then Ok(order)
    else if signing.Refuses? then Err(SignerRefused)
    else Ok(Signed(order, signing))
  }

  // A create call that inserts nothing submits nothing. One whose request already has an
  // order returns it and submits nothing. Any other submits its order once; a failed
  // submission leaves the order pending.
  ghost predicate CreateOutcome(m: State, m': State, order: Order, now: Time, answer: Option<ActionResult>,
                                later: Time, created: Result<Order, Error>) {
    var filed := Filed(order, "", now);
    if HasDuplicate(m.orders, order) then
      && m'.orders == m.orders && m'.submissions == m.submissions
      && created.Ok? && Duplicate(created.value, order) && created.value.id in m.orders
    else if answer.None? then
      && m'.orders == m.orders[order.id := filed] && m'.submissions == m.submissions + [order.id]
      && created == Err(ProviderFailed)
    else
      var updated := Patched(filed, SubmitPatch(filed, answer.value), later);
      && m'.orders == m.orders[order.id := updated] && m'.submissions == m.submissions + [order.id]
      && created == Ok(updated)
      && updated.status == SUBMITTED && updated.submittedAt == Some(answer.value.submittedAt)
  }

  // The user's earlier order of this request: the request is named, and the owners agree on
  // the user id, or where one side has none on the address, or one side has neither.
  ghost predicate EarlierOf(existing: Order, userId: string, userAddress: string, request: string) {
    && request != "" && existing.clientRequestId == request
    && (if existing.userId != "" && userId != "" then existing.userId == userId
        else existing.userAddress != "" && userAddress != "" ==> EqualFold(existing.userAddress, userAddress))
  }

  ghost predicate RequestedBefore(orders: OrderMap, input: CreateInput) {
    exists id | id in orders ::
      EarlierOf(orders[id], TrimSpace(input.userId), TrimSpace(input.userAddress), TrimSpace(input.clientRequestId))
  }

  // The order has the terms of the request and nobody else's.
  ghost predicate TermsOf(order: Order, input: CreateInput) {
    && order.symbol == ToUpper(TrimSpace(input.symbol)) && order.side == ToLower(TrimSpace(input.side))
    && order.orderType == (if TrimSpace(input.orderType) == "" then "market" else ToLower(TrimSpace(input.orderType)))
    && order.price == TrimSpace(input.price) && order.size == TrimSpace(input.size)
    && order.reduceOnly == input.reduceOnly && order.timeInForce == TrimSpace(input.timeInForce)
    && order.cloid == TrimSpace(input.cloid) && order.clientRequestId == TrimSpace(input.clientRequestId)
    && order.userId == TrimSpace(input.userId) && order.userAddress == TrimSpace(input.userAddress)
  }

  const EXCHANGE_PAYLOAD := "exchangePayload"
  const EXCHANGE_ACTION := "exchangeAction"

  function FieldOf(payload: Payload, key: string): Option<string> {
    if key in payload then Some(payload[key]) else None
  }

  // Its raw payload is the request's, with the exchange payload and action given beside it,
  // or else the payload that the signer made.
  ghost predicate PayloadOf(order: Order, input: CreateInput, signing: Signing) {
    && FieldOf(order.rawPayload, EXCHANGE_ACTION) ==
         (if input.exchangeAction.Some? then input.exchangeAction else FieldOf(input.rawPayload, EXCHANGE_ACTION))
    && FieldOf(order.rawPayload, EXCHANGE_PAYLOAD) ==
         (if input.exchangePayload.Some? then input.exchangePayload
          else if signing.Signs? then Some(signing.exchangePayload)
          else FieldOf(input.rawPayload, EXCHANGE_PAYLOAD))
    && forall key | key != EXCHANGE_ACTION && key != EXCHANGE_PAYLOAD ::
         FieldOf(order.rawPayload, key) == FieldOf(input.rawPayload, key)
  }

  // Why a request is refused before anything is stored, by its own fields.
  ghost predicate Refused(input: CreateInput, signing: Signing, error: Error) {
    var symbol, side, size := TrimSpace(input.symbol), ToLower(TrimSpace(input.side)), TrimSpace(input.size);
    var known := side == "buy" || side == "sell" || side == "long" || side == "short";
    match error
    case SymbolRequired => symbol == ""
    case SideUnknown => symbol != "" && !known
    case SizeRequired => symbol != "" && known && size == ""
    case SignerRefused =>
      symbol != "" && known && size != "" && input.exchangePayload.None? && signing.Refuses?
    case _ => false
  }

  // What becomes of a create request, in terms of the request, the store and the answer.
  ghost predicate CreatedAsAsked(before: State, after: State, input: CreateInput, freshId: string, signing: Signing,
                                 answer: Option<ActionResult>, created: Result<Order, Error>) {
    && (forall e :: Refused(input, signing, e) ==> created == Err(e))
    && (created.Err? ==> Refused(input, signing, created.error) || created.error == ProviderFailed)
    && if exists e :: Refused(input, signing, e)
       then after.orders == before.orders && after.submissions == before.submissions
       else if RequestedBefore(before.orders, input) then
         && after.orders == before.orders && after.submissions == before.submissions && created.Ok?
         && created.value.id in before.orders
         && EarlierOf(created.value, TrimSpace(input.userId), TrimSpace(input.userAddress),
                      TrimSpace(input.clientRequestId))
       else
         && after.submissions == before.submissions + [freshId] && freshId in after.orders
         && after.orders == before.orders[freshId := after.orders[freshId]]
         && var order := after.orders[freshId];
            && order.id == freshId && TermsOf(order, input) && PayloadOf(order, input, signing)
            && (answer.None? ==>
                  created == Err(ProviderFailed) && order.status == PENDING && order.providerOrderId == "")
            && (answer.Some? ==>
                  && created == Ok(order) && order.status == SUBMITTED
                  && order.providerOrderId == TrimSpace(answer.value.requestId)
                  && order.submittedAt == Some(answer.value.submittedAt))
  }

  // The order as the accepted cancel leaves it. It keeps its provider id if it has one.
  ghost predicate CancelledAs(before: Order, after: Order, result: ActionResult, now: Time) {
    after == before.(
      status := CANCELLED, cancelledAt := Some(result.submittedAt), updatedAt := now,
      provider := if TrimSpace(result.provider) != "" then TrimSpace(result.provider) else TrimSpace(before.provider),
      providerOrderId := if TrimSpace(before.providerOrderId) != "" then TrimSpace(before.providerOrderId)
                         else TrimSpace(result.requestId),
      responsePayload := before.responsePayload + result.payload)
  }

  // The order as a sync leaves it: the answer's provider id counts before its own.
  ghost predicate SyncedAs(before: Order, after: Order, report: StatusReport, provider: string, now: Time) {
    after == before.(
      status := after.status, updatedAt := now,
      provider := if TrimSpace(provider) != "" then TrimSpace(provider) else TrimSpace(before.provider),
      providerOrderId := if TrimSpace(report.providerOrderId) != "" then TrimSpace(report.providerOrderId)
                         else TrimSpace(before.providerOrderId),
      responsePayload := before.responsePayload + report.payload,
      cancelledAt := if after.status == CANCELLED && before.cancelledAt.None?
                     then Some(if report.updatedAt == ZERO_TIME then now else report.updatedAt)
                     else before.cancelledAt)
  }

  lemma FirstTwice(a: string, b: string)
    ensures FirstNonEmpty(FirstNonEmpty(a, b), b) == FirstNonEmpty(a, b)
    ensures FirstNonEmpty(FirstNonEmpty(b, a), b) == FirstNonEmpty(b, a)
    ensures FirstNonEmpty(a, b) == if TrimSpace(a) != "" then TrimSpace(a) else TrimSpace(b)
  {
    TrimTwice(a);
    TrimTwice(b);
    hide TrimSpace;
  }

  lemma CancelledIs(order: Order, result: ActionResult, now: Time)
    ensures CancelledAs(order, Patched(order, CancelPatch(order, result), now), result, now)
  {
    StatusFixed();
    FixedPointPlain(CANCELLED);
    FirstTwice(result.provider, order.provider);
    FirstTwice(result.requestId, order.providerOrderId);
    FirstOfStatus(CANCELLED, order.status);
    hide TrimSpace;
    hide FixedPoint;
    hide FirstNonEmpty;
  }

  lemma FirstOfStatus(status: string, other: string)
    requires Plain(status)
    ensures FirstNonEmpty(status, other) == status
  {
    hide Trim;
  }

  lemma SyncPatchIs(order: Order, report: StatusReport, provider: string, now: Time)
    ensures var next := MergeSynced(order.status, Normalize(report.status));
            var at := if report.updatedAt == ZERO_TIME then now else report.updatedAt;
            SyncPatch(order, report, provider, now) ==
              Patch(order.id, next, provider, FirstNonEmpty(report.providerOrderId, order.providerOrderId),
                    report.payload, None, if next == CANCELLED && order.cancelledAt.None? then Some(at) else None)
  {
    hide MergeSynced;
    hide Normalize;
    hide FirstNonEmpty;
  }

  lemma PatchedSync(order: Order, next: string, report: StatusReport, provider: string, now: Time, at: Option<Time>)
    requires Plain(next)
    ensures var pid := FirstNonEmpty(report.providerOrderId, order.providerOrderId);
            Patched(order, Patch(order.id, next, provider, pid, report.payload, None, at), now) ==
              order.(status := next, updatedAt := now, provider := FirstNonEmpty(provider, order.provider),
                     providerOrderId := pid, responsePayload := order.responsePayload + report.payload,
                     cancelledAt := if at.Some? then at else order.cancelledAt)
  {
    FirstOfStatus(next, order.status);
    FirstTwice(report.providerOrderId, order.providerOrderId);
    hide FirstNonEmpty;
    hide Plain;
    hide TrimSpace;
  }

  lemma SyncedIs(order: Order, report: StatusReport, provider: string, now: Time)
    requires Sound(order)
    ensures var updated := Patched(order, SyncPatch(order, report, provider, now), now);
            && SyncedAs(order, updated, report, provider, now)
            && TakesReport(order.status, report.status, updated.status)
  {
    var next := MergeSynced(order.status, Normalize(report.status));
    NextPlain(order, report);
    MergeTakesReport(order.status, report.status);
    SyncPatchIs(order, report, provider, now);
    FirstTwice(provider, order.provider);
    FirstTwice(report.providerOrderId, order.providerOrderId);
    PatchedSync(order, next, report, provider, now, SyncPatch(order, report, provider, now).cancelledAt);
    hide Patched;
    hide SyncPatch;
    hide Plain;
    hide TrimSpace;
    hide FirstNonEmpty;
    hide MergeSynced;
    hide Normalize;
    hide TakesReport;
    hide Sound;
  }

  lemma NextPlain(order: Order, report: StatusReport)
    requires Sound(order)
    ensures Plain(MergeSynced(order.status, Normalize(report.status)))
  {
    MergeKeepsFixed(order.status, report.status);
    hide FixedPoint;
    hide MergeSynced;
    hide Normalize;
    hide Plain;
    FixedPointPlain(MergeSynced(order.status, Normalize(report.status)));
  }

  lemma DuplicateIsEarlier(orders: OrderMap, order: Order)
    ensures HasDuplicate(orders, order) <==>
              exists id | id in orders ::
                EarlierOf(orders[id], order.userId, order.userAddress, order.clientRequestId)
    ensures forall existing :: Duplicate(existing, order) <==>
              EarlierOf(existing, order.userId, order.userAddress, order.clientRequestId)
  {
    hide EqualFold;
  }

  lemma NormalizedTerms(input: CreateInput, freshId: string, provider: string, now: Time, signing: Signing)
    ensures var r := NormalizeOrder(input, freshId, provider, now);
            && (r.Err? ==> Refused(input, signing, r.error))
            && (r.Ok? ==>
                  && TermsOf(r.value, input)
                  && forall e :: Refused(input, signing, e) <==>
                       e == SignerRefused && input.exchangePayload.None? && signing.Refuses?)
  {
    LowerOrIs(input.orderType, "market");
    UpperLength(TrimSpace(input.symbol));
    SidesAre(ToLower(TrimSpace(input.side)));
    hide TrimSpace;
    hide ToUpper;
    hide ToLower;
    hide LowerOr;
    hide SIDES;
    hide WithExchange;
  }

  lemma SidesAre(side: string)
    ensures side in SIDES <==> side == "buy" || side == "sell" || side == "long" || side == "short"
  {
  }

  lemma UpperLength(s: string)
    ensures ToUpper(s) == "" <==> s == ""
  {
    assert |ToUpper(s)| == |s|;
  }

  function Over(raw: Payload, key: string, value: Option<string>): Payload {
    if value.Some? then raw[key := value.value] else raw
  }

  lemma OverIs(raw: Payload, key: string, value: Option<string>, other: string)
    ensures FieldOf(Over(raw, key, value), other) == if other == key && value.Some? then value else FieldOf(raw, other)
  {
  }

  lemma FieldNames()
    ensures EXCHANGE_PAYLOAD != EXCHANGE_ACTION
  {
    assert |EXCHANGE_PAYLOAD| != |EXCHANGE_ACTION|;
  }

  lemma WithExchangeIs(raw: Payload, payload: Option<string>, action: Option<string>)
    ensures WithExchange(raw, payload, action) == Over(Over(raw, EXCHANGE_PAYLOAD, payload), EXCHANGE_ACTION, action)
  {
  }

  function SignedField(input: CreateInput, signing: Signing): Option<string> {
    if input.exchangePayload.None? && signing.Signs? then Some(signing.exchangePayload) else None
  }

  lemma PreparedRaw(input: CreateInput, freshId: string, provider: string, now: Time, signing: Signing)
    requires Prepared(input, freshId, provider, now, signing).Ok?
    ensures Prepared(input, freshId, provider, now, signing).value.rawPayload ==
            Over(WithExchange(input.rawPayload, input.exchangePayload, input.exchangeAction),
                 EXCHANGE_PAYLOAD, SignedField(input, signing))
  {
    hide TrimSpace;
    hide ToUpper;
    hide ToLower;
    hide LowerOr;
    hide SIDES;
    hide WithExchange;
  }

  // The exchange fields of a prepared order.
  lemma PreparedPayload(input: CreateInput, freshId: string, provider: string, now: Time, signing: Signing)
    requires Prepared(input, freshId, provider, now, signing).Ok?
    ensures PayloadOf(Prepared(input, freshId, provider, now, signing).value, input, signing)
  {
    FieldNames();
    PreparedRaw(input, freshId, provider, now, signing);
    WithExchangeIs(input.rawPayload, input.exchangePayload, input.exchangeAction);
    var order := Prepared(input, freshId, provider, now, signing).value;
    var one := Over(input.rawPayload, EXCHANGE_PAYLOAD, input.exchangePayload);
    var two := Over(one, EXCHANGE_ACTION, input.exchangeAction);
    hide Prepared;
    hide WithExchange;
    hide FieldOf;
    hide Over;
    hide EXCHANGE_PAYLOAD;
    hide EXCHANGE_ACTION;
    var mark := SignedField(input, signing);
    forall key ensures FieldOf(order.rawPayload, key) ==
                         if key == EXCHANGE_PAYLOAD && mark.Some? then mark
                         else if key == EXCHANGE_ACTION && input.exchangeAction.Some? then input.exchangeAction
                         else if key == EXCHANGE_PAYLOAD && input.exchangePayload.Some? then input.exchangePayload
                         else FieldOf(input.rawPayload, key)
    {
      OverIs(input.rawPayload, EXCHANGE_PAYLOAD, input.exchangePayload, key);
      OverIs(one, EXCHANGE_ACTION, input.exchangeAction, key);
      OverIs(two, EXCHANGE_PAYLOAD, mark, key);
    }
  }

  lemma PreparedAsked(input: CreateInput, freshId: string, provider: string, now: Time, signing: Signing)
    ensures var r := Prepared(input, freshId, provider, now, signing);
            && (r.Err? ==> Refused(input, signing, r.error))
            && (r.Ok? ==> TermsOf(r.value, input) && forall e :: !Refused(input, signing, e))
  {
    NormalizedTerms(input, freshId, provider, now, signing);
    hide NormalizeOrder;
    hide Refused;
    hide FieldOf;
    hide TrimSpace;
    hide ToUpper;
    hide ToLower;
  }

  lemma OneRefusal(input: CreateInput, signing: Signing, a: Error, b: Error)
    requires Refused(input, signing, a) && Refused(input, signing, b)
    ensures a == b
  {
    hide TrimSpace;
    hide ToLower;
  }

  lemma FiledTerms(order: Order, now: Time, input: CreateInput, signing: Signing)
    requires Fresh(order) && TermsOf(order, input) && PayloadOf(order, input, signing)
    ensures var filed := Filed(order, "", now);
            && TermsOf(filed, input) && PayloadOf(filed, input, signing)
            && filed.id == order.id && filed.status == PENDING && filed.providerOrderId == ""
  {
    hide TrimSpace;
    hide ToUpper;
    hide ToLower;
    hide FieldOf;
  }

  lemma SubmittedTerms(filed: Order, result: ActionResult, later: Time, input: CreateInput, signing: Signing)
    requires TermsOf(filed, input) && PayloadOf(filed, input, signing) && filed.providerOrderId == ""
    ensures var updated := Patched(filed, SubmitPatch(filed, result), later);
            && TermsOf(updated, input) && PayloadOf(updated, input, signing) && updated.id == filed.id
            && updated.providerOrderId == TrimSpace(result.requestId)
  {
    TrimmedIffFixed("", WHITESPACE);
    assert TrimSpace("") == "";
    hide TrimSpace;
    hide ToUpper;
    hide ToLower;
    hide FieldOf;
  }

  // The outcome, told in the request's own terms.
  lemma AsAsked(m: State, m': State, input: CreateInput, freshId: string, provider: string, now: Time,
                signing: Signing, answer: Option<ActionResult>, later: Time, created: Result<Order, Error>)
    requires freshId != ""
    requires var p := Prepared(input, freshId, provider, now, signing);
             if p.Err? then created == Err(p.error) && m' == m
             else CreateOutcome(m, m', p.value, now, answer, later, created)
    ensures CreatedAsAsked(m, m', input, freshId, signing, answer, created)
  {
    PreparedAsked(input, freshId, provider, now, signing);
    var p := Prepared(input, freshId, provider, now, signing);
    hide Prepared;
    hide Refused;
    hide TermsOf;
    hide PayloadOf;
    hide Patched;
    hide Filed;
    hide SubmitPatch;
    hide Duplicate;
    hide HasDuplicate;
    hide RequestedBefore;
    hide EarlierOf;
    hide TrimSpace;
    hide Fresh;
    if p.Err? {
      forall e | Refused(input, signing, e) ensures created == Err(e) {
        OneRefusal(input, signing, e, p.error);
      }
    } else {
      var order := p.value;
      PreparedPayload(input, freshId, provider, now, signing);
      EarlierIff(m.orders, order, input);
      FiledTerms(order, now, input, signing);
      if answer.Some? {
        SubmittedTerms(Filed(order, "", now), answer.value, later, input, signing);
      }
    }
  }

  lemma EarlierIff(orders: OrderMap, order: Order, input: CreateInput)
    requires TermsOf(order, input)
    ensures HasDuplicate(orders, order) <==> RequestedBefore(orders, input)
    ensures forall existing | Duplicate(existing, order) ::
              EarlierOf(existing, TrimSpace(input.userId), TrimSpace(input.userAddress),
                        TrimSpace(input.clientRequestId))
  {
    DuplicateIsEarlier(orders, order);
    hide Duplicate;
    hide HasDuplicate;
    hide EarlierOf;
    hide TrimSpace;
    hide ToUpper;
    hide ToLower;
  }

  class Service {
    const store: MemoryStore
    const provider: string

    constructor (store: MemoryStore, provider: string)
      ensures this.store == store && this.provider == provider
    {
      this.store, this.provider := store, provider;
    }

    ghost predicate Shows(m: State)
      reads store
    {
      m.orders == store.orders
    }

    method CreateOrder(input: CreateInput, freshId: string, now: Time, signing: Signing,
                       answer: Option<ActionResult>, later: Time, ghost m: State, ghost c: nat)
      returns (created: Result<Order, Error>, ghost steps: seq<Step>)
      requires Shows(m) && Inv(m) && c !in m.calls && freshId != "" && freshId !in m.issued
      modifies store`orders
      ensures Legal(Protocol, m, steps) && Shows(Exec(Protocol, m, steps))
      ensures Exec(Protocol, m, steps).calls == m.calls
      ensures var p := Prepared(input, freshId, provider, now, signing);
              if p.Err? then created == Err(p.error) && steps == []
              else CreateOutcome(m, Exec(Protocol, m, steps), p.value, now, answer, later, created)
      ensures CreatedAsAsked(m, Exec(Protocol, m, steps), input, freshId, signing, answer, created)
    {
      NoSteps(Protocol, m);
      hide CreatedAsAsked;
      hide Inv;
      hide Legal;
      hide Exec;
      hide Prepared;
      hide Fresh;
      hide Filed;
      hide Duplicate;
      hide HasDuplicate;
      hide CreateReturns;
      hide AfterCreate;
      hide SubmitPatch;
      hide Patched;
      hide AfterUpdate;
      steps := [];
      var prepared := Prepare(input, freshId, now, signing);
      if prepared.Err? {
        AsAsked(m, m, input, freshId, provider, now, signing, answer, later, Err(prepared.error));
        return Err(prepared.error), [];
      }
      var order := prepared.value;
      FreshPrepared(input, freshId, provider, now, signing);
      var inserted := store.CreateOrder(order, "", now);
      InsertedEither(m, order, inserted, now);
      if inserted.id != order.id || inserted.providerOrderId != "" || inserted.status != PENDING {
        DuplicateRun(m, c, order, inserted, now);
        steps := [] + [BeginCreate(c, order)] + [Insert(c, inserted, now)];
        created := Ok(inserted);
        AsAsked(m, Exec(Protocol, m, steps), input, freshId, provider, now, signing, answer, later, created);
        return;
      }
      InsertedRun(m, c, order, inserted, now);
      steps := [] + [BeginCreate(c, order)] + [Insert(c, inserted, now)];
      AnsweredRun(m, c, steps, InsertedAt(m, c, order, inserted), inserted, m.calls, answer);
      ghost var s := Exec(Protocol, m, steps + [Submit(c)] + [SubmitReturns(c, answer)]);
      steps := steps + [Submit(c)] + [SubmitReturns(c, answer)];
      if answer.None? {
        created := Err(ProviderFailed);
        AsAsked(m, Exec(Protocol, m, steps), input, freshId, provider, now, signing, answer, later, created);
        return;
      }
      SubmittedOutcome(m.orders, order, inserted, answer.value, later);
      WrittenRun(m, c, steps, s, inserted, m.calls, answer.value, later);
      steps := steps + [SubmitWrite(c, later)];
      var updated := store.UpdateOrder(SubmitPatch(inserted, answer.value), later);
      created := if updated.Ok? then Ok(updated.value) else Err(OrderNotFound);
      AsAsked(m, Exec(Protocol, m, steps), input, freshId, provider, now, signing, answer, later, created);
    }

    // Cancelling marks a stored order cancelled once the exchange accepts; every failure
    // leaves all orders as they were.
    method CancelOrder(orderId: string, presigned: bool, signing: Signing, answer: Option<ActionResult>, now: Time,
                       ghost m: State, ghost c: nat)
      returns (cancelled: Result<Order, Error>, ghost steps: seq<Step>)
      requires Shows(m) && Inv(m) && c !in m.calls
      modifies store`orders
      ensures Legal(Protocol, m, steps) && Exec(Protocol, m, steps) == m.(orders := store.orders)
      ensures cancelled == CancelResult(m.orders, orderId, presigned, signing, answer, now)
      ensures store.orders == if cancelled.Ok? then m.orders[orderId := cancelled.value] else m.orders
      ensures cancelled.Ok? ==>
                cancelled.value.status == CANCELLED && cancelled.value.cancelledAt == Some(answer.value.submittedAt)
      ensures var stored := TrimSpace(orderId) != "" && orderId in m.orders;
              && (cancelled == Err(OrderIdRequired) <==> TrimSpace(orderId) == "")
              && (cancelled == Err(OrderNotFound) <==> TrimSpace(orderId) != "" && orderId !in m.orders)
              && (cancelled == Err(SignerRefused) <==> stored && !presigned && signing.Refuses?)
              && (cancelled == Err(ProviderFailed) <==> stored && (presigned || !signing.Refuses?) && answer.None?)
              && (cancelled.Ok? <==> stored && (presigned || !signing.Refuses?) && answer.Some?)
              && (cancelled.Ok? ==> CancelledAs(m.orders[orderId], cancelled.value, answer.value, now))
    {
      NoSteps(Protocol, m);
      StoredIds(m);
      hide Inv;
      hide Legal;
      hide Exec;
      hide CancelPatch;
      hide CancelledAs;
      hide Patched;
      hide AfterUpdate;
      hide TrimSpace;
      steps := [];
      if TrimSpace(orderId) == "" {
        return Err(OrderIdRequired), [];
      }
      var found := store.GetOrder(orderId);
      if found.Err? {
        return Err(OrderNotFound), [];
      }
      var order := found.value;
      if !presigned && signing.Refuses? {
        return Err(SignerRefused), [];
      }
      CancelAnswered(m, c, orderId, answer);
      steps := [] + [BeginCancel(c, orderId)] + [CancelReturns(c, answer)];
      if answer.None? {
        return Err(ProviderFailed), steps;
      }
      CancelledOutcome(order, answer.value, now);
      CancelledIs(order, answer.value, now);
      CancelWritten(m, c, orderId, answer.value, now);
      var updated := store.UpdateOrder(CancelPatch(order, answer.value), now);
      UpdateIsPut(m.orders, CancelPatch(order, answer.value), now);
      steps := steps + [CancelWrite(c, now)];
      cancelled := if updated.Ok? then Ok(updated.value) else Err(OrderNotFound);
    }

    // A sync stores what the merge of the stored and the reported status says, and nothing
    // when the order or the provider's answer is missing. Only this call trims the id.
    method SyncOrderStatus(orderId: string, answer: Option<StatusReport>, now: Time, ghost m: State, ghost c: nat)
      returns (synced: Result<Order, Error>, ghost steps: seq<Step>)
      requires Shows(m) && Inv(m) && c !in m.calls
      modifies store`orders
      ensures Legal(Protocol, m, steps) && Exec(Protocol, m, steps) == m.(orders := store.orders)
      ensures synced == SyncResult(m.orders, TrimSpace(orderId), answer, provider, now)
      ensures store.orders == if synced.Ok? then m.orders[TrimSpace(orderId) := synced.value] else m.orders
      ensures synced.Ok? ==>
                && synced.value.status == MergeSynced(m.orders[TrimSpace(orderId)].status,
                                              Normalize(answer.value.status))
                && Sound(synced.value)
      ensures var id := TrimSpace(orderId);
              && (synced == Err(OrderIdRequired) <==> id == "")
              && (synced == Err(OrderNotFound) <==> id != "" && id !in m.orders)
              && (synced == Err(ProviderFailed) <==> id != "" && id in m.orders && answer.None?)
              && (synced.Ok? <==> id != "" && id in m.orders && answer.Some?)
              && (synced.Ok? ==>
                    && TakesReport(m.orders[id].status, answer.value.status, synced.value.status)
                    && SyncedAs(m.orders[id], synced.value, answer.value, provider, now))
    {
      NoSteps(Protocol, m);
      StoredIds(m);
      StoredSound(m);
      hide Inv;
      hide Legal;
      hide Exec;
      hide SyncPatch;
      hide SyncedAs;
      hide TakesReport;
      hide Patched;
      hide AfterUpdate;
      hide TrimSpace;
      hide Sound;
      hide MergeSynced;
      hide Normalize;
      steps := [];
      var id := TrimSpace(orderId);
      if id == "" {
        return Err(OrderIdRequired), [];
      }
      var found := store.GetOrder(id);
      if found.Err? {
        return Err(OrderNotFound), [];
      }
      var order := found.value;
      SyncAnsweredRun(m, c, id, answer);
      steps := [] + [BeginSync(c, id)] + [SyncReturns(c, answer)];
      if answer.None? {
        return Err(ProviderFailed), steps;
      }
      SyncedOutcome(order, answer.value, provider, now);
      SyncedIs(order, answer.value, provider, now);
      SyncWritten(m, c, id, answer.value, provider, now);
      var updated := store.UpdateOrder(SyncPatch(order, answer.value, provider, now), now);
      UpdateIsPut(m.orders, SyncPatch(order, answer.value, provider, now), now);
      steps := steps + [SyncWrite(c, provider, now)];
      synced := if updated.Ok? then Ok(updated.value) else Err(OrderNotFound);
    }

    method Prepare(input: CreateInput, freshId: string, now: Time, signing: Signing)
      returns (order: Result<Order, Error>)
      ensures order == Prepared(input, freshId, provider, now, signing)
    {
      hide NormalizeOrder;
      var normalized :- NormalizeOrder(input, freshId, provider, now);
      if input.exchangePayload.None? {
        if signing.Refuses? {
          return Err(SignerRefused);
        }
        normalized := Signed(normalized, signing);
      }
      order := Ok(normalized);
    }
  }

  lemma FreshPrepared(input: CreateInput, freshId: string, provider: string, now: Time, signing: Signing)
    requires freshId != "" && Prepared(input, freshId, provider, now, signing).Ok?
    ensures var order := Prepared(input, freshId, provider, now, signing).value; Fresh(order) && order.id == freshId
    ensures Prepared(input, freshId, provider, now, signing).value.id != ""
  {
  }

  lemma UnissuedUnused(m: State, id: string)
    requires Inv(m) && id !in m.issued
    ensures id !in m.orders
  {
    hide Sound;
    hide SameOwner;
  }

  lemma ReturnsStored(orders: OrderMap, order: Order, created: Order, now: Time)
    requires (forall id | id in orders :: orders[id].id == id) && HasDuplicate(orders, order)
    requires CreateReturns(orders, order, "", now, created)
    ensures Duplicate(created, order) && created.id in orders && orders[created.id] == created
    ensures AfterCreate(orders, order, "", now) == orders
  {
    hide Duplicate;
    hide Filed;
  }

  lemma ReturnsFiled(orders: OrderMap, order: Order, created: Order, now: Time)
    requires Fresh(order) && !HasDuplicate(orders, order) && CreateReturns(orders, order, "", now, created)
    ensures created == Filed(order, "", now) && created.id == order.id && Submittable(created, order)
    ensures AfterCreate(orders, order, "", now) == orders[order.id := created]
  {
    FiledSound(order, now);
    hide Filed;
    hide Duplicate;
    hide Submittable;
    hide Sound;
  }

  // The comparison with the returned order tells a duplicate from the order just inserted.
  lemma InsertedEither(m: State, order: Order, created: Order, now: Time)
    requires Inv(m) && Fresh(order) && order.id !in m.issued
    requires CreateReturns(m.orders, order, "", now, created)
    ensures order.id !in m.orders
    ensures Submittable(created, order) <==> !HasDuplicate(m.orders, order)
    ensures HasDuplicate(m.orders, order) ==>
              && Duplicate(created, order) && created.id in m.orders
              && AfterCreate(m.orders, order, "", now) == m.orders
    ensures !HasDuplicate(m.orders, order) ==>
              && created == Filed(order, "", now) && created.id == order.id
              && AfterCreate(m.orders, order, "", now) == m.orders[order.id := created]
  {
    StoredIds(m);
    UnissuedUnused(m, order.id);
    if HasDuplicate(m.orders, order) {
      ReturnsStored(m.orders, order, created, now);
    } else {
      ReturnsFiled(m.orders, order, created, now);
    }
    hide *;
    assert Submittable(created, order) ==> created.id == order.id by {
      SubmittableId(created, order);
    }
  }

  lemma SubmittableId(created: Order, order: Order)
    ensures Submittable(created, order) ==> created.id == order.id
  {
  }

  // m with call c at the given point and the order's id drawn.
  function At(m: State, c: nat, order: Order, call: Call): State {
    m.(calls := m.calls[c := call], issued := m.issued + {order.id})
  }

  lemma BegunRun(m: State, c: nat, order: Order)
    requires c !in m.calls && Fresh(order) && order.id !in m.issued
    ensures Legal(Protocol, m, [] + [BeginCreate(c, order)])
    ensures Exec(Protocol, m, [] + [BeginCreate(c, order)]) == At(m, c, order, Creating(order))
  {
    hide Legal;
    hide Exec;
    hide Fresh;
    hide Enabled;
    hide After;
    NoSteps(Protocol, m);
    BeginCreateEffect(m, c, order);
    ProtocolStep(m, [], m, BeginCreate(c, order));
  }

  lemma DuplicateRun(m: State, c: nat, order: Order, created: Order, now: Time)
    requires c !in m.calls && Fresh(order) && order.id !in m.issued
    requires CreateReturns(m.orders, order, "", now, created) && !Submittable(created, order)
    requires AfterCreate(m.orders, order, "", now) == m.orders
    ensures var steps := [] + [BeginCreate(c, order)] + [Insert(c, created, now)];
            Legal(Protocol, m, steps) && Exec(Protocol, m, steps) == m.(issued := m.issued + {order.id})
  {
    var s1 := At(m, c, order, Creating(order));
    BegunRun(m, c, order);
    InsertEffect(s1, c, created, now);
    Replaced(m.calls, c, Creating(order), Creating(order));
    hide Legal;
    hide Exec;
    hide Fresh;
    hide Enabled;
    hide After;
    hide CreateReturns;
    hide AfterCreate;
    hide Submittable;
    ProtocolStep(m, [] + [BeginCreate(c, order)], s1, Insert(c, created, now));
  }

  function InsertedAt(m: State, c: nat, order: Order, filed: Order): State {
    At(m, c, order, Inserted(filed)).(orders := m.orders[order.id := filed])
  }

  lemma InsertedRun(m: State, c: nat, order: Order, filed: Order, now: Time)
    requires c !in m.calls && Fresh(order) && order.id !in m.issued
    requires CreateReturns(m.orders, order, "", now, filed) && Submittable(filed, order)
    requires AfterCreate(m.orders, order, "", now) == m.orders[order.id := filed]
    ensures var steps := [] + [BeginCreate(c, order)] + [Insert(c, filed, now)];
            Legal(Protocol, m, steps) && Exec(Protocol, m, steps) == InsertedAt(m, c, order, filed)
  {
    var s1 := At(m, c, order, Creating(order));
    BegunRun(m, c, order);
    InsertEffect(s1, c, filed, now);
    Replaced(m.calls, c, Creating(order), Inserted(filed));
    hide Legal;
    hide Exec;
    hide Fresh;
    hide Enabled;
    hide After;
    hide CreateReturns;
    hide AfterCreate;
    hide Submittable;
    ProtocolStep(m, [] + [BeginCreate(c, order)], s1, Insert(c, filed, now));
  }

  // ... and what follows an insert: the submission and the exchange's answer.
  lemma AnsweredRun(m: State, c: nat, steps: seq<Step>, s: State, filed: Order, calls: map<nat, Call>,
                    answer: Option<ActionResult>)
    requires Legal(Protocol, m, steps) && Exec(Protocol, m, steps) == s
    requires c !in calls && s.calls == calls[c := Inserted(filed)]
    ensures var more := steps + [Submit(c)] + [SubmitReturns(c, answer)];
            && Legal(Protocol, m, more)
            && Exec(Protocol, m, more) ==
                 s.(submissions := s.submissions + [filed.id],
                    calls := if answer.Some? then calls[c := SubmitAccepted(filed, answer.value)] else calls)
  {
    hide Legal;
    hide Exec;
    hide Enabled;
    hide After;
    SubmitEffect(s, c, filed);
    ProtocolStep(m, steps, s, Submit(c));
    var s2 := s.(submissions := s.submissions + [filed.id], calls := calls[c := AwaitingSubmit(filed)]);
    Replaced(calls, c, Inserted(filed), AwaitingSubmit(filed));
    assert After(s, Submit(c)) == s2;
    SubmitReturnsEffect(s2, c, filed, answer);
    Replaced(calls, c, AwaitingSubmit(filed),
             if answer.Some? then SubmitAccepted(filed, answer.value) else Creating(filed));
    ProtocolStep(m, steps + [Submit(c)], s2, SubmitReturns(c, answer));
  }

  lemma WrittenRun(m: State, c: nat, steps: seq<Step>, s: State, filed: Order, calls: map<nat, Call>,
                   result: ActionResult, now: Time)
    requires Legal(Protocol, m, steps) && Exec(Protocol, m, steps) == s
    requires c !in calls && s.calls == calls[c := SubmitAccepted(filed, result)]
    ensures Legal(Protocol, m, steps + [SubmitWrite(c, now)])
    ensures Exec(Protocol, m, steps + [SubmitWrite(c, now)]) ==
            s.(orders := AfterUpdate(s.orders, SubmitPatch(filed, result), now), calls := calls)
  {
    hide Legal;
    hide Exec;
    hide Enabled;
    hide After;
    hide AfterUpdate;
    hide SubmitPatch;
    SubmitWriteEffect(s, c, filed, result, now);
    Replaced(calls, c, SubmitAccepted(filed, result), SubmitAccepted(filed, result));
    ProtocolStep(m, steps, s, SubmitWrite(c, now));
  }

  lemma SubmittedOutcome(orders: OrderMap, order: Order, filed: Order, result: ActionResult, later: Time)
    requires filed.id == order.id
    ensures var patch := SubmitPatch(filed, result);
            var updated := Patched(filed, patch, later);
            && patch.id == order.id
            && AfterUpdate(orders[order.id := filed], patch, later) == orders[order.id := updated]
            && updated.status == SUBMITTED && updated.submittedAt == Some(result.submittedAt)
  {
    StatusFixed();
    hide FixedPoint;
    var patch := SubmitPatch(filed, result);
    assert patch.id == filed.id && patch.status == SUBMITTED && patch.submittedAt == Some(result.submittedAt);
    hide SubmitPatch;
    PatchedStatus(filed, patch, later);
    PatchedSubmission(filed, patch, later);
    hide Patched;
    var stored := orders[order.id := filed];
    UpdateIsPut(stored, patch, later);
    hide AfterUpdate;
    Replaced(orders, order.id, filed, Patched(filed, patch, later));
  }

  lemma PatchedSubmission(existing: Order, patch: Patch, now: Time)
    requires patch.submittedAt.Some?
    ensures Patched(existing, patch, now).submittedAt == patch.submittedAt
  {
    hide FirstNonEmpty;
  }

  function CancelResult(orders: OrderMap, orderId: string, presigned: bool, signing: Signing,
                        answer: Option<ActionResult>, now: Time): Result<Order, Error> {
    if TrimSpace(orderId) == "" then Err(OrderIdRequired)
    else if orderId !in orders then Err(OrderNotFound)
    else if !presigned && signing.Refuses? then Err(SignerRefused)
    else if answer.None? then Err(ProviderFailed)
    else Ok(Patched(orders[orderId], CancelPatch(orders[orderId], answer.value), now))
  }

  function SyncResult(orders: OrderMap, id: string, answer: Option<StatusReport>,
                      provider: string, now: Time): Result<Order, Error> {
    if id == "" then Err(OrderIdRequired)
    else if id !in orders then Err(OrderNotFound)
    else if answer.None? then Err(ProviderFailed)
    else Ok(Patched(orders[id], SyncPatch(orders[id], answer.value, provider, now), now))
  }

  lemma StoredSound(m: State)
    requires Inv(m)
    ensures forall id | id in m.orders :: Sound(m.orders[id])
  {
    hide Sound;
  }

  lemma CancelledOutcome(order: Order, result: ActionResult, now: Time)
    ensures CancelPatch(order, result).id == order.id
    ensures var updated := Patched(order, CancelPatch(order, result), now);
            updated.status == CANCELLED && updated.cancelledAt == Some(result.submittedAt)
  {
    StatusFixed();
    hide FixedPoint;
    var patch := CancelPatch(order, result);
    assert patch.id == order.id && patch.status == CANCELLED && patch.cancelledAt == Some(result.submittedAt);
    hide CancelPatch;
    PatchedStatus(order, patch, now);
    PatchedCancellation(order, patch, now);
    hide Patched;
  }

  lemma PatchedCancellation(existing: Order, patch: Patch, now: Time)
    requires patch.cancelledAt.Some?
    ensures Patched(existing, patch, now).cancelledAt == patch.cancelledAt
  {
    hide FirstNonEmpty;
  }

  lemma SyncedOutcome(order: Order, report: StatusReport, provider: string, now: Time)
    requires Sound(order)
    ensures SyncPatch(order, report, provider, now).id == order.id
    ensures var updated := Patched(order, SyncPatch(order, report, provider, now), now);
            Sound(updated) && updated.status == MergeSynced(order.status, Normalize(report.status))
  {
    var patch := SyncPatch(order, report, provider, now);
    SyncPatchSound(order, report, provider, now);
    assert patch.id == order.id && patch.status == MergeSynced(order.status, Normalize(report.status));
    hide *;
    PatchSound(order, patch, now);
  }

  lemma CancelAnswered(m: State, c: nat, id: string, answer: Option<ActionResult>)
    requires c !in m.calls && id in m.orders
    ensures var steps := [] + [BeginCancel(c, id)] + [CancelReturns(c, answer)];
            && Legal(Protocol, m, steps)
            && Exec(Protocol, m, steps) ==
                 m.(calls := if answer.Some? then m.calls[c := CancelAccepted(m.orders[id], answer.value)] else m.calls)
  {
    hide Legal;
    hide Exec;
    NoSteps(Protocol, m);
    BeginCancelEffect(m, c, id);
    ProtocolStep(m, [], m, BeginCancel(c, id));
    var order := m.orders[id];
    var s := m.(calls := m.calls[c := Cancelling(order)]);
    CancelReturnsEffect(s, c, order, answer);
    hide Enabled;
    hide After;
    Replaced(m.calls, c, Cancelling(order),
             if answer.Some? then CancelAccepted(order, answer.value) else Creating(order));
    ProtocolStep(m, [] + [BeginCancel(c, id)], s, CancelReturns(c, answer));
  }

  lemma CancelWritten(m: State, c: nat, id: string, result: ActionResult, now: Time)
    requires c !in m.calls && id in m.orders
    ensures var steps := [] + [BeginCancel(c, id)] + [CancelReturns(c, Some(result))] + [CancelWrite(c, now)];
            && Legal(Protocol, m, steps)
            && Exec(Protocol, m, steps) ==
                 m.(orders := AfterUpdate(m.orders, CancelPatch(m.orders[id], result), now))
  {
    hide Legal;
    hide Exec;
    CancelAnswered(m, c, id, Some(result));
    var order := m.orders[id];
    var s := m.(calls := m.calls[c := CancelAccepted(order, result)]);
    CancelWriteEffect(s, c, order, result, now);
    hide Enabled;
    hide After;
    hide AfterUpdate;
    hide CancelPatch;
    Replaced(m.calls, c, CancelAccepted(order, result), Creating(order));
    ProtocolStep(m, [] + [BeginCancel(c, id)] + [CancelReturns(c, Some(result))], s, CancelWrite(c, now));
  }

  lemma SyncAnsweredRun(m: State, c: nat, id: string, answer: Option<StatusReport>)
    requires c !in m.calls && id in m.orders
    ensures var steps := [] + [BeginSync(c, id)] + [SyncReturns(c, answer)];
            && Legal(Protocol, m, steps)
            && Exec(Protocol, m, steps) ==
                 m.(calls := if answer.Some? then m.calls[c := SyncAnswered(m.orders[id], answer.value)] else m.calls)
  {
    hide Legal;
    hide Exec;
    NoSteps(Protocol, m);
    BeginSyncEffect(m, c, id);
    ProtocolStep(m, [], m, BeginSync(c, id));
    var order := m.orders[id];
    var s := m.(calls := m.calls[c := Syncing(order)]);
    SyncReturnsEffect(s, c, order, answer);
    hide Enabled;
    hide After;
    Replaced(m.calls, c, Syncing(order), if answer.Some? then SyncAnswered(order, answer.value) else Creating(order));
    ProtocolStep(m, [] + [BeginSync(c, id)], s, SyncReturns(c, answer));
  }

  lemma SyncWritten(m: State, c: nat, id: string, report: StatusReport, provider: string, now: Time)
    requires c !in m.calls && id in m.orders
    ensures var steps := [] + [BeginSync(c, id)] + [SyncReturns(c, Some(report))] + [SyncWrite(c, provider, now)];
            && Legal(Protocol, m, steps)
            && Exec(Protocol, m, steps) ==
                 m.(orders := AfterUpdate(m.orders, SyncPatch(m.orders[id], report, provider, now), now))
  {
    hide Legal;
    hide Exec;
    SyncAnsweredRun(m, c, id, Some(report));
    var order := m.orders[id];
    var s := m.(calls := m.calls[c := SyncAnswered(order, report)]);
    SyncWriteEffect(s, c, order, report, provider, now);
    hide Enabled;
    hide After;
    hide AfterUpdate;
    hide SyncPatch;
    Replaced(m.calls, c, SyncAnswered(order, report), Creating(order));
    ProtocolStep(m, [] + [BeginSync(c, id)] + [SyncReturns(c, Some(report))], s, SyncWrite(c, provider, now));
  }
}

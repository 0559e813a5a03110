// Futures orders and what each store operation does to the order map.
module Orders {
  import opened Results
  import opened Clock
  import opened Text
  import opened OrderStatus

  // Request and response payloads are opaque to the order life cycle.
  type Payload = map<string, string>

  datatype Order = Order(
    id: string, userId: string, userAddress: string,
    symbol: string, side: string, orderType: string, price: string, size: string,
    status: string, cloid: string, provider: string, providerOrderId: string, clientRequestId: string,
    reduceOnly: bool, timeInForce: string, rawPayload: Payload, responsePayload: Payload,
    createdAt: Time, updatedAt: Time, submittedAt: Option<Time>, cancelledAt: Option<Time>)

  type OrderMap = map<string, Order>

  // The fields of an order that UpdateOrder may replace.
  datatype Patch = Patch(
    id: string, status: string, provider: string, providerOrderId: string, responsePayload: Payload,
    submittedAt: Option<Time>, cancelledAt: Option<Time>)

  datatype StatusInput = StatusInput(
    userId: string, userAddress: string, orderId: string, providerOrderId: string, cloid: string, symbol: string)

  // What the provider says about an order.
  datatype StatusReport = StatusReport(
    providerOrderId: string, cloid: string, status: string, payload: Payload, updatedAt: Time)

  // Owners match on user id, else on address; a field that one side leaves empty is a wildcard.
  predicate SameOwner(a: Order, b: Order) {
    if a.userId != "" && b.userId != "" then a.userId == b.userId
    else if a.userAddress != "" && b.userAddress != "" then EqualFold(a.userAddress, b.userAddress)
    else true
  }

  lemma SameOwnerSymmetric(a: Order, b: Order)
    ensures SameOwner(a, a) && (SameOwner(a, b) <==> SameOwner(b, a))
  {
  }

  // Wildcards make the relation intransitive: an order without owner matches both of two
  // orders of different users.
  lemma SameOwnerNotTransitive(o: Order)
    ensures var a, b, c := o.(userId := "u1"), o.(userId := "", userAddress := ""), o.(userId := "u2");
            SameOwner(a, b) && SameOwner(b, c) && !SameOwner(a, c)
  {
    assert "u1"[1] != "u2"[1];
  }

  predicate Duplicate(existing: Order, order: Order) {
    order.clientRequestId != "" && existing.clientRequestId == order.clientRequestId && SameOwner(existing, order)
  }

  predicate HasDuplicate(orders: OrderMap, order: Order) {
    exists id | id in orders :: Duplicate(orders[id], order)
  }

  // The order as the store files it.
  function Filed(order: Order, freshId: string, now: Time): Order {
    order.(id := if order.id == "" then freshId else order.id,
           status := if order.status == "" then PENDING else order.status,
           createdAt := if order.createdAt == ZERO_TIME then now else order.createdAt,
           updatedAt := now)
  }

  function AfterCreate(orders: OrderMap, order: Order, freshId: string, now: Time): OrderMap {
    if HasDuplicate(orders, order) then orders
    else orders[Filed(order, freshId, now).id := Filed(order, freshId, now)]
  }

  // What CreateOrder may return: any stored duplicate, or the order just filed.
  predicate CreateReturns(orders: OrderMap, order: Order, freshId: string, now: Time, created: Order) {
    if HasDuplicate(orders, order) then exists id | id in orders :: orders[id] == created && Duplicate(created, order)
    else created == Filed(order, freshId, now)
  }

  function Patched(existing: Order, patch: Patch, now: Time): Order {
    existing.(
      status := FirstNonEmpty(patch.status, existing.status),
      provider := FirstNonEmpty(patch.provider, existing.provider),
      providerOrderId := FirstNonEmpty(patch.providerOrderId, existing.providerOrderId),
      responsePayload := existing.responsePayload + patch.responsePayload,
      submittedAt := if patch.submittedAt.Some? then patch.submittedAt else existing.submittedAt,
      cancelledAt := if patch.cancelledAt.Some? then patch.cancelledAt else existing.cancelledAt,
      updatedAt := now)
  }

  function AfterUpdate(orders: OrderMap, patch: Patch, now: Time): OrderMap {
    if patch.id in orders then orders[patch.id := Patched(orders[patch.id], patch, now)] else orders
  }

  // A websocket report concerns an order of the same owner with its provider id or cloid.
  predicate Matches(order: Order, input: StatusInput, report: StatusReport) {
    && (input.userAddress != "" && order.userAddress != "" ==> EqualFold(order.userAddress, input.userAddress))
    && (input.userId != "" && order.userId != "" ==> order.userId == input.userId)
    && ((report.providerOrderId != "" && order.providerOrderId == report.providerOrderId) ||
        (report.cloid != "" && order.cloid == report.cloid))
  }

  function Reported(order: Order, report: StatusReport, now: Time): Order {
    var status := MergeSynced(order.status, Normalize(report.status));
    order.(
      status := status,
      cancelledAt := if status == CANCELLED && order.cancelledAt.None? then Some(now) else order.cancelledAt,
      responsePayload := order.responsePayload + report.payload,
      updatedAt := now)
  }

  function AfterReport(orders: OrderMap, input: StatusInput, report: StatusReport, now: Time): OrderMap {
    map id | id in orders ::
      if Matches(orders[id], input, report) then Reported(orders[id], report, now) else orders[id]
  }

  lemma AfterReportKeys(orders: OrderMap, input: StatusInput, report: StatusReport, now: Time)
    ensures AfterReport(orders, input, report, now).Keys == orders.Keys
  {
    hide Matches;
    hide Reported;
  }

  lemma AfterReportAt(orders: OrderMap, id: string, input: StatusInput, report: StatusReport, now: Time)
    requires id in orders
    ensures id in AfterReport(orders, input, report, now)
    ensures AfterReport(orders, input, report, now)[id] ==
              if Matches(orders[id], input, report) then Reported(orders[id], report, now) else orders[id]
  {
    hide Matches;
    hide Reported;
  }

  // What no operation may rewrite, and the marks none may take back. A provider id stays
  // there, but another may take its place: OrderTrace says when.
  predicate Evolves(a: Order, b: Order) {
    && a.id == b.id && a.userId == b.userId && a.userAddress == b.userAddress
    && a.symbol == b.symbol && a.side == b.side && a.orderType == b.orderType
    && a.price == b.price && a.size == b.size && a.cloid == b.cloid
    && a.clientRequestId == b.clientRequestId
    && a.reduceOnly == b.reduceOnly && a.timeInForce == b.timeInForce
    && a.rawPayload == b.rawPayload && a.createdAt == b.createdAt
    && (a.submittedAt.Some? ==> b.submittedAt.Some?)
    && (a.cancelledAt.Some? ==> b.cancelledAt.Some?)
    && (TrimSpace(a.providerOrderId) != "" ==> TrimSpace(b.providerOrderId) != "")
  }

  predicate AllEvolve(before: OrderMap, after: OrderMap) {
    forall id | id in before :: id in after && Evolves(before[id], after[id])
  }

  lemma EvolvesTransitive(a: OrderMap, b: OrderMap, c: OrderMap)
    requires AllEvolve(a, b) && AllEvolve(b, c)
    ensures AllEvolve(a, c)
  {
  }

  // The value is blank or p.
  predicate NamesNoOther(value: string, p: string) {
    TrimSpace(value) == "" || TrimSpace(value) == p
  }

  lemma PatchEvolves(existing: Order, patch: Patch, now: Time)
    ensures Evolves(existing, Patched(existing, patch, now))
    ensures TrimSpace(existing.providerOrderId) == existing.providerOrderId ==>
              (Patched(existing, patch, now).providerOrderId == existing.providerOrderId
               <==> NamesNoOther(patch.providerOrderId, existing.providerOrderId))
  {
    TrimmedIffFixed(existing.providerOrderId, WHITESPACE);
    TrimmedIffFixed(patch.providerOrderId, WHITESPACE);
    TrimmedIffFixed(TrimSpace(existing.providerOrderId), WHITESPACE);
    TrimmedIffFixed(TrimSpace(patch.providerOrderId), WHITESPACE);
  }

  lemma ReportEvolves(orders: OrderMap, input: StatusInput, report: StatusReport, now: Time)
    ensures AllEvolve(orders, AfterReport(orders, input, report, now))
    ensures forall id | id in orders ::
              var after := AfterReport(orders, input, report, now);
              && id in after && after[id].providerOrderId == orders[id].providerOrderId
              && after[id].submittedAt == orders[id].submittedAt && after[id].provider == orders[id].provider
  {
    hide MergeSynced;
    hide Normalize;
    hide TrimSpace;
  }

  // Stored statuses are fixed points of normalisation, and "cancelled" carries its time.
  predicate Sound(order: Order) {
    FixedPoint(order.status) && (order.status == CANCELLED ==> order.cancelledAt.Some?)
  }

  lemma PatchSound(existing: Order, patch: Patch, now: Time)
    requires Sound(existing) && FixedPoint(patch.status)
    requires patch.status == CANCELLED ==> patch.cancelledAt.Some? || existing.cancelledAt.Some?
    ensures Sound(Patched(existing, patch, now)) && Patched(existing, patch, now).status == patch.status
  {
    FixedPointPlain(patch.status);
    hide FixedPoint;
  }

  lemma ReportSound(order: Order, report: StatusReport, now: Time)
    requires Sound(order)
    ensures Sound(Reported(order, report, now))
  {
    MergeKeepsFixed(order.status, report.status);
    hide FixedPoint;
    hide MergeSynced;
    hide Normalize;
  }

  // The order is known to be somebody else's: both sides name an address, and they differ
  // beyond letter case, or both name a user id, and they differ.
  ghost predicate OtherOwner(order: Order, userAddress: string, userId: string) {
    || (order.userAddress != "" && userAddress != "" && !EqualFold(order.userAddress, userAddress))
    || (order.userId != "" && userId != "" && order.userId != userId)
  }

  // The report names the order, by the exchange's id or by the client's.
  ghost predicate Names(report: StatusReport, order: Order) {
    || (report.providerOrderId != "" && report.providerOrderId == order.providerOrderId)
    || (report.cloid != "" && report.cloid == order.cloid)
  }

  // The order has taken the reported status, and the time when that cancels it; nothing
  // else of it but the payload and the update time has changed.
  ghost predicate Landed(before: Order, after: Order, report: StatusReport, now: Time) {
    && TakesReport(before.status, report.status, after.status)
    && after == before.(
         status := after.status, updatedAt := now, responsePayload := before.responsePayload + report.payload,
         cancelledAt := if after.status == CANCELLED && before.cancelledAt.None? then Some(now) else before.cancelledAt)
  }

  // What a report for one owner does to the stored orders: those it names and that are not
  // another owner's take it, and all others stay exactly as they were.
  ghost predicate ReportLanded(before: OrderMap, after: OrderMap, userAddress: string, userId: string,
                               report: StatusReport, now: Time) {
    && after.Keys == before.Keys
    && forall id | id in before ::
         if OtherOwner(before[id], userAddress, userId) || !Names(report, before[id]) then after[id] == before[id]
         else Landed(before[id], after[id], report, now)
  }

  lemma ReportedLanded(order: Order, report: StatusReport, now: Time)
    ensures Landed(order, Reported(order, report, now), report, now)
  {
    MergeTakesReport(order.status, report.status);
    hide TakesReport;
    hide MergeSynced;
    hide Normalize;
  }

  lemma MatchesIff(order: Order, input: StatusInput, report: StatusReport)
    ensures Matches(order, input, report) <==>
              !OtherOwner(order, input.userAddress, input.userId) && Names(report, order)
  {
    hide EqualFold;
  }

  lemma ReportLands(orders: OrderMap, input: StatusInput, report: StatusReport, now: Time)
    ensures ReportLanded(orders, AfterReport(orders, input, report, now), input.userAddress, input.userId, report, now)
  {
    var after := AfterReport(orders, input, report, now);
    AfterReportKeys(orders, input, report, now);
    hide *;
    forall id | id in orders
      ensures if OtherOwner(orders[id], input.userAddress, input.userId) || !Names(report, orders[id])
              then after[id] == orders[id]
              else Landed(orders[id], after[id], report, now)
    {
      AfterReportAt(orders, id, input, report, now);
      MatchesIff(orders[id], input, report);
      ReportedLanded(orders[id], report, now);
    }
    ReportLandedAll(orders, after, input.userAddress, input.userId, report, now);
  }

  lemma ReportLandedAll(before: OrderMap, after: OrderMap, userAddress: string, userId: string,
                        report: StatusReport, now: Time)
    requires after.Keys == before.Keys
    requires forall id | id in before ::
               if OtherOwner(before[id], userAddress, userId) || !Names(report, before[id])
               then after[id] == before[id]
               else Landed(before[id], after[id], report, now)
    ensures ReportLanded(before, after, userAddress, userId, report, now)
  {
    hide OtherOwner;
    hide Names;
    hide Landed;
  }
}

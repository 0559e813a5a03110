// Interleaved order calls. Every store operation is one atomic step; exchange requests and
// answers happen between them, and write-backs use what was read earlier.
module OrderRuns {
  import opened Results
  import opened Runs
  import opened Clock
  import opened Text
  import opened OrderStatus
  import opened Orders

  datatype ActionResult = ActionResult(provider: string, requestId: string, payload: Payload, submittedAt: Time)

  // Where a running service call stands, with what it holds in its local variables.
  datatype Call =
    | Creating(order: Order)
    | Inserted(order: Order)
    | AwaitingSubmit(order: Order)
    | SubmitAccepted(order: Order, result: ActionResult)
    | Cancelling(order: Order)
    | CancelAccepted(order: Order, result: ActionResult)
    | Syncing(order: Order)
    | SyncAnswered(order: Order, report: StatusReport)

  // `issued` are the order ids drawn so far; `submissions` logs the ids sent to the exchange.
  datatype State = State(orders: OrderMap, calls: map<nat, Call>, issued: set<string>, submissions: seq<string>)

  datatype Step =
    | BeginCreate(c: nat, order: Order)
    | Insert(c: nat, created: Order, now: Time)
    | Submit(c: nat)
    | SubmitReturns(c: nat, accepted: Option<ActionResult>)
    | SubmitWrite(c: nat, now: Time)
    | BeginCancel(c: nat, id: string)
    | CancelReturns(c: nat, accepted: Option<ActionResult>)
    | CancelWrite(c: nat, now: Time)
    | BeginSync(c: nat, id: string)
    | SyncReturns(c: nat, answer: Option<StatusReport>)
    | SyncWrite(c: nat, provider: string, now: Time)
    | Abandon(c: nat)     // the signer refuses
    | WsReport(input: StatusInput, report: StatusReport, now: Time)

  function Init(): State {
    State(map[], map[], {}, [])
  }

  // A new order as normalizeOrder builds it.
  predicate Fresh(order: Order) {
    && order.id != "" && order.status == PENDING && order.providerOrderId == ""
    && order.submittedAt.None? && order.cancelledAt.None?
  }

  // CreateOrder submits only what it inserted itself and nobody has submitted yet.
  predicate Submittable(created: Order, order: Order) {
    created.id == order.id && created.providerOrderId == "" && created.status == PENDING
  }

  function SubmitPatch(order: Order, result: ActionResult): Patch {
    Patch(order.id, SUBMITTED, result.provider, result.requestId, result.payload, Some(result.submittedAt), None)
  }

  function CancelPatch(order: Order, result: ActionResult): Patch {
    Patch(order.id, CANCELLED, result.provider, FirstNonEmpty(order.providerOrderId, result.requestId),
          result.payload, None, Some(result.submittedAt))
  }

  function SyncPatch(order: Order, report: StatusReport, provider: string, now: Time): Patch {
    var next := MergeSynced(order.status, Normalize(report.status));
    var updatedAt := if report.updatedAt == ZERO_TIME then now else report.updatedAt;
    Patch(order.id, next, provider, FirstNonEmpty(report.providerOrderId, order.providerOrderId), report.payload,
          None, if next == CANCELLED && order.cancelledAt.None? then Some(updatedAt) else None)
  }

  predicate Enabled(s: State, t: Step) {
    match t
    case BeginCreate(c, order) => c !in s.calls && Fresh(order) && order.id !in s.issued
    case Insert(c, created, now) =>
      c in s.calls && s.calls[c].Creating? && CreateReturns(s.orders, s.calls[c].order, "", now, created)
    case Submit(c) => c in s.calls && s.calls[c].Inserted?
    case SubmitReturns(c, _) => c in s.calls && s.calls[c].AwaitingSubmit?
    case SubmitWrite(c, _) => c in s.calls && s.calls[c].SubmitAccepted?
    case BeginCancel(c, id) => c !in s.calls && id in s.orders
    case CancelReturns(c, _) => c in s.calls && s.calls[c].Cancelling?
    case CancelWrite(c, _) => c in s.calls && s.calls[c].CancelAccepted?
    case BeginSync(c, id) => c !in s.calls && id in s.orders
    case SyncReturns(c, _) => c in s.calls && s.calls[c].Syncing?
    case SyncWrite(c, _, _) => c in s.calls && s.calls[c].SyncAnswered?
    case Abandon(c) => c in s.calls && (s.calls[c].Creating? || s.calls[c].Cancelling?)
    case WsReport(_, _, _) => true
  }

  function After(s: State, t: Step): State {
    if !Enabled(s, t) then s
    else
      match t
      case BeginCreate(c, order) => s.(calls := s.calls[c := Creating(order)], issued := s.issued + {order.id})
      case Insert(c, created, now) =>
        var order := s.calls[c].order;
        s.(orders := AfterCreate(s.orders, order, "", now),
           calls := if Submittable(created, order) then s.calls[c := Inserted(created)] else s.calls - {c})
      case Submit(c) =>
        s.(calls := s.calls[c := AwaitingSubmit(s.calls[c].order)],
           submissions := s.submissions + [s.calls[c].order.id])
      case SubmitReturns(c, accepted) =>
        s.(calls := if accepted.Some? then s.calls[c := SubmitAccepted(s.calls[c].order, accepted.value)]
                    else s.calls - {c})
      case SubmitWrite(c, now) =>
        s.(orders := AfterUpdate(s.orders, SubmitPatch(s.calls[c].order, s.calls[c].result), now),
           calls := s.calls - {c})
      case BeginCancel(c, id) => s.(calls := s.calls[c := Cancelling(s.orders[id])])
      case CancelReturns(c, accepted) =>
        s.(calls := if accepted.Some? then s.calls[c := CancelAccepted(s.calls[c].order, accepted.value)]
                    else s.calls - {c})
      case CancelWrite(c, now) =>
        s.(orders := AfterUpdate(s.orders, CancelPatch(s.calls[c].order, s.calls[c].result), now),
           calls := s.calls - {c})
      case BeginSync(c, id) => s.(calls := s.calls[c := Syncing(s.orders[id])])
      case SyncReturns(c, answer) =>
        s.(calls := if answer.Some? then s.calls[c := SyncAnswered(s.calls[c].order, answer.value)]
                    else s.calls - {c})
      case SyncWrite(c, provider, now) =>
        s.(orders := AfterUpdate(s.orders, SyncPatch(s.calls[c].order, s.calls[c].report, provider, now), now),
           calls := s.calls - {c})
      case Abandon(c) => s.(calls := s.calls - {c})
      case WsReport(input, report, now) => s.(orders := AfterReport(s.orders, input, report, now))
  }

  ghost const Protocol: Machine<State, Step> := Machine((s, t) => Enabled(s, t), (s, t) => After(s, t))

  // Ids name their orders and were drawn; ids drawn for orders still being created are
  // unused and not shared.
  ghost predicate IdsDistinct(s: State) {
    && (forall id | id in s.orders :: s.orders[id].id == id && id in s.issued)
    && (forall c | c in s.calls && s.calls[c].Creating? ::
          var o := s.calls[c].order; Fresh(o) && o.id in s.issued && o.id !in s.orders)
    && (forall c, d | c in s.calls && d in s.calls && c != d && s.calls[c].Creating? && s.calls[d].Creating? ::
          s.calls[c].order.id != s.calls[d].order.id)
  }

  // Each order id went to the exchange at most once, and each pending submission is the
  // only one for its id.
  ghost predicate SubmittedOnce(s: State) {
    && (forall i, j | 0 <= i < j < |s.submissions| :: s.submissions[i] != s.submissions[j])
    && (forall i | 0 <= i < |s.submissions| :: s.submissions[i] in s.orders)
    && (forall c | c in s.calls && s.calls[c].Inserted? ::
          s.calls[c].order.id in s.orders && s.calls[c].order.id !in s.submissions)
    && (forall c, d | c in s.calls && d in s.calls && c != d && s.calls[c].Inserted? && s.calls[d].Inserted? ::
          s.calls[c].order.id != s.calls[d].order.id)
  }

  // No two stored orders with the same client request id have matching owners. Pairwise,
  // because matching owners is not transitive.
  ghost predicate RequestsApart(orders: OrderMap) {
    forall i, j | i in orders && j in orders && i != j && orders[i].clientRequestId != ""
                  && orders[i].clientRequestId == orders[j].clientRequestId ::
      !SameOwner(orders[i], orders[j])
  }

  ghost predicate AllSound(orders: OrderMap) {
    forall id | id in orders :: Sound(orders[id])
  }

  // A call past its read or insert holds an earlier, sound version of a stored order.
  ghost predicate Held(orders: OrderMap, call: Call) {
    !call.Creating? ==>
      && call.order.id in orders && Sound(call.order)
      && (call.order.cancelledAt.Some? ==> orders[call.order.id].cancelledAt.Some?)
  }

  ghost predicate AllHeld(s: State) {
    forall c | c in s.calls :: Held(s.orders, s.calls[c])
  }

  ghost predicate Inv(s: State) {
    IdsDistinct(s) && SubmittedOnce(s) && RequestsApart(s.orders) && AllSound(s.orders) && AllHeld(s)
  }

  lemma ProtocolStep(start: State, steps: seq<Step>, s: State, t: Step)
    requires Legal(Protocol, start, steps) && Exec(Protocol, start, steps) == s && Enabled(s, t)
    ensures Legal(Protocol, start, steps + [t]) && Exec(Protocol, start, steps + [t]) == After(s, t)
  {
    hide Enabled;
    hide After;
    Extend(Protocol, start, steps, t);
  }

  // The effect of each step, spelled out.
  lemma InsertEffect(s: State, c: nat, created: Order, now: Time)
    requires c in s.calls && s.calls[c].Creating? && CreateReturns(s.orders, s.calls[c].order, "", now, created)
    ensures var t, order := Insert(c, created, now), s.calls[c].order;
            && Enabled(s, t)
            && After(s, t) == s.(orders := AfterCreate(s.orders, order, "", now),
                                 calls := if Submittable(created, order) then s.calls[c := Inserted(created)]
                                          else s.calls - {c})
  {
    hide CreateReturns;
    hide AfterCreate;
    hide Submittable;
  }

  lemma BeginCreateEffect(s: State, c: nat, order: Order)
    requires c !in s.calls && Fresh(order) && order.id !in s.issued
    ensures Enabled(s, BeginCreate(c, order))
    ensures After(s, BeginCreate(c, order)) ==
            s.(calls := s.calls[c := Creating(order)], issued := s.issued + {order.id})
  {
    hide Fresh;
  }

  lemma SubmitEffect(s: State, c: nat, order: Order)
    requires c in s.calls && s.calls[c] == Inserted(order)
    ensures Enabled(s, Submit(c))
    ensures After(s, Submit(c)) ==
            s.(calls := s.calls[c := AwaitingSubmit(order)], submissions := s.submissions + [order.id])
  {
  }

  lemma SubmitReturnsEffect(s: State, c: nat, order: Order, answer: Option<ActionResult>)
    requires c in s.calls && s.calls[c] == AwaitingSubmit(order)
    ensures Enabled(s, SubmitReturns(c, answer))
    ensures After(s, SubmitReturns(c, answer)) ==
            s.(calls := if answer.Some? then s.calls[c := SubmitAccepted(order, answer.value)] else s.calls - {c})
  {
  }

  lemma SubmitWriteEffect(s: State, c: nat, order: Order, result: ActionResult, now: Time)
    requires c in s.calls && s.calls[c] == SubmitAccepted(order, result)
    ensures Enabled(s, SubmitWrite(c, now))
    ensures After(s, SubmitWrite(c, now)) ==
            s.(orders := AfterUpdate(s.orders, SubmitPatch(order, result), now), calls := s.calls - {c})
  {
    hide AfterUpdate;
    hide SubmitPatch;
  }

  lemma BeginCancelEffect(s: State, c: nat, id: string)
    requires c !in s.calls && id in s.orders
    ensures Enabled(s, BeginCancel(c, id))
    ensures After(s, BeginCancel(c, id)) == s.(calls := s.calls[c := Cancelling(s.orders[id])])
  {
  }

  lemma CancelReturnsEffect(s: State, c: nat, order: Order, answer: Option<ActionResult>)
    requires c in s.calls && s.calls[c] == Cancelling(order)
    ensures Enabled(s, CancelReturns(c, answer))
    ensures After(s, CancelReturns(c, answer)) ==
            s.(calls := if answer.Some? then s.calls[c := CancelAccepted(order, answer.value)] else s.calls - {c})
  {
  }

  lemma CancelWriteEffect(s: State, c: nat, order: Order, result: ActionResult, now: Time)
    requires c in s.calls && s.calls[c] == CancelAccepted(order, result)
    ensures Enabled(s, CancelWrite(c, now))
    ensures After(s, CancelWrite(c, now)) ==
            s.(orders := AfterUpdate(s.orders, CancelPatch(order, result), now), calls := s.calls - {c})
  {
    hide AfterUpdate;
    hide CancelPatch;
  }

  lemma BeginSyncEffect(s: State, c: nat, id: string)
    requires c !in s.calls && id in s.orders
    ensures Enabled(s, BeginSync(c, id))
    ensures After(s, BeginSync(c, id)) == s.(calls := s.calls[c := Syncing(s.orders[id])])
  {
  }

  lemma SyncReturnsEffect(s: State, c: nat, order: Order, answer: Option<StatusReport>)
    requires c in s.calls && s.calls[c] == Syncing(order)
    ensures Enabled(s, SyncReturns(c, answer))
    ensures After(s, SyncReturns(c, answer)) ==
            s.(calls := if answer.Some? then s.calls[c := SyncAnswered(order, answer.value)] else s.calls - {c})
  {
  }

  lemma SyncWriteEffect(s: State, c: nat, order: Order, report: StatusReport, provider: string, now: Time)
    requires c in s.calls && s.calls[c] == SyncAnswered(order, report)
    ensures Enabled(s, SyncWrite(c, provider, now))
    ensures After(s, SyncWrite(c, provider, now)) ==
            s.(orders := AfterUpdate(s.orders, SyncPatch(order, report, provider, now), now), calls := s.calls - {c})
  {
    hide AfterUpdate;
    hide SyncPatch;
  }

  lemma ReportEffect(s: State, input: StatusInput, report: StatusReport, now: Time)
    ensures Enabled(s, WsReport(input, report, now))
    ensures After(s, WsReport(input, report, now)) == s.(orders := AfterReport(s.orders, input, report, now))
  {
    hide AfterReport;
  }

  lemma StoredIds(s: State)
    requires Inv(s)
    ensures forall id | id in s.orders :: s.orders[id].id == id
  {
  }

  lemma PatchedStatus(existing: Order, patch: Patch, now: Time)
    requires FixedPoint(patch.status)
    ensures Patched(existing, patch, now).status == patch.status
  {
    FixedPointPlain(patch.status);
  }

  lemma UpdateIsPut(orders: OrderMap, patch: Patch, now: Time)
    requires patch.id in orders
    ensures AfterUpdate(orders, patch, now) == orders[patch.id := Patched(orders[patch.id], patch, now)]
  {
  }

  lemma InitInv()
    ensures Inv(Init())
  {
  }

  lemma EvolvedApart(orders: OrderMap, orders': OrderMap)
    requires RequestsApart(orders) && AllEvolve(orders, orders') && orders'.Keys == orders.Keys
    ensures RequestsApart(orders')
  {
    forall i, j | i in orders' && j in orders' && i != j && orders'[i].clientRequestId != ""
                  && orders'[i].clientRequestId == orders'[j].clientRequestId
      ensures !SameOwner(orders'[i], orders'[j])
    {
      assert Evolves(orders[i], orders'[i]) && Evolves(orders[j], orders'[j]);
    }
  }

  lemma EvolvedMarks(a: Order, b: Order)
    requires Evolves(a, b)
    ensures a.id == b.id && (a.cancelledAt.Some? ==> b.cancelledAt.Some?)
  {
    hide TrimSpace;
  }

  // The same ids, and no cancellation time taken back.
  ghost predicate SameMarks(orders: OrderMap, orders': OrderMap) {
    && orders'.Keys == orders.Keys
    && forall id | id in orders ::
         orders'[id].id == orders[id].id && (orders[id].cancelledAt.Some? ==> orders'[id].cancelledAt.Some?)
  }

  lemma EvolvedSameMarks(orders: OrderMap, orders': OrderMap)
    requires AllEvolve(orders, orders') && orders'.Keys == orders.Keys
    ensures SameMarks(orders, orders')
  {
    hide Evolves;
    forall id | id in orders
      ensures orders[id].id == orders'[id].id
      ensures orders[id].cancelledAt.Some? ==> orders'[id].cancelledAt.Some?
    {
      EvolvedMarks(orders[id], orders'[id]);
    }
  }

  lemma EvolvedIds(s: State, orders': OrderMap, calls': map<nat, Call>)
    requires IdsDistinct(s) && SubmittedOnce(s) && SameMarks(s.orders, orders')
    requires forall c | c in calls' :: c in s.calls && calls'[c] == s.calls[c]
    ensures var s' := s.(orders := orders', calls := calls'); IdsDistinct(s') && SubmittedOnce(s')
  {
    hide Fresh;
  }

  lemma EvolvedHeld(s: State, orders': OrderMap, calls': map<nat, Call>)
    requires AllHeld(s) && SameMarks(s.orders, orders')
    requires forall c | c in calls' :: c in s.calls && calls'[c] == s.calls[c]
    ensures AllHeld(s.(orders := orders', calls := calls'))
  {
    hide Sound;
  }

  // Updating one order in place, by any patch, keeps what depends on frozen fields only.
  lemma EvolvedKeeps(s: State, orders': OrderMap, calls': map<nat, Call>)
    requires IdsDistinct(s) && SubmittedOnce(s) && RequestsApart(s.orders) && AllHeld(s)
    requires AllEvolve(s.orders, orders') && orders'.Keys == s.orders.Keys
    requires forall c | c in calls' :: c in s.calls && calls'[c] == s.calls[c]
    ensures var s' := s.(orders := orders', calls := calls');
            IdsDistinct(s') && SubmittedOnce(s') && RequestsApart(orders') && AllHeld(s')
  {
    hide *;
    EvolvedApart(s.orders, orders');
    EvolvedSameMarks(s.orders, orders');
    EvolvedIds(s, orders', calls');
    EvolvedHeld(s, orders', calls');
  }

  // Updated orders with everything but the calls that ended kept.
  lemma UpdateKeeps(s: State, orders': OrderMap, calls': map<nat, Call>)
    requires Inv(s) && AllEvolve(s.orders, orders') && orders'.Keys == s.orders.Keys && AllSound(orders')
    requires forall c | c in calls' :: c in s.calls && calls'[c] == s.calls[c]
    ensures Inv(s.(orders := orders', calls := calls'))
  {
    EvolvedKeeps(s, orders', calls');
  }

  lemma PatchedOrders(orders: OrderMap, patch: Patch, now: Time)
    requires AllSound(orders) && patch.id in orders && FixedPoint(patch.status)
    requires patch.status == CANCELLED ==> patch.cancelledAt.Some? || orders[patch.id].cancelledAt.Some?
    ensures var orders' := AfterUpdate(orders, patch, now);
            AllSound(orders') && AllEvolve(orders, orders') && orders'.Keys == orders.Keys
  {
    PatchEvolves(orders[patch.id], patch, now);
    PatchSound(orders[patch.id], patch, now);
    ReplaceOne(orders, patch.id, Patched(orders[patch.id], patch, now));
    hide AllSound;
    hide AllEvolve;
    hide Patched;
  }

  lemma ReplaceOne(orders: OrderMap, id: string, order: Order)
    requires AllSound(orders) && id in orders && Sound(order) && Evolves(orders[id], order)
    ensures AllSound(orders[id := order]) && AllEvolve(orders, orders[id := order])
    ensures orders[id := order].Keys == orders.Keys
  {
    hide Sound;
    hide Evolves;
    forall i | i in orders ensures Evolves(orders[i], orders[i]) {
      EvolvesSelf(orders[i]);
    }
  }

  lemma EvolvesSelf(order: Order)
    ensures Evolves(order, order)
  {
  }

  lemma PatchKeeps(s: State, c: nat, patch: Patch, now: Time)
    requires Inv(s) && c in s.calls && patch.id in s.orders && FixedPoint(patch.status)
    requires patch.status == CANCELLED ==> patch.cancelledAt.Some? || s.orders[patch.id].cancelledAt.Some?
    ensures var s' := s.(orders := AfterUpdate(s.orders, patch, now), calls := s.calls - {c});
            Inv(s') && AllEvolve(s.orders, s'.orders)
  {
    PatchedOrders(s.orders, patch, now);
    hide *;
    UpdateKeeps(s, AfterUpdate(s.orders, patch, now), s.calls - {c});
  }

  lemma FiledSound(order: Order, now: Time)
    requires Fresh(order)
    ensures Sound(Filed(order, "", now)) && Filed(order, "", now).id == order.id
    ensures Submittable(Filed(order, "", now), order)
  {
    PendingIsFixed();
    NamesApart();
    hide FixedPoint;
  }

  lemma InsertKeeps(s: State, c: nat, created: Order, now: Time)
    requires Inv(s) && Enabled(s, Insert(c, created, now))
    ensures var s' := After(s, Insert(c, created, now)); Inv(s') && AllEvolve(s.orders, s'.orders)
  {
    var order := s.calls[c].order;
    if HasDuplicate(s.orders, order) {
      assert created.id != order.id;
      DropCall(s, c);
    } else {
      FiledSound(order, now);
      InsertNew(s, c, order, Filed(order, "", now));
    }
  }

  lemma InsertNew(s: State, c: nat, order: Order, filed: Order)
    requires Inv(s) && c in s.calls && s.calls[c] == Creating(order) && !HasDuplicate(s.orders, order)
    requires Sound(filed) && filed.id == order.id && filed.clientRequestId == order.clientRequestId
    requires filed.userId == order.userId && filed.userAddress == order.userAddress
    ensures var s' := s.(orders := s.orders[filed.id := filed], calls := s.calls[c := Inserted(filed)]);
            Inv(s') && AllEvolve(s.orders, s'.orders)
  {
    InsertApart(s, order, filed);
    InsertIds(s, c, order, filed);
    InsertUnsubmitted(s, c, order, filed);
    InsertHeld(s, c, order, filed);
    hide Sound;
    hide SameOwner;
    hide IdsDistinct;
    hide SubmittedOnce;
    hide AllHeld;
    hide RequestsApart;
  }

  ghost predicate Inserting(s: State, c: nat, order: Order, filed: Order) {
    && c in s.calls && s.calls[c] == Creating(order) && IdsDistinct(s)
    && filed.id == order.id
  }

  lemma InsertIds(s: State, c: nat, order: Order, filed: Order)
    requires Inserting(s, c, order, filed)
    ensures IdsDistinct(s.(orders := s.orders[filed.id := filed], calls := s.calls[c := Inserted(filed)]))
    ensures filed.id !in s.orders
  {
  }

  lemma InsertUnsubmitted(s: State, c: nat, order: Order, filed: Order)
    requires Inserting(s, c, order, filed) && SubmittedOnce(s)
    ensures SubmittedOnce(s.(orders := s.orders[filed.id := filed], calls := s.calls[c := Inserted(filed)]))
  {
    assert filed.id !in s.orders;
    assert forall i | 0 <= i < |s.submissions| :: s.submissions[i] != filed.id;
    hide IdsDistinct;
  }

  lemma InsertHeld(s: State, c: nat, order: Order, filed: Order)
    requires Inserting(s, c, order, filed) && AllHeld(s) && Sound(filed)
    ensures AllHeld(s.(orders := s.orders[filed.id := filed], calls := s.calls[c := Inserted(filed)]))
    ensures AllEvolve(s.orders, s.orders[filed.id := filed])
  {
    assert filed.id !in s.orders;
    AddedEvolves(s.orders, filed);
    hide IdsDistinct;
    hide Sound;
    hide AllEvolve;
    var s' := s.(orders := s.orders[filed.id := filed], calls := s.calls[c := Inserted(filed)]);
    forall d | d in s'.calls ensures Held(s'.orders, s'.calls[d]) {
      assert d != c ==> Held(s.orders, s.calls[d]);
    }
  }

  lemma AddedEvolves(orders: OrderMap, filed: Order)
    requires filed.id !in orders
    ensures AllEvolve(orders, orders[filed.id := filed])
  {
    hide Evolves;
    forall id | id in orders ensures Evolves(orders[id], orders[id]) {
      EvolvesSelf(orders[id]);
    }
  }

  // A call that ends leaves the rest as it was.
  lemma DropCall(s: State, c: nat)
    requires Inv(s)
    ensures Inv(s.(calls := s.calls - {c})) && AllEvolve(s.orders, s.orders)
  {
    assert AllEvolve(s.orders, s.orders);
    hide *;
    UpdateKeeps(s, s.orders, s.calls - {c});
    assert s.(orders := s.orders, calls := s.calls - {c}) == s.(calls := s.calls - {c});
  }

  // A call that moves on to hold a stored order, submitted or not its own.
  lemma PutCall(s: State, c: nat, call: Call)
    requires Inv(s) && Held(s.orders, call) && !call.Creating? && !call.Inserted?
    ensures Inv(s.(calls := s.calls[c := call]))
  {
    hide Sound;
    hide SameOwner;
  }

  lemma InsertApart(s: State, order: Order, filed: Order)
    requires RequestsApart(s.orders) && !HasDuplicate(s.orders, order) && order.id !in s.orders
    requires filed.id == order.id && filed.clientRequestId == order.clientRequestId
    requires filed.userId == order.userId && filed.userAddress == order.userAddress
    ensures RequestsApart(s.orders[filed.id := filed])
  {
    forall i | i in s.orders && order.clientRequestId != "" && s.orders[i].clientRequestId == order.clientRequestId
      ensures !SameOwner(s.orders[i], filed) && !SameOwner(filed, s.orders[i])
    {
      assert !Duplicate(s.orders[i], order);
      SameOwnerSymmetric(s.orders[i], filed);
    }
  }

  // The whole effect of one enabled step on the invariant and on every stored order.
  lemma StepKeeps(s: State, t: Step)
    requires Inv(s) && Enabled(s, t)
    ensures Inv(After(s, t)) && AllEvolve(s.orders, After(s, t).orders)
  {
    match t
    case Insert(c, created, now) => InsertKeeps(s, c, created, now);
    case SubmitWrite(c, now) =>
      StatusFixed();
      PatchKeeps(s, c, SubmitPatch(s.calls[c].order, s.calls[c].result), now);
    case CancelWrite(c, now) =>
      StatusFixed();
      PatchKeeps(s, c, CancelPatch(s.calls[c].order, s.calls[c].result), now);
    case SyncWrite(c, provider, now) =>
      SyncPatchSound(s.calls[c].order, s.calls[c].report, provider, now);
      PatchKeeps(s, c, SyncPatch(s.calls[c].order, s.calls[c].report, provider, now), now);
    case WsReport(input, report, now) => ReportKeeps(s, input, report, now);
    case _ => QuietStepKeeps(s, t);
  }

  lemma StatusFixed()
    ensures FixedPoint(SUBMITTED) && FixedPoint(CANCELLED) && SUBMITTED != CANCELLED
  {
    PlainNames();
    PlainFolded(SUBMITTED);
    PlainFolded(CANCELLED);
    NamesNormalizeFolded();
    NamesApart();
    hide Folded;
    hide Plain;
    hide NormalizeFolded;
  }

  lemma SyncPatchSound(order: Order, report: StatusReport, provider: string, now: Time)
    requires Sound(order)
    ensures var p := SyncPatch(order, report, provider, now);
            FixedPoint(p.status) && (p.status == CANCELLED ==> p.cancelledAt.Some? || order.cancelledAt.Some?)
  {
    MergeKeepsFixed(order.status, report.status);
    hide FixedPoint;
    hide MergeSynced;
    hide Normalize;
  }

  lemma ReportedOrders(orders: OrderMap, input: StatusInput, report: StatusReport, now: Time)
    requires AllSound(orders)
    ensures var orders' := AfterReport(orders, input, report, now);
            AllSound(orders') && AllEvolve(orders, orders') && orders'.Keys == orders.Keys
  {
    hide Reported;
    hide Sound;
    hide Matches;
    hide AllEvolve;
    ReportEvolves(orders, input, report, now);
    var orders' := AfterReport(orders, input, report, now);
    forall id | id in orders' ensures Sound(orders'[id]) {
      ReportSound(orders[id], report, now);
    }
  }

  lemma ReportKeeps(s: State, input: StatusInput, report: StatusReport, now: Time)
    requires Inv(s)
    ensures var orders' := AfterReport(s.orders, input, report, now);
            Inv(s.(orders := orders')) && AllEvolve(s.orders, orders')
  {
    ReportedOrders(s.orders, input, report, now);
    hide *;
    UpdateKeeps(s, AfterReport(s.orders, input, report, now), s.calls);
    assert s.(orders := AfterReport(s.orders, input, report, now), calls := s.calls)
        == s.(orders := AfterReport(s.orders, input, report, now));
  }

  lemma BeginCreateIds(s: State, c: nat, order: Order)
    requires IdsDistinct(s) && c !in s.calls && Fresh(order) && order.id !in s.issued
    ensures IdsDistinct(s.(calls := s.calls[c := Creating(order)], issued := s.issued + {order.id}))
  {
    hide Fresh;
  }

  lemma BeginCreateRest(s: State, c: nat, order: Order)
    requires SubmittedOnce(s) && AllHeld(s) && c !in s.calls
    ensures var s' := s.(calls := s.calls[c := Creating(order)], issued := s.issued + {order.id});
            SubmittedOnce(s') && AllHeld(s')
  {
    hide Sound;
  }

  lemma BeginCreateKeeps(s: State, c: nat, order: Order)
    requires Inv(s) && Enabled(s, BeginCreate(c, order))
    ensures KeepsOrders(s, After(s, BeginCreate(c, order)))
  {
    hide IdsDistinct;
    hide SubmittedOnce;
    hide RequestsApart;
    hide AllSound;
    hide AllHeld;
    hide AllEvolve;
    hide Fresh;
    EvolveSelf(s.orders);
    BeginCreateIds(s, c, order);
    BeginCreateRest(s, c, order);
  }

  lemma SubmitIds(s: State, c: nat, order: Order)
    requires IdsDistinct(s) && AllHeld(s) && c in s.calls && s.calls[c] == Inserted(order)
    ensures var s' := s.(calls := s.calls[c := AwaitingSubmit(order)], submissions := s.submissions + [order.id]);
            IdsDistinct(s') && AllHeld(s')
  {
    hide Fresh;
    hide Sound;
    assert Held(s.orders, s.calls[c]);
  }

  lemma SubmitOnce(s: State, c: nat, order: Order)
    requires SubmittedOnce(s) && c in s.calls && s.calls[c] == Inserted(order)
    ensures SubmittedOnce(s.(calls := s.calls[c := AwaitingSubmit(order)], submissions := s.submissions + [order.id]))
  {
  }

  lemma SubmitKeeps(s: State, c: nat)
    requires Inv(s) && Enabled(s, Submit(c))
    ensures KeepsOrders(s, After(s, Submit(c)))
  {
    hide IdsDistinct;
    hide SubmittedOnce;
    hide RequestsApart;
    hide AllSound;
    hide AllHeld;
    hide AllEvolve;
    EvolveSelf(s.orders);
    SubmitIds(s, c, s.calls[c].order);
    SubmitOnce(s, c, s.calls[c].order);
  }

  lemma EvolveSelf(orders: OrderMap)
    ensures AllEvolve(orders, orders)
  {
  }

  lemma CallsHeld(s: State)
    requires Inv(s)
    ensures forall c | c in s.calls :: Held(s.orders, s.calls[c])
    ensures forall id | id in s.orders :: Held(s.orders, Cancelling(s.orders[id]))
              && Held(s.orders, Syncing(s.orders[id]))
  {
    hide Sound;
  }

  ghost predicate KeepsOrders(s: State, s': State) {
    Inv(s') && s'.orders == s.orders && AllEvolve(s.orders, s'.orders)
  }

  lemma ReturnsKeeps(s: State, c: nat, call: Option<Call>)
    requires Inv(s) && c in s.calls && !s.calls[c].Creating?
    requires call.Some? ==> call.value.order == s.calls[c].order && !call.value.Creating? && !call.value.Inserted?
    ensures KeepsOrders(s, s.(calls := if call.Some? then s.calls[c := call.value] else s.calls - {c}))
  {
    CallsHeld(s);
    EvolveSelf(s.orders);
    DropCall(s, c);
    hide Inv;
    hide AllEvolve;
    hide Sound;
    if call.Some? {
      PutCall(s, c, call.value);
    }
  }

  lemma ReadKeeps(s: State, c: nat, id: string, call: Call)
    requires Inv(s) && id in s.orders && (call.Cancelling? || call.Syncing?) && call.order == s.orders[id]
    ensures KeepsOrders(s, s.(calls := s.calls[c := call]))
  {
    CallsHeld(s);
    EvolveSelf(s.orders);
    hide Inv;
    hide AllEvolve;
    hide Sound;
    PutCall(s, c, call);
  }

  lemma SubmitReturnsKeeps(s: State, c: nat, accepted: Option<ActionResult>)
    requires Inv(s) && Enabled(s, SubmitReturns(c, accepted))
    ensures KeepsOrders(s, After(s, SubmitReturns(c, accepted)))
  {
    hide Inv;
    hide KeepsOrders;
    ReturnsKeeps(s, c, if accepted.Some? then Some(SubmitAccepted(s.calls[c].order, accepted.value)) else None);
  }

  lemma CancelReturnsKeeps(s: State, c: nat, accepted: Option<ActionResult>)
    requires Inv(s) && Enabled(s, CancelReturns(c, accepted))
    ensures KeepsOrders(s, After(s, CancelReturns(c, accepted)))
  {
    hide Inv;
    hide KeepsOrders;
    ReturnsKeeps(s, c, if accepted.Some? then Some(CancelAccepted(s.calls[c].order, accepted.value)) else None);
  }

  lemma SyncReturnsKeeps(s: State, c: nat, answer: Option<StatusReport>)
    requires Inv(s) && Enabled(s, SyncReturns(c, answer))
    ensures KeepsOrders(s, After(s, SyncReturns(c, answer)))
  {
    hide Inv;
    hide KeepsOrders;
    ReturnsKeeps(s, c, if answer.Some? then Some(SyncAnswered(s.calls[c].order, answer.value)) else None);
  }

  lemma BeginReadKeeps(s: State, c: nat, id: string)
    requires Inv(s) && c !in s.calls && id in s.orders
    ensures KeepsOrders(s, After(s, BeginCancel(c, id)))
    ensures KeepsOrders(s, After(s, BeginSync(c, id)))
  {
    hide Inv;
    hide KeepsOrders;
    ReadKeeps(s, c, id, Cancelling(s.orders[id]));
    ReadKeeps(s, c, id, Syncing(s.orders[id]));
  }

  lemma AbandonKeeps(s: State, c: nat)
    requires Inv(s) && Enabled(s, Abandon(c))
    ensures KeepsOrders(s, After(s, Abandon(c)))
  {
    hide Inv;
    hide AllEvolve;
    DropCall(s, c);
  }

  // Steps that leave the orders alone.
  lemma QuietStepKeeps(s: State, t: Step)
    requires Inv(s) && Enabled(s, t)
    requires !t.Insert? && !t.SubmitWrite? && !t.CancelWrite? && !t.SyncWrite? && !t.WsReport?
    ensures Inv(After(s, t)) && After(s, t).orders == s.orders
    ensures AllEvolve(s.orders, After(s, t).orders)
  {
    assert KeepsOrders(s, After(s, t)) by {
      QuietCases(s, t);
    }
    hide Inv;
    hide AllEvolve;
    hide After;
  }

  lemma QuietCases(s: State, t: Step)
    requires Inv(s) && Enabled(s, t)
    requires !t.Insert? && !t.SubmitWrite? && !t.CancelWrite? && !t.SyncWrite? && !t.WsReport?
    ensures KeepsOrders(s, After(s, t))
  {
    hide *;
    match t
    case BeginCreate(c, order) => BeginCreateKeeps(s, c, order);
    case Submit(c) => SubmitKeeps(s, c);
    case SubmitReturns(c, accepted) => SubmitReturnsKeeps(s, c, accepted);
    case CancelReturns(c, accepted) => CancelReturnsKeeps(s, c, accepted);
    case SyncReturns(c, answer) => SyncReturnsKeeps(s, c, answer);
    case BeginCancel(c, id) => EnabledReads(s, c, id); BeginReadKeeps(s, c, id);
    case BeginSync(c, id) => EnabledReads(s, c, id); BeginReadKeeps(s, c, id);
    case Abandon(c) => AbandonKeeps(s, c);
  }

  lemma EnabledReads(s: State, c: nat, id: string)
    ensures Enabled(s, BeginCancel(c, id)) <==> c !in s.calls && id in s.orders
    ensures Enabled(s, BeginSync(c, id)) <==> c !in s.calls && id in s.orders
  {
  }

  lemma RunKeeps(s: State, steps: seq<Step>)
    requires Inv(s) && Legal(Protocol, s, steps)
    ensures var s' := Exec(Protocol, s, steps); Inv(s') && AllEvolve(s.orders, s'.orders)
  {
    forall a, t | Inv(a) && Protocol.enabled(a, t)
      ensures Inv(Protocol.next(a, t)) && AllEvolve(a.orders, Protocol.next(a, t).orders)
    {
      StepKeeps(a, t);
    }
    forall a: State ensures AllEvolve(a.orders, a.orders) {
      EvolveSelf(a.orders);
    }
    forall a: State, b: State, c: State | AllEvolve(a.orders, b.orders) && AllEvolve(b.orders, c.orders)
      ensures AllEvolve(a.orders, c.orders)
    {
      EvolvesTransitive(a.orders, b.orders, c.orders);
    }
    hide Inv;
    hide AllEvolve;
    Progress(Protocol, a => Inv(a), (a: State, b: State) => AllEvolve(a.orders, b.orders), s, steps);
  }

  lemma HeldByWriter(s: State, c: nat)
    requires Inv(s) && c in s.calls && !s.calls[c].Creating?
    ensures s.calls[c].order.id in s.orders && Sound(s.calls[c].order)
  {
    assert Held(s.orders, s.calls[c]);
    hide Sound;
  }

  lemma InsertElsewhere(s: State, c: nat, created: Order, now: Time, id: string)
    requires Inv(s) && Enabled(s, Insert(c, created, now)) && id in s.orders
    ensures c in s.calls && s.calls[c].Creating?
    ensures CreateReturns(s.orders, s.calls[c].order, "", now, created)
    ensures Submittable(created, s.calls[c].order) ==> created.id != id
  {
    assert s.calls[c].order.id !in s.orders;
    hide CreateReturns;
    hide Sound;
    hide SameOwner;
  }

  // Steps that start nothing leave no call they did not find.
  lemma EndsOnly(s: State, t: Step)
    requires Enabled(s, t)
    requires t.SubmitWrite? || t.CancelWrite? || t.SyncWrite? || t.Abandon? || t.WsReport?
    ensures forall d | d in After(s, t).calls :: d in s.calls && After(s, t).calls[d] == s.calls[d]
    ensures !t.WsReport? ==> t.c in s.calls && t.c !in After(s, t).calls
  {
    hide AfterUpdate;
    hide AfterReport;
    hide SubmitPatch;
    hide CancelPatch;
    hide SyncPatch;
  }

  // A write-back changes the order its call holds and no other.
  lemma WriteTouches(s: State, t: Step, id: string)
    requires Inv(s) && Enabled(s, t) && id in After(s, t).orders
    requires t.SubmitWrite? || t.CancelWrite? || t.SyncWrite?
    ensures id in s.orders && t.c in s.calls
    ensures s.calls[t.c].order.id == id || After(s, t).orders[id] == s.orders[id]
  {
    hide Inv;
    hide Patched;
    hide MergeSynced;
    hide Normalize;
    hide FirstNonEmpty;
    match t
    case SubmitWrite(c, now) =>
    case CancelWrite(c, now) =>
    case SyncWrite(c, provider, now) =>
  }

  lemma SubmitPatches(order: Order, result: ActionResult)
    ensures SubmitPatch(order, result).id == order.id && SubmitPatch(order, result).status == SUBMITTED
    ensures CancelPatch(order, result).id == order.id && CancelPatch(order, result).status == CANCELLED
  {
    hide FirstNonEmpty;
  }

  lemma FiledKeepsId(order: Order, now: Time)
    requires Fresh(order)
    ensures Filed(order, "", now).id == order.id && Filed(order, "", now).status == PENDING
  {
  }

  lemma CreatingIs(s: State, c: nat, created: Order, now: Time)
    requires Inv(s) && Enabled(s, Insert(c, created, now))
    ensures c in s.calls && s.calls[c].Creating? && Fresh(s.calls[c].order) && s.calls[c].order.id !in s.orders
    ensures CreateReturns(s.orders, s.calls[c].order, "", now, created)
  {
    hide CreateReturns;
    hide SubmittedOnce;
    hide RequestsApart;
    hide AllSound;
    hide AllHeld;
  }

  lemma InsertLeaves(s: State, c: nat, created: Order, now: Time, id: string)
    requires Inv(s) && Enabled(s, Insert(c, created, now)) && id in s.orders
    ensures id in After(s, Insert(c, created, now)).orders
    ensures After(s, Insert(c, created, now)).orders[id] == s.orders[id]
  {
    CreatingIs(s, c, created, now);
    InsertEffect(s, c, created, now);
    hide Inv;
    hide Enabled;
    hide After;
    hide Fresh;
    hide HasDuplicate;
    FiledKeepsId(s.calls[c].order, now);
  }

  // Over every interleaving: no order is sent to the exchange twice, and no two orders
  // sent under one client request id have matching owners.
  lemma AtMostOneSubmission(steps: seq<Step>)
    requires Legal(Protocol, Init(), steps)
    ensures var s := Exec(Protocol, Init(), steps);
            && RequestsApart(s.orders)
            && (forall i, j | 0 <= i < j < |s.submissions| ::
                  var a, b := s.submissions[i], s.submissions[j];
                  && a != b && a in s.orders && b in s.orders
                  && (s.orders[a].clientRequestId != ""
                      && s.orders[a].clientRequestId == s.orders[b].clientRequestId ==>
                        !SameOwner(s.orders[a], s.orders[b])))
  {
    InitInv();
    RunKeeps(Init(), steps);
    hide SameOwner;
    hide Sound;
  }

  // Whatever happens in between, a stored order keeps its identity, its terms and its
  // owner, and never loses its submission or cancellation time. Once it has a provider id
  // it has one for good, though not always the same: see OrderTrace.
  lemma OrdersOnlyEvolve(before: seq<Step>, later: seq<Step>)
    requires Legal(Protocol, Init(), before + later)
    ensures AllEvolve(Exec(Protocol, Init(), before).orders, Exec(Protocol, Init(), before + later).orders)
  {
    Append(Protocol, Init(), before, later);
    InitInv();
    RunKeeps(Init(), before);
    RunKeeps(Exec(Protocol, Init(), before), later);
  }

  // Stored statuses are always fixed points of normalisation, and "cancelled" always has
  // its time, even when a sync writes back from a stale read.
  lemma StoredOrdersSound(steps: seq<Step>)
    requires Legal(Protocol, Init(), steps)
    ensures forall id | id in Exec(Protocol, Init(), steps).orders ::
              var o := Exec(Protocol, Init(), steps).orders[id];
              FixedPoint(o.status) && (o.status == CANCELLED ==> o.cancelledAt.Some?)
  {
    InitInv();
    RunKeeps(Init(), steps);
  }

  // A caller whose request already has an order gets an order of that request and a
  // matching owner back, and submits nothing.
  lemma DuplicateCreateSubmitsNothing(s: State, c: nat, created: Order, now: Time)
    requires Inv(s) && Enabled(s, Insert(c, created, now)) && HasDuplicate(s.orders, s.calls[c].order)
    ensures var s' := After(s, Insert(c, created, now));
            && s'.orders == s.orders && c !in s'.calls
            && created.clientRequestId == s.calls[c].order.clientRequestId && SameOwner(created, s.calls[c].order)
  {
    assert created.id != s.calls[c].order.id;
  }
}

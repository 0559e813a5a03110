// How orders become cancelled: step by step, and over runs.
module OrderCancel {
  import opened Results
  import opened Runs
  import opened Clock
  import opened Text
  import opened OrderStatus
  import opened Orders
  import opened OrderRuns

  // The report's word, trimmed and in lower case, holds "cancel".
  ghost predicate SaysCancelled(report: StatusReport) {
    Contains(ToLower(TrimSpace(report.status)), "cancel")
  }

  ghost predicate SaysOpen(report: StatusReport) {
    ToLower(TrimSpace(report.status)) in OPEN_WORDS
  }

  // Exactly which steps make an order cancelled that was not: the write-back of a cancel, a
  // report about it that says so, and a sync that had read it cancelled and was told that
  // it is open.
  ghost predicate Cancels(s: State, t: Step, id: string)
    requires Enabled(s, t) && id in s.orders
  {
    match t
    case CancelWrite(c, _) => s.calls[c].order.id == id
    case SyncWrite(c, _, _) =>
      var order, report := s.calls[c].order, s.calls[c].report;
      order.id == id && (SaysCancelled(report) || (SaysOpen(report) && order.status == CANCELLED))
    case WsReport(input, report, _) =>
      && Names(report, s.orders[id]) && !OtherOwner(s.orders[id], input.userAddress, input.userId)
      && SaysCancelled(report)
    case _ => false
  }

  lemma TakesCancelled(before: string, reported: string, after: string)
    requires TakesReport(before, reported, after) && FixedPoint(before)
    ensures var n := ToLower(TrimSpace(reported));
            after == CANCELLED <==> Contains(n, "cancel") || (n in OPEN_WORDS && before == CANCELLED)
  {
    var n := ToLower(TrimSpace(reported));
    FixedPointPlain(before);
    TerminalFixedPoints(before);
    PlainFolded(before);
    if n in OPEN_WORDS {
      OpenWords(n);
    }
    StatusesApart();
    hide Contains;
    hide TrimSpace;
    hide FixedPoint;
    hide Terminal;
    hide OPEN_WORDS;
    hide SUBMITTED;
    hide CANCELLED;
    hide FILLED;
    hide FAILED;
    hide REJECTED;
  }

  lemma PutStatus(orders: OrderMap, patch: Patch, now: Time, id: string)
    requires patch.id in orders && id in orders && FixedPoint(patch.status)
    ensures id in AfterUpdate(orders, patch, now)
    ensures AfterUpdate(orders, patch, now)[id].status == if patch.id == id then patch.status else orders[id].status
  {
    UpdateIsPut(orders, patch, now);
    PatchedStatus(orders[patch.id], patch, now);
    hide *;
  }

  lemma SyncPatches(order: Order, report: StatusReport, provider: string, now: Time)
    requires Sound(order)
    ensures var patch := SyncPatch(order, report, provider, now);
            && patch.id == order.id && FixedPoint(patch.status)
            && (patch.status == CANCELLED <==>
                  SaysCancelled(report) || (SaysOpen(report) && order.status == CANCELLED))
  {
    SyncPatchSound(order, report, provider, now);
    MergeTakesReport(order.status, report.status);
    TakesCancelled(order.status, report.status, MergeSynced(order.status, Normalize(report.status)));
    hide MergeSynced;
    hide Normalize;
    hide FirstNonEmpty;
    hide FixedPoint;
    hide Contains;
    hide TakesReport;
  }

  lemma WriterIs(s: State, t: Step, id: string)
    requires Enabled(s, t) && id in s.orders && (t.SubmitWrite? || t.CancelWrite? || t.SyncWrite?)
    ensures t.c in s.calls
    ensures t.SubmitWrite? ==> s.calls[t.c].SubmitAccepted? && !Cancels(s, t, id)
    ensures t.CancelWrite? ==> s.calls[t.c].CancelAccepted? && (Cancels(s, t, id) <==> s.calls[t.c].order.id == id)
    ensures t.SyncWrite? ==>
              && s.calls[t.c].SyncAnswered?
              && (Cancels(s, t, id) <==>
                    && s.calls[t.c].order.id == id
                    && (SaysCancelled(s.calls[t.c].report)
                        || (SaysOpen(s.calls[t.c].report) && s.calls[t.c].order.status == CANCELLED)))
  {
    hide SaysCancelled;
    hide SaysOpen;
  }

  lemma WriteCancelsIff(s: State, t: Step, id: string)
    requires Inv(s) && Enabled(s, t) && id in s.orders && s.orders[id].status != CANCELLED
    requires t.SubmitWrite? || t.CancelWrite? || t.SyncWrite?
    ensures id in After(s, t).orders && (After(s, t).orders[id].status == CANCELLED <==> Cancels(s, t, id))
  {
    hide *;
    WriterIs(s, t, id);
    HeldByWriter(s, t.c);
    StatusFixed();
    var call := s.calls[t.c];
    if t.SubmitWrite? {
      SubmitPatches(call.order, call.result);
      SubmitWriteEffect(s, t.c, call.order, call.result, t.now);
      PutStatus(s.orders, SubmitPatch(call.order, call.result), t.now, id);
    } else if t.CancelWrite? {
      SubmitPatches(call.order, call.result);
      CancelWriteEffect(s, t.c, call.order, call.result, t.now);
      PutStatus(s.orders, CancelPatch(call.order, call.result), t.now, id);
    } else {
      SyncPatches(call.order, call.report, t.provider, t.now);
      SyncWriteEffect(s, t.c, call.order, call.report, t.provider, t.now);
      PutStatus(s.orders, SyncPatch(call.order, call.report, t.provider, t.now), t.now, id);
    }
  }

  lemma LandedCancels(before: OrderMap, after: OrderMap, userAddress: string, userId: string, report: StatusReport,
                      now: Time, id: string)
    requires ReportLanded(before, after, userAddress, userId, report, now)
    requires id in before && before[id].status != CANCELLED && FixedPoint(before[id].status)
    ensures id in after
    ensures after[id].status == CANCELLED <==>
              Names(report, before[id]) && !OtherOwner(before[id], userAddress, userId) && SaysCancelled(report)
  {
    if !OtherOwner(before[id], userAddress, userId) && Names(report, before[id]) {
      TakesCancelled(before[id].status, report.status, after[id].status);
    }
    hide OtherOwner;
    hide Names;
    hide TakesReport;
    hide Contains;
    hide FixedPoint;
  }

  lemma ReporterIs(s: State, input: StatusInput, report: StatusReport, now: Time, id: string)
    requires id in s.orders
    ensures Enabled(s, WsReport(input, report, now))
    ensures Cancels(s, WsReport(input, report, now), id) <==>
              && Names(report, s.orders[id]) && !OtherOwner(s.orders[id], input.userAddress, input.userId)
              && SaysCancelled(report)
  {
    hide Names;
    hide OtherOwner;
    hide SaysCancelled;
  }

  lemma ReportCancelsIff(s: State, input: StatusInput, report: StatusReport, now: Time, id: string)
    requires Inv(s) && id in s.orders && s.orders[id].status != CANCELLED
    ensures var t := WsReport(input, report, now);
            && Enabled(s, t) && id in After(s, t).orders
            && (After(s, t).orders[id].status == CANCELLED <==> Cancels(s, t, id))
  {
    hide *;
    var t := WsReport(input, report, now);
    ReporterIs(s, input, report, now, id);
    StoredFixed(s, id);
    ReportEffect(s, input, report, now);
    ReportLands(s.orders, input, report, now);
    LandedCancels(s.orders, After(s, t).orders, input.userAddress, input.userId, report, now, id);
  }

  lemma StoredFixed(s: State, id: string)
    requires Inv(s) && id in s.orders
    ensures FixedPoint(s.orders[id].status)
  {
    hide FixedPoint;
    hide IdsDistinct;
    hide SubmittedOnce;
    hide RequestsApart;
    hide AllHeld;
  }

  lemma OtherCancelsNot(s: State, t: Step, id: string)
    requires Inv(s) && Enabled(s, t) && id in s.orders
    requires !t.SubmitWrite? && !t.CancelWrite? && !t.SyncWrite? && !t.WsReport?
    ensures id in After(s, t).orders && After(s, t).orders[id] == s.orders[id] && !Cancels(s, t, id)
  {
    assert !Cancels(s, t, id);
    hide *;
    if t.Insert? {
      InsertLeaves(s, t.c, t.created, t.now, id);
    } else {
      QuietStepKeeps(s, t);
    }
  }

  lemma StepCancelsIff(s: State, t: Step, id: string)
    requires Inv(s) && Enabled(s, t) && id in s.orders && s.orders[id].status != CANCELLED
    ensures id in After(s, t).orders && (After(s, t).orders[id].status == CANCELLED <==> Cancels(s, t, id))
  {
    hide *;
    match t
    case SubmitWrite(_, _) => WriteCancelsIff(s, t, id);
    case CancelWrite(_, _) => WriteCancelsIff(s, t, id);
    case SyncWrite(_, _, _) => WriteCancelsIff(s, t, id);
    case WsReport(input, report, now) => ReportCancelsIff(s, input, report, now, id);
    case _ => OtherCancelsNot(s, t, id);
  }

  // For every step from a reachable state.
  lemma BecomesCancelledIff(before: seq<Step>, t: Step, id: string)
    requires Legal(Protocol, Init(), before)
    requires var s := Exec(Protocol, Init(), before);
             Enabled(s, t) && id in s.orders && s.orders[id].status != CANCELLED
    ensures var s := Exec(Protocol, Init(), before);
            && id in After(s, t).orders
            && (After(s, t).orders[id].status == CANCELLED <==> Cancels(s, t, id))
  {
    hide *;
    InitInv();
    RunKeeps(Init(), before);
    StepCancelsIff(Exec(Protocol, Init(), before), t, id);
  }

  // The write-back of a cancel of the order, or a report about it, by sync or websocket,
  // that says it is cancelled.
  ghost predicate CancelCause(s: State, t: Step, id: string) {
    match t
    case CancelWrite(c, _) => c in s.calls && s.calls[c].order.id == id
    case SyncWrite(c, _, _) =>
      c in s.calls && s.calls[c].SyncAnswered? && s.calls[c].order.id == id && SaysCancelled(s.calls[c].report)
    case WsReport(input, report, _) =>
      && id in s.orders && Names(report, s.orders[id])
      && !OtherOwner(s.orders[id], input.userAddress, input.userId) && SaysCancelled(report)
    case _ => false
  }

  ghost predicate Caused(steps: seq<Step>, id: string) {
    Happened(Protocol, Init(), steps, (s, t) => CancelCause(s, t, id))
  }

  // Whatever is stored or held as cancelled has its cause in the run.
  ghost predicate AllCaused(s: State, steps: seq<Step>) {
    && (forall id | id in s.orders && s.orders[id].status == CANCELLED :: Caused(steps, id))
    && (forall c | c in s.calls && !s.calls[c].Creating? && s.calls[c].order.status == CANCELLED ::
          Caused(steps, s.calls[c].order.id))
  }

  lemma CausedThen(steps: seq<Step>, id: string)
    requires steps != []
    ensures var front, last := steps[..|steps| - 1], steps[|steps| - 1];
            Caused(front, id) || CancelCause(Exec(Protocol, Init(), front), last, id) ==> Caused(steps, id)
  {
    hide CancelCause;
    HappenedThen(Protocol, Init(), steps, (s, t) => CancelCause(s, t, id));
  }

  // A step that cancels is a cause, or a sync that had read the order cancelled.
  lemma CancelsCause(s: State, t: Step, id: string)
    requires Enabled(s, t) && id in s.orders && Cancels(s, t, id)
    ensures CancelCause(s, t, id) || (t.SyncWrite? && t.c in s.calls && s.calls[t.c].SyncAnswered?
                                      && s.calls[t.c].order.id == id && s.calls[t.c].order.status == CANCELLED)
  {
    hide SaysCancelled;
    hide SaysOpen;
    hide Names;
    hide OtherOwner;
  }

  // The call that a step moves, if it does, holds what it held before, or reads the store,
  // or has just filed its order; the other calls are as they were.
  ghost predicate HoldsOn(s: State, s': State, c: nat) {
    && (forall d | d in s'.calls && d != c :: d in s.calls && s'.calls[d] == s.calls[d])
    && (c in s'.calls ==>
          var call := s'.calls[c];
          || call.Creating?
          || (c in s.calls && !s.calls[c].Creating? && s.calls[c].order == call.order)
          || (call.order.id in s.orders && s.orders[call.order.id] == call.order)
          || call.order.status == PENDING)
  }

  lemma CallMoves(s: State, t: Step)
    requires Enabled(s, t) && (t.Submit? || t.SubmitReturns? || t.CancelReturns? || t.SyncReturns?)
    ensures HoldsOn(s, After(s, t), t.c)
  {
    hide PENDING;
    if t.Submit? {
      SubmitEffect(s, t.c, s.calls[t.c].order);
    } else if t.SubmitReturns? {
      SubmitReturnsEffect(s, t.c, s.calls[t.c].order, t.accepted);
    } else if t.CancelReturns? {
      CancelReturnsEffect(s, t.c, s.calls[t.c].order, t.accepted);
    } else {
      SyncReturnsEffect(s, t.c, s.calls[t.c].order, t.answer);
    }
    hide After;
  }

  lemma CallCreates(s: State, c: nat, order: Order)
    requires Enabled(s, BeginCreate(c, order))
    ensures HoldsOn(s, After(s, BeginCreate(c, order)), c)
  {
    BeginCreateEffect(s, c, order);
    hide Enabled;
    hide After;
    hide Fresh;
    hide PENDING;
  }

  lemma ReadHolds(s: State, s': State, c: nat, call: Call)
    requires s'.calls == s.calls[c := call]
    requires call.order.id in s.orders && s.orders[call.order.id] == call.order
    ensures HoldsOn(s, s', c)
  {
    hide PENDING;
  }

  lemma CallReads(s: State, c: nat, id: string)
    requires Inv(s) && c !in s.calls && id in s.orders
    ensures HoldsOn(s, After(s, BeginCancel(c, id)), c) && HoldsOn(s, After(s, BeginSync(c, id)), c)
  {
    hide *;
    StoredIds(s);
    BeginCancelEffect(s, c, id);
    BeginSyncEffect(s, c, id);
    ReadHolds(s, After(s, BeginCancel(c, id)), c, Cancelling(s.orders[id]));
    ReadHolds(s, After(s, BeginSync(c, id)), c, Syncing(s.orders[id]));
  }

  lemma CallInserts(s: State, c: nat, created: Order, now: Time)
    requires Inv(s) && Enabled(s, Insert(c, created, now))
    ensures HoldsOn(s, After(s, Insert(c, created, now)), c)
  {
    CreatingIs(s, c, created, now);
    InsertEffect(s, c, created, now);
    SubmittablePending(created, s.calls[c].order);
    hide *;
    InsertHolds(s, After(s, Insert(c, created, now)), c, created);
  }

  lemma SubmittablePending(created: Order, order: Order)
    ensures Submittable(created, order) ==> created.status == PENDING
  {
  }

  lemma InsertHolds(s: State, s': State, c: nat, created: Order)
    requires s'.calls == s.calls - {c} || (s'.calls == s.calls[c := Inserted(created)] && created.status == PENDING)
    ensures HoldsOn(s, s', c)
  {
  }

  lemma CallEnds(s: State, t: Step)
    requires Enabled(s, t)
    requires t.SubmitWrite? || t.CancelWrite? || t.SyncWrite? || t.Abandon? || t.WsReport?
    ensures HoldsOn(s, After(s, t), if t.WsReport? then 0 else t.c)
  {
    EndsOnly(s, t);
    hide Enabled;
    hide After;
    hide PENDING;
    if t.WsReport? {
      SameCalls(s, t);
    }
  }

  lemma SameCalls(s: State, t: Step)
    requires t.WsReport?
    ensures After(s, t).calls == s.calls
  {
    hide AfterReport;
  }

  lemma HeldAfter(s: State, t: Step, d: nat)
    requires Inv(s) && Enabled(s, t) && d in After(s, t).calls && !After(s, t).calls[d].Creating?
    ensures var order := After(s, t).calls[d].order;
            || (d in s.calls && !s.calls[d].Creating? && s.calls[d].order == order)
            || (order.id in s.orders && s.orders[order.id] == order)
            || order.status == PENDING
  {
    hide *;
    match t
    case Insert(c, created, now) => CallInserts(s, c, created, now); HoldsAt(s, After(s, t), c, d);
    case BeginCreate(c, order) => CallCreates(s, c, order); HoldsAt(s, After(s, t), c, d);
    case BeginCancel(c, id) => EnabledReads(s, c, id); CallReads(s, c, id); HoldsAt(s, After(s, t), c, d);
    case BeginSync(c, id) => EnabledReads(s, c, id); CallReads(s, c, id); HoldsAt(s, After(s, t), c, d);
    case Submit(c) => CallMoves(s, t); HoldsAt(s, After(s, t), c, d);
    case SubmitReturns(c, _) => CallMoves(s, t); HoldsAt(s, After(s, t), c, d);
    case CancelReturns(c, _) => CallMoves(s, t); HoldsAt(s, After(s, t), c, d);
    case SyncReturns(c, _) => CallMoves(s, t); HoldsAt(s, After(s, t), c, d);
    case SubmitWrite(c, _) => CallEnds(s, t); HoldsAt(s, After(s, t), c, d);
    case CancelWrite(c, _) => CallEnds(s, t); HoldsAt(s, After(s, t), c, d);
    case SyncWrite(c, _, _) => CallEnds(s, t); HoldsAt(s, After(s, t), c, d);
    case Abandon(c) => CallEnds(s, t); HoldsAt(s, After(s, t), c, d);
    case WsReport(_, _, _) => CallEnds(s, t); HoldsAt(s, After(s, t), 0, d);
  }

  lemma HoldsAt(s: State, s': State, c: nat, d: nat)
    requires HoldsOn(s, s', c) && d in s'.calls && !s'.calls[d].Creating?
    ensures var order := s'.calls[d].order;
            || (d in s.calls && !s.calls[d].Creating? && s.calls[d].order == order)
            || (order.id in s.orders && s.orders[order.id] == order)
            || order.status == PENDING
  {
    hide PENDING;
  }

  lemma NewlyStored(s: State, t: Step, id: string)
    requires Inv(s) && Enabled(s, t) && id in After(s, t).orders && id !in s.orders
    ensures After(s, t).orders[id].status == PENDING
  {
    hide *;
    match t
    case Insert(c, created, now) =>
      CreatingIs(s, c, created, now);
      InsertEffect(s, c, created, now);
      FiledKeepsId(s.calls[c].order, now);
      CreateAdds(s.orders, s.calls[c].order, now, id);
    case SubmitWrite(c, now) => WriteAdds(s, t);
    case CancelWrite(c, now) => WriteAdds(s, t);
    case SyncWrite(c, provider, now) => WriteAdds(s, t);
    case WsReport(input, report, now) =>
      ReportEffect(s, input, report, now);
      AfterReportKeys(s.orders, input, report, now);
    case _ => QuietStepKeeps(s, t);
  }

  lemma CreateAdds(orders: OrderMap, order: Order, now: Time, id: string)
    requires id in AfterCreate(orders, order, "", now) && id !in orders
    ensures AfterCreate(orders, order, "", now)[id] == Filed(order, "", now)
  {
    hide HasDuplicate;
    hide Filed;
  }

  lemma WriteAdds(s: State, t: Step)
    requires Enabled(s, t) && (t.SubmitWrite? || t.CancelWrite? || t.SyncWrite?)
    ensures After(s, t).orders.Keys == s.orders.Keys
  {
    hide Patched;
    hide SubmitPatch;
    hide CancelPatch;
    hide SyncPatch;
  }

  lemma PendingNotCancelled()
    ensures PENDING != CANCELLED
  {
    NamesApart();
  }

  // The invariant after one more step.
  lemma CausedStep(s: State, t: Step, steps: seq<Step>)
    requires steps != [] && steps[|steps| - 1] == t && s == Exec(Protocol, Init(), steps[..|steps| - 1])
    requires Inv(s) && Enabled(s, t) && AllCaused(s, steps[..|steps| - 1])
    ensures AllCaused(After(s, t), steps)
  {
    var front, s' := steps[..|steps| - 1], After(s, t);
    PendingNotCancelled();
    hide Inv;
    hide Enabled;
    hide After;
    hide Caused;
    hide Cancels;
    hide CancelCause;
    hide Exec;
    hide CANCELLED;
    hide PENDING;
    forall id | id in s'.orders && s'.orders[id].status == CANCELLED ensures Caused(steps, id) {
      CausedThen(steps, id);
      if id !in s.orders {
        NewlyStored(s, t, id);
      } else if s.orders[id].status != CANCELLED {
        StepCancelsIff(s, t, id);
        CancelsCause(s, t, id);
      }
    }
    forall d | d in s'.calls && !s'.calls[d].Creating? && s'.calls[d].order.status == CANCELLED
      ensures Caused(steps, s'.calls[d].order.id)
    {
      CausedThen(steps, s'.calls[d].order.id);
      HeldAfter(s, t, d);
    }
  }

  lemma {:induction false} RunCaused(steps: seq<Step>)
    requires Legal(Protocol, Init(), steps)
    ensures AllCaused(Exec(Protocol, Init(), steps), steps)
  {
    if steps != [] {
      var front, t := steps[..|steps| - 1], steps[|steps| - 1];
      hide AllCaused;
      hide Enabled;
      hide After;
      hide Inv;
      Unsnoc(Protocol, Init(), steps);
      RunCaused(front);
      InitInv();
      RunKeeps(Init(), front);
      CausedStep(Exec(Protocol, Init(), front), t, steps);
    }
  }

  // Over every interleaving: an order that is stored as cancelled has been cancelled by a
  // cancel's write-back or by a report about it whose word holds "cancel".
  lemma CancelledOnlyByCause(steps: seq<Step>, id: string)
    requires Legal(Protocol, Init(), steps)
    requires var s := Exec(Protocol, Init(), steps); id in s.orders && s.orders[id].status == CANCELLED
    ensures exists i | 0 <= i < |steps| :: CancelCause(Exec(Protocol, Init(), steps[..i]), steps[i], id)
  {
    RunCaused(steps);
    hide CancelCause;
    hide Exec;
    hide Legal;
  }
}

// The exchange's id of a stored order: when it stays, step by step and for good.
module OrderTrace {
  import opened Results
  import opened Runs
  import opened Clock
  import opened Text
  import opened OrderStatus
  import opened Orders
  import opened OrderRuns
  import opened OrderStart

  // Stored provider ids carry no outer spaces.
  ghost predicate AllTrimmed(orders: OrderMap) {
    forall id | id in orders :: TrimSpace(orders[id].providerOrderId) == orders[id].providerOrderId
  }

  lemma PutTrimmed(orders: OrderMap, patch: Patch, now: Time)
    requires AllTrimmed(orders)
    ensures AllTrimmed(AfterUpdate(orders, patch, now))
  {
    if patch.id in orders {
      TrimTwice(patch.providerOrderId);
      TrimTwice(orders[patch.id].providerOrderId);
    }
    hide TrimSpace;
  }

  lemma ReportTrimmed(orders: OrderMap, input: StatusInput, report: StatusReport, now: Time)
    requires AllTrimmed(orders)
    ensures AllTrimmed(AfterReport(orders, input, report, now))
  {
    ReportEvolves(orders, input, report, now);
    AfterReportKeys(orders, input, report, now);
    hide TrimSpace;
    hide AllEvolve;
    hide AfterReport;
  }

  lemma CreateTrimmed(orders: OrderMap, order: Order, now: Time)
    requires AllTrimmed(orders) && Fresh(order)
    ensures AllTrimmed(AfterCreate(orders, order, "", now))
  {
    TrimmedIffFixed("", WHITESPACE);
    hide Trim;
    hide HasDuplicate;
  }

  lemma InsertTrimmed(s: State, c: nat, created: Order, now: Time)
    requires Inv(s) && AllTrimmed(s.orders) && Enabled(s, Insert(c, created, now))
    ensures AllTrimmed(After(s, Insert(c, created, now)).orders)
  {
    assert c in s.calls && Fresh(s.calls[c].order);
    InsertEffect(s, c, created, now);
    CreateTrimmed(s.orders, s.calls[c].order, now);
    hide After;
    hide AllTrimmed;
    hide AfterCreate;
  }

  lemma WriteTrimmed(s: State, t: Step)
    requires AllTrimmed(s.orders) && Enabled(s, t) && (t.SubmitWrite? || t.CancelWrite? || t.SyncWrite?)
    ensures AllTrimmed(After(s, t).orders)
  {
    var call := s.calls[t.c];
    if t.SubmitWrite? {
      PutTrimmed(s.orders, SubmitPatch(call.order, call.result), t.now);
    } else if t.CancelWrite? {
      PutTrimmed(s.orders, CancelPatch(call.order, call.result), t.now);
    } else {
      PutTrimmed(s.orders, SyncPatch(call.order, call.report, t.provider, t.now), t.now);
    }
    hide AllTrimmed;
    hide AfterUpdate;
    hide SubmitPatch;
    hide CancelPatch;
    hide SyncPatch;
  }

  lemma TrimmedStep(s: State, t: Step)
    requires Inv(s) && AllTrimmed(s.orders) && Enabled(s, t)
    ensures AllTrimmed(After(s, t).orders)
  {
    hide *;
    match t
    case Insert(c, created, now) => InsertTrimmed(s, c, created, now);
    case SubmitWrite(_, _) => WriteTrimmed(s, t);
    case CancelWrite(_, _) => WriteTrimmed(s, t);
    case SyncWrite(_, _, _) => WriteTrimmed(s, t);
    case WsReport(input, report, now) =>
      ReportTrimmed(s.orders, input, report, now);
      ReportEffect(s, input, report, now);
    case _ => QuietStepKeeps(s, t);
  }

  lemma RunTrimmed(steps: seq<Step>)
    requires Legal(Protocol, Init(), steps)
    ensures Inv(Exec(Protocol, Init(), steps)) && AllTrimmed(Exec(Protocol, Init(), steps).orders)
  {
    InitInv();
    hide Inv;
    hide Enabled;
    hide After;
    hide TrimSpace;
    forall a, t | Inv(a) && AllTrimmed(a.orders) && Protocol.enabled(a, t)
      ensures Inv(Protocol.next(a, t)) && AllTrimmed(Protocol.next(a, t).orders)
    {
      StepKeeps(a, t);
      TrimmedStep(a, t);
    }
    Invariant(Protocol, a => Inv(a) && AllTrimmed(a.orders), Init(), steps);
  }

  // Exactly when a step leaves an order the provider id it has: when what a write-back on
  // it brings is blank or that id. A submission brings the id it was answered, a cancel and
  // a sync the one they read or were answered, in their own order.
  predicate KeepsProviderId(s: State, t: Step, id: string)
    requires Enabled(s, t) && id in s.orders
  {
    var p := s.orders[id].providerOrderId;
    match t
    case SubmitWrite(c, _) => s.calls[c].order.id != id || NamesNoOther(s.calls[c].result.requestId, p)
    case CancelWrite(c, _) =>
      var order, result := s.calls[c].order, s.calls[c].result;
      order.id != id || NamesNoOther(FirstNonEmpty(order.providerOrderId, result.requestId), p)
    case SyncWrite(c, _, _) =>
      var order, report := s.calls[c].order, s.calls[c].report;
      order.id != id || NamesNoOther(FirstNonEmpty(report.providerOrderId, order.providerOrderId), p)
    case _ => true
  }

  lemma PutKeepsIff(orders: OrderMap, patch: Patch, now: Time, id: string)
    requires patch.id in orders && id in orders && AllTrimmed(orders)
    ensures id in AfterUpdate(orders, patch, now)
    ensures AfterUpdate(orders, patch, now)[id].providerOrderId == orders[id].providerOrderId
            <==> patch.id != id || NamesNoOther(patch.providerOrderId, orders[id].providerOrderId)
  {
    UpdateIsPut(orders, patch, now);
    PatchEvolves(orders[patch.id], patch, now);
    hide AfterUpdate;
    hide Patched;
    hide Evolves;
    hide TrimSpace;
    hide NamesNoOther;
  }

  // What the three write-backs bring.
  lemma SubmitterBrings(s: State, c: nat, now: Time, id: string)
    requires Enabled(s, SubmitWrite(c, now)) && id in s.orders
    ensures c in s.calls && s.calls[c].SubmitAccepted?
    ensures var patch := SubmitPatch(s.calls[c].order, s.calls[c].result);
            && patch.id == s.calls[c].order.id
            && (KeepsProviderId(s, SubmitWrite(c, now), id) <==>
                  patch.id != id || NamesNoOther(patch.providerOrderId, s.orders[id].providerOrderId))
  {
    hide NamesNoOther;
  }

  lemma CancellerBrings(s: State, c: nat, now: Time, id: string)
    requires Enabled(s, CancelWrite(c, now)) && id in s.orders
    ensures c in s.calls && s.calls[c].CancelAccepted?
    ensures var patch := CancelPatch(s.calls[c].order, s.calls[c].result);
            && patch.id == s.calls[c].order.id
            && (KeepsProviderId(s, CancelWrite(c, now), id) <==>
                  patch.id != id || NamesNoOther(patch.providerOrderId, s.orders[id].providerOrderId))
  {
    hide NamesNoOther;
    hide FirstNonEmpty;
  }

  lemma SyncerBrings(s: State, c: nat, provider: string, now: Time, id: string)
    requires Enabled(s, SyncWrite(c, provider, now)) && id in s.orders
    ensures c in s.calls && s.calls[c].SyncAnswered?
    ensures var patch := SyncPatch(s.calls[c].order, s.calls[c].report, provider, now);
            && patch.id == s.calls[c].order.id
            && (KeepsProviderId(s, SyncWrite(c, provider, now), id) <==>
                  patch.id != id || NamesNoOther(patch.providerOrderId, s.orders[id].providerOrderId))
  {
    hide NamesNoOther;
    hide FirstNonEmpty;
    hide MergeSynced;
    hide Normalize;
  }

  lemma SubmitKeepsIff(s: State, c: nat, now: Time, id: string)
    requires Inv(s) && AllTrimmed(s.orders) && Enabled(s, SubmitWrite(c, now)) && id in s.orders
    ensures id in After(s, SubmitWrite(c, now)).orders
    ensures After(s, SubmitWrite(c, now)).orders[id].providerOrderId == s.orders[id].providerOrderId
            <==> KeepsProviderId(s, SubmitWrite(c, now), id)
  {
    hide *;
    SubmitterBrings(s, c, now, id);
    var order, result := s.calls[c].order, s.calls[c].result;
    HeldByWriter(s, c);
    SubmitWriteEffect(s, c, order, result, now);
    PutKeepsIff(s.orders, SubmitPatch(order, result), now, id);
  }

  lemma CancelKeepsIff(s: State, c: nat, now: Time, id: string)
    requires Inv(s) && AllTrimmed(s.orders) && Enabled(s, CancelWrite(c, now)) && id in s.orders
    ensures id in After(s, CancelWrite(c, now)).orders
    ensures After(s, CancelWrite(c, now)).orders[id].providerOrderId == s.orders[id].providerOrderId
            <==> KeepsProviderId(s, CancelWrite(c, now), id)
  {
    hide *;
    CancellerBrings(s, c, now, id);
    var order, result := s.calls[c].order, s.calls[c].result;
    HeldByWriter(s, c);
    CancelWriteEffect(s, c, order, result, now);
    PutKeepsIff(s.orders, CancelPatch(order, result), now, id);
  }

  lemma SyncKeepsIff(s: State, c: nat, provider: string, now: Time, id: string)
    requires Inv(s) && AllTrimmed(s.orders) && Enabled(s, SyncWrite(c, provider, now)) && id in s.orders
    ensures id in After(s, SyncWrite(c, provider, now)).orders
    ensures After(s, SyncWrite(c, provider, now)).orders[id].providerOrderId == s.orders[id].providerOrderId
            <==> KeepsProviderId(s, SyncWrite(c, provider, now), id)
  {
    hide *;
    SyncerBrings(s, c, provider, now, id);
    var order, report := s.calls[c].order, s.calls[c].report;
    HeldByWriter(s, c);
    SyncWriteEffect(s, c, order, report, provider, now);
    PutKeepsIff(s.orders, SyncPatch(order, report, provider, now), now, id);
  }

  lemma ReportKeepsIff(s: State, input: StatusInput, report: StatusReport, now: Time, id: string)
    requires id in s.orders
    ensures var t := WsReport(input, report, now);
            && id in After(s, t).orders && KeepsProviderId(s, t, id)
            && After(s, t).orders[id].providerOrderId == s.orders[id].providerOrderId
  {
    ReportEvolves(s.orders, input, report, now);
    hide AfterReport;
    hide AllEvolve;
  }

  lemma InsertKeepsIff(s: State, c: nat, created: Order, now: Time, id: string)
    requires Inv(s) && Enabled(s, Insert(c, created, now)) && id in s.orders
    ensures var t := Insert(c, created, now);
            id in After(s, t).orders && After(s, t).orders[id] == s.orders[id] && KeepsProviderId(s, t, id)
  {
    assert KeepsProviderId(s, Insert(c, created, now), id);
    hide *;
    InsertLeaves(s, c, created, now, id);
  }

  lemma QuietKeepsIff(s: State, t: Step, id: string)
    requires Inv(s) && Enabled(s, t) && id in s.orders
    requires !t.Insert? && !t.SubmitWrite? && !t.CancelWrite? && !t.SyncWrite? && !t.WsReport?
    ensures id in After(s, t).orders && After(s, t).orders[id] == s.orders[id] && KeepsProviderId(s, t, id)
  {
    QuietStepKeeps(s, t);
    hide Inv;
    hide Enabled;
    hide After;
  }

  // For every step from a reachable state, overlapping others or not.
  lemma ProviderIdKeptIff(before: seq<Step>, t: Step, id: string)
    requires Legal(Protocol, Init(), before)
    requires var s := Exec(Protocol, Init(), before); Enabled(s, t) && id in s.orders
    ensures var s := Exec(Protocol, Init(), before);
            && id in After(s, t).orders
            && (After(s, t).orders[id].providerOrderId == s.orders[id].providerOrderId <==> KeepsProviderId(s, t, id))
  {
    hide *;
    RunTrimmed(before);
    StepKeepsIff(Exec(Protocol, Init(), before), t, id);
  }

  lemma StepKeepsIff(s: State, t: Step, id: string)
    requires Inv(s) && AllTrimmed(s.orders) && Enabled(s, t) && id in s.orders
    ensures id in After(s, t).orders
    ensures After(s, t).orders[id].providerOrderId == s.orders[id].providerOrderId <==> KeepsProviderId(s, t, id)
  {
    hide *;
    match t
    case SubmitWrite(c, now) => SubmitKeepsIff(s, c, now, id);
    case CancelWrite(c, now) => CancelKeepsIff(s, c, now, id);
    case SyncWrite(c, provider, now) => SyncKeepsIff(s, c, provider, now, id);
    case WsReport(input, report, now) => ReportKeepsIff(s, input, report, now, id);
    case Insert(c, created, now) => InsertKeepsIff(s, c, created, now, id);
    case _ => QuietKeepsIff(s, t, id);
  }

  // A running call whose write-back, if any, leaves provider id p on its order, however the
  // exchange answers a submission or a cancel: not a submission before its answer, and not
  // a cancel or a sync that read another id, nor a cancel that read none.
  predicate Loyal(call: Call, p: string) {
    match call
    case Creating(_) => true
    case Inserted(_) => false
    case AwaitingSubmit(_) => false
    case SubmitAccepted(_, result) => NamesNoOther(result.requestId, p)
    case Cancelling(order) => TrimSpace(order.providerOrderId) == p
    case CancelAccepted(order, result) => NamesNoOther(FirstNonEmpty(order.providerOrderId, result.requestId), p)
    case Syncing(order) => NamesNoOther(order.providerOrderId, p)
    case SyncAnswered(order, report) =>
      NamesNoOther(FirstNonEmpty(report.providerOrderId, order.providerOrderId), p)
  }

  // No running call can replace provider id p of order id.
  ghost predicate LoyalFor(s: State, id: string, p: string) {
    forall c | c in s.calls && s.calls[c].order.id == id :: Loyal(s.calls[c], p)
  }

  // A status answer that names no provider id but p or the one it was asked for.
  predicate Echo(order: Order, report: StatusReport, p: string) {
    NamesNoOther(report.providerOrderId, p) || report.providerOrderId == order.providerOrderId
  }

  predicate Echoes(s: State, t: Step, id: string, p: string) {
    t.SyncReturns? && t.answer.Some? && t.c in s.calls && s.calls[t.c].order.id == id ==>
      Echo(s.calls[t.c].order, t.answer.value, p)
  }

  // Runs with such status answers about order id; calls and reports overlap freely.
  ghost function EchoRuns(id: string, p: string): Machine<State, Step> {
    Machine((s, t) => Enabled(s, t) && Echoes(s, t, id, p), (s, t) => After(s, t))
  }

  lemma EchoRunsStep(s: State, t: Step, id: string, p: string)
    ensures EchoRuns(id, p).enabled(s, t) <==> Enabled(s, t) && Echoes(s, t, id, p)
    ensures EchoRuns(id, p).next(s, t) == After(s, t)
  {
    hide Enabled;
    hide Echoes;
    hide After;
  }

  lemma LoyalMoved(s: State, s': State, c: nat, id: string, p: string)
    requires LoyalFor(s, id, p)
    requires forall d | d in s'.calls && d != c :: d in s.calls && s'.calls[d] == s.calls[d]
    requires c in s'.calls && s'.calls[c].order.id == id ==> Loyal(s'.calls[c], p)
    ensures LoyalFor(s', id, p)
  {
    hide Loyal;
  }

  lemma LoyalEnds(s: State, s': State, id: string, p: string)
    requires LoyalFor(s, id, p) && forall d | d in s'.calls :: d in s.calls && s'.calls[d] == s.calls[d]
    ensures LoyalFor(s', id, p)
  {
    hide Loyal;
  }

  // How a loyal call stays loyal when it moves on.
  lemma AnsweredLoyal(order: Order, p: string)
    requires TrimSpace(p) == p != ""
    ensures order.providerOrderId == p ==> Loyal(Cancelling(order), p) && Loyal(Syncing(order), p)
    ensures forall result :: Loyal(Cancelling(order), p) ==> Loyal(CancelAccepted(order, result), p)
    ensures forall report: StatusReport | Echo(order, report, p) ::
              Loyal(Syncing(order), p) ==> Loyal(SyncAnswered(order, report), p)
  {
    TrimTwice(order.providerOrderId);
    forall value: string ensures TrimSpace(TrimSpace(value)) == TrimSpace(value) {
      TrimTwice(value);
    }
    hide TrimSpace;
  }

  lemma LoyalSubmits(s: State, t: Step, id: string, p: string)
    requires Enabled(s, t) && LoyalFor(s, id, p) && (t.Submit? || t.SubmitReturns?)
    ensures LoyalFor(After(s, t), id, p)
  {
    if t.Submit? {
      SubmitEffect(s, t.c, s.calls[t.c].order);
    } else {
      SubmitReturnsEffect(s, t.c, s.calls[t.c].order, t.accepted);
    }
    hide After;
    hide NamesNoOther;
    LoyalMoved(s, After(s, t), t.c, id, p);
  }

  lemma LoyalReturns(s: State, t: Step, id: string, p: string)
    requires TrimSpace(p) == p != ""
    requires Enabled(s, t) && Echoes(s, t, id, p) && LoyalFor(s, id, p) && (t.CancelReturns? || t.SyncReturns?)
    ensures LoyalFor(After(s, t), id, p)
  {
    AnsweredLoyal(s.calls[t.c].order, p);
    if t.CancelReturns? {
      CancelReturnsEffect(s, t.c, s.calls[t.c].order, t.accepted);
    } else {
      SyncReturnsEffect(s, t.c, s.calls[t.c].order, t.answer);
    }
    hide After;
    hide Loyal;
    hide Echo;
    LoyalMoved(s, After(s, t), t.c, id, p);
  }

  lemma LoyalBegins(s: State, c: nat, i: string, id: string, p: string)
    requires Inv(s) && c !in s.calls && i in s.orders && TrimSpace(p) == p != ""
    requires id in s.orders && s.orders[id].providerOrderId == p && LoyalFor(s, id, p)
    ensures LoyalFor(After(s, BeginCancel(c, i)), id, p) && LoyalFor(After(s, BeginSync(c, i)), id, p)
  {
    hide *;
    StoredIds(s);
    AnsweredLoyal(s.orders[i], p);
    BeginCancelEffect(s, c, i);
    BeginSyncEffect(s, c, i);
    LoyalMoved(s, After(s, BeginCancel(c, i)), c, id, p);
    LoyalMoved(s, After(s, BeginSync(c, i)), c, id, p);
  }

  lemma LoyalCreates(s: State, c: nat, order: Order, id: string, p: string)
    requires Enabled(s, BeginCreate(c, order)) && LoyalFor(s, id, p)
    ensures LoyalFor(After(s, BeginCreate(c, order)), id, p)
  {
    BeginCreateEffect(s, c, order);
    hide After;
    hide Fresh;
    LoyalMoved(s, After(s, BeginCreate(c, order)), c, id, p);
  }

  lemma LoyalInserts(s: State, c: nat, created: Order, now: Time, id: string, p: string)
    requires Inv(s) && Enabled(s, Insert(c, created, now)) && id in s.orders && LoyalFor(s, id, p)
    ensures LoyalFor(After(s, Insert(c, created, now)), id, p)
  {
    hide *;
    InsertElsewhere(s, c, created, now, id);
    InsertEffect(s, c, created, now);
    LoyalMoved(s, After(s, Insert(c, created, now)), c, id, p);
  }

  // Order id carries p, and no running call can change that.
  ghost predicate Named(s: State, id: string, p: string) {
    Inv(s) && AllTrimmed(s.orders) && id in s.orders && s.orders[id].providerOrderId == p && LoyalFor(s, id, p)
  }

  lemma LoyalStep(s: State, t: Step, id: string, p: string)
    requires Named(s, id, p) && TrimSpace(p) == p != "" && Enabled(s, t) && Echoes(s, t, id, p)
    ensures LoyalFor(After(s, t), id, p)
  {
    assert Inv(s) && id in s.orders && s.orders[id].providerOrderId == p && LoyalFor(s, id, p);
    hide *;
    match t
    case BeginCreate(c, order) => LoyalCreates(s, c, order, id, p);
    case Insert(c, created, now) => LoyalInserts(s, c, created, now, id, p);
    case Submit(_) => LoyalSubmits(s, t, id, p);
    case SubmitReturns(_, _) => LoyalSubmits(s, t, id, p);
    case CancelReturns(_, _) => LoyalReturns(s, t, id, p);
    case SyncReturns(_, _) => LoyalReturns(s, t, id, p);
    case BeginCancel(c, i) =>
      EnabledReads(s, c, i);
      LoyalBegins(s, c, i, id, p);
    case BeginSync(c, i) =>
      EnabledReads(s, c, i);
      LoyalBegins(s, c, i, id, p);
    case _ =>
      EndsOnly(s, t);
      LoyalEnds(s, After(s, t), id, p);
  }

  lemma LoyalKeeps(s: State, t: Step, id: string)
    requires Enabled(s, t) && id in s.orders && LoyalFor(s, id, s.orders[id].providerOrderId)
    ensures KeepsProviderId(s, t, id)
  {
    hide NamesNoOther;
    hide FirstNonEmpty;
    hide TrimSpace;
    hide CreateReturns;
    hide Fresh;
  }

  lemma NamedKept(s: State, t: Step, id: string, p: string)
    requires Named(s, id, p) && TrimSpace(p) == p != "" && Enabled(s, t) && Echoes(s, t, id, p)
    ensures Named(After(s, t), id, p)
  {
    LoyalStep(s, t, id, p);
    hide Inv;
    hide AllTrimmed;
    hide LoyalFor;
    hide Enabled;
    hide After;
    hide Echoes;
    hide KeepsProviderId;
    StepKeeps(s, t);
    TrimmedStep(s, t);
    LoyalKeeps(s, t, id);
    StepKeepsIff(s, t, id);
  }

  lemma NamedForever(s: State, later: seq<Step>, id: string, p: string)
    requires Named(s, id, p) && TrimSpace(p) == p != "" && Legal(EchoRuns(id, p), s, later)
    ensures Named(Exec(EchoRuns(id, p), s, later), id, p)
  {
    hide Named;
    hide EchoRuns;
    forall a, t | Named(a, id, p) && EchoRuns(id, p).enabled(a, t) ensures Named(EchoRuns(id, p).next(a, t), id, p) {
      EchoRunsStep(a, t, id, p);
      NamedKept(a, t, id, p);
    }
    Invariant(EchoRuns(id, p), a => Named(a, id, p), s, later);
  }

  // How far a call is from its write-back.
  function Distance(call: Call): nat {
    match call
    case Inserted(_) => 2
    case AwaitingSubmit(_) => 1
    case Cancelling(_) => 1
    case Syncing(_) => 1
    case _ => 0
  }

  function Accepted(p: string): ActionResult {
    ActionResult(EXCHANGE, if p == OID then "2" else OID, map[], STARTED)
  }

  function EchoReport(order: Order): StatusReport {
    StatusReport(order.providerOrderId, order.cloid, SUBMITTED, map[], STARTED)
  }

  // The step that brings such a call forward, with another id where it is for the exchange
  // to choose one.
  function Forward(c: nat, call: Call, p: string): Step {
    match call
    case Inserted(_) => Submit(c)
    case AwaitingSubmit(_) => SubmitReturns(c, Some(Accepted(p)))
    case Cancelling(_) => CancelReturns(c, Some(Accepted(p)))
    case CancelAccepted(_, _) => CancelWrite(c, STARTED)
    case Syncing(order) => SyncReturns(c, Some(EchoReport(order)))
    case SyncAnswered(_, _) => SyncWrite(c, EXCHANGE, STARTED)
    case _ => SubmitWrite(c, STARTED)
  }

  lemma AcceptedNamesOther(p: string)
    ensures TrimSpace(Accepted(p).requestId) == Accepted(p).requestId
    ensures Accepted(p).requestId != "" && Accepted(p).requestId != p
  {
    TrimmedIffFixed(OID, WHITESPACE);
    TrimmedIffFixed("2", WHITESPACE);
    hide Trim;
  }

  // How a call that is not loyal stays so when the exchange answers it.
  lemma AnsweredDisloyal(order: Order, p: string)
    ensures !Loyal(SubmitAccepted(order, Accepted(p)), p)
    ensures !Loyal(Cancelling(order), p) ==> !Loyal(CancelAccepted(order, Accepted(p)), p)
    ensures !Loyal(Syncing(order), p) ==> !Loyal(SyncAnswered(order, EchoReport(order)), p)
    ensures Echo(order, EchoReport(order), p)
  {
    AcceptedNamesOther(p);
    TrimTwice(order.providerOrderId);
    hide TrimSpace;
    hide Accepted;
  }

  // Short of its write-back, such a call moves on and stays so.
  lemma ForwardDisloyal(s: State, c: nat, p: string)
    requires c in s.calls && !Loyal(s.calls[c], p) && Distance(s.calls[c]) > 0
    ensures var t := Forward(c, s.calls[c], p);
            && Enabled(s, t) && Echoes(s, t, s.calls[c].order.id, p)
            && !t.Insert? && !t.SubmitWrite? && !t.CancelWrite? && !t.SyncWrite? && !t.WsReport?
            && var s' := After(s, t);
               && c in s'.calls && s'.calls[c].order == s.calls[c].order
               && !Loyal(s'.calls[c], p) && Distance(s'.calls[c]) < Distance(s.calls[c])
  {
    var order := s.calls[c].order;
    AnsweredDisloyal(order, p);
    hide After;
    hide Enabled;
    hide Echo;
    hide Accepted;
    hide EchoReport;
    hide NamesNoOther;
    if s.calls[c].Inserted? {
      SubmitEffect(s, c, order);
    } else if s.calls[c].AwaitingSubmit? {
      SubmitReturnsEffect(s, c, order, Some(Accepted(p)));
    } else if s.calls[c].Cancelling? {
      CancelReturnsEffect(s, c, order, Some(Accepted(p)));
    } else {
      SyncReturnsEffect(s, c, order, Some(EchoReport(order)));
    }
  }

  // Its write-back replaces the id.
  lemma WriteBackRenames(s: State, c: nat, id: string)
    requires id in s.orders && c in s.calls && s.calls[c].order.id == id && Distance(s.calls[c]) == 0
    requires !Loyal(s.calls[c], s.orders[id].providerOrderId)
    ensures var t := Forward(c, s.calls[c], s.orders[id].providerOrderId);
            Enabled(s, t) && Echoes(s, t, id, s.orders[id].providerOrderId) && !KeepsProviderId(s, t, id)
  {
    hide NamesNoOther;
    hide FirstNonEmpty;
  }

  lemma Renames(s: State, c: nat, id: string, p: string) returns (later: seq<Step>)
    requires Inv(s) && AllTrimmed(s.orders) && id in s.orders && s.orders[id].providerOrderId == p
    requires c in s.calls && s.calls[c].order.id == id && !Loyal(s.calls[c], p)
    ensures Legal(EchoRuns(id, p), s, later)
    ensures var s' := Exec(EchoRuns(id, p), s, later); id in s'.orders && s'.orders[id].providerOrderId != p
    decreases Distance(s.calls[c])
  {
    hide *;
    var t := Forward(c, s.calls[c], p);
    var s1 := After(s, t);
    NoSteps(EchoRuns(id, p), s1);
    EchoRunsStep(s, t, id, p);
    if Distance(s.calls[c]) == 0 {
      WriteBackRenames(s, c, id);
      StepKeepsIff(s, t, id);
      Prepend(EchoRuns(id, p), s, t, []);
      later := [t] + [];
    } else {
      ForwardDisloyal(s, c, p);
      QuietStepKeeps(s, t);
      var more := Renames(s1, c, id, p);
      Prepend(EchoRuns(id, p), s, t, more);
      later := [t] + more;
    }
  }

  // Exactly when an order keeps its provider id for good, whatever calls and reports follow
  // and however they overlap, as long as status answers about it name no third id: when no
  // running call can replace it. That shuts out an unanswered submission of its own, a
  // cancel that read it before it had its id, and every call that read another id.
  lemma ProviderIdForeverIff(before: seq<Step>, id: string)
    requires Legal(Protocol, Init(), before)
    requires var s := Exec(Protocol, Init(), before); id in s.orders && s.orders[id].providerOrderId != ""
    ensures var s := Exec(Protocol, Init(), before);
            var p := s.orders[id].providerOrderId;
            (forall later | Legal(EchoRuns(id, p), s, later) ::
               var s' := Exec(EchoRuns(id, p), s, later); id in s'.orders && s'.orders[id].providerOrderId == p)
            <==> LoyalFor(s, id, p)
  {
    var s := Exec(Protocol, Init(), before);
    var p := s.orders[id].providerOrderId;
    RunTrimmed(before);
    TrimmedAt(s.orders, id);
    hide Legal;
    hide Exec;
    hide Inv;
    hide AllTrimmed;
    hide EchoRuns;
    if LoyalFor(s, id, p) {
      assert Named(s, id, p);
      hide Named;
      hide LoyalFor;
      forall later | Legal(EchoRuns(id, p), s, later)
        ensures var s' := Exec(EchoRuns(id, p), s, later); id in s'.orders && s'.orders[id].providerOrderId == p
      {
        NamedForever(s, later, id, p);
        NamedAt(Exec(EchoRuns(id, p), s, later), id, p);
      }
    } else {
      hide Loyal;
      var c :| c in s.calls && s.calls[c].order.id == id && !Loyal(s.calls[c], p);
      var later := Renames(s, c, id, p);
    }
  }

  lemma TrimmedAt(orders: OrderMap, id: string)
    requires AllTrimmed(orders) && id in orders
    ensures TrimSpace(orders[id].providerOrderId) == orders[id].providerOrderId
  {
    hide TrimSpace;
  }

  lemma NamedAt(s: State, id: string, p: string)
    requires Named(s, id, p)
    ensures id in s.orders && s.orders[id].providerOrderId == p
  {
    hide Inv;
    hide AllTrimmed;
    hide LoyalFor;
  }

  // A status answer with a third id replaces the stored one, from every reachable state and
  // with no other call involved: the order is read, the answer arrives and is written back.
  lemma SyncRenames(before: seq<Step>, c: nat, id: string, report: StatusReport, provider: string, now: Time)
    requires Legal(Protocol, Init(), before) && TrimSpace(report.providerOrderId) != ""
    requires var s := Exec(Protocol, Init(), before); c !in s.calls && id in s.orders
    ensures var run := before + [BeginSync(c, id), SyncReturns(c, Some(report)), SyncWrite(c, provider, now)];
            var end := Exec(Protocol, Init(), run);
            && Legal(Protocol, Init(), run)
            && id in end.orders && end.orders[id].providerOrderId == TrimSpace(report.providerOrderId)
  {
    var s := Exec(Protocol, Init(), before);
    RunTrimmed(before);
    StoredIds(s);
    hide *;
    var order := s.orders[id];
    var patch := SyncPatch(order, report, provider, now);
    SyncBrings(order, report, provider, now, s.orders);
    BeginSyncEffect(s, c, id);
    ProtocolStep(Init(), before, s, BeginSync(c, id));
    var s1 := After(s, BeginSync(c, id));
    SyncReturnsEffect(s1, c, order, Some(report));
    ProtocolStep(Init(), before + [BeginSync(c, id)], s1, SyncReturns(c, Some(report)));
    var s2 := After(s1, SyncReturns(c, Some(report)));
    SyncWriteEffect(s2, c, order, report, provider, now);
    ProtocolStep(Init(), before + [BeginSync(c, id)] + [SyncReturns(c, Some(report))], s2, SyncWrite(c, provider, now));
    AfterThree(before, BeginSync(c, id), SyncReturns(c, Some(report)), SyncWrite(c, provider, now));
  }

  lemma SyncBrings(order: Order, report: StatusReport, provider: string, now: Time, orders: OrderMap)
    requires order.id in orders && TrimSpace(report.providerOrderId) != ""
    ensures var orders' := AfterUpdate(orders, SyncPatch(order, report, provider, now), now);
            order.id in orders' && orders'[order.id].providerOrderId == TrimSpace(report.providerOrderId)
  {
    TrimTwice(report.providerOrderId);
    hide TrimSpace;
    hide MergeSynced;
    hide Normalize;
  }

  // A cancel that reads the order before the exchange has answered its submission, and ends
  // after it: the id of the cancel request replaces the order's own.
  function NamedDuringCancel(order: Order, accepted: ActionResult): seq<Step> {
    SentSteps(order) + [BeginCancel(1, order.id), SubmitReturns(0, Some(accepted)), SubmitWrite(0, STARTED)]
  }

  function LateCancel(cancelled: ActionResult): seq<Step> {
    [CancelReturns(1, Some(cancelled)), CancelWrite(1, STARTED)]
  }

  // The state between the two write-backs.
  function NamedState(order: Order, accepted: ActionResult): State {
    var filed := FiledOrder(order);
    State(map[order.id := Patched(filed, SubmitPatch(filed, accepted), STARTED)], map[1 := Cancelling(filed)],
          {order.id}, [order.id])
  }

  // The submission's call beside the cancel.
  function Beside(filed: Order, call: Call): map<nat, Call> {
    map[1 := Cancelling(filed)][0 := call]
  }

  lemma BesideIs(filed: Order, call: Call, next: Call)
    ensures map[0 := call][1 := Cancelling(filed)] == Beside(filed, call)
    ensures 0 in Beside(filed, call) && Beside(filed, call)[0] == call
    ensures Beside(filed, call)[0 := next] == Beside(filed, next)
    ensures Beside(filed, call) - {0} == map[1 := Cancelling(filed)]
  {
  }

  lemma CancelReads(order: Order, filed: Order, accepted: ActionResult)
    requires filed.id == order.id
    ensures var orders: OrderMap, ids := map[order.id := filed], {order.id};
            var s0 := State(orders, map[0 := AwaitingSubmit(filed)], ids, [order.id]);
            var s1 := State(orders, Beside(filed, AwaitingSubmit(filed)), ids, [order.id]);
            var s2 := State(orders, Beside(filed, SubmitAccepted(filed, accepted)), ids, [order.id]);
            && Enabled(s0, BeginCancel(1, order.id)) && After(s0, BeginCancel(1, order.id)) == s1
            && Enabled(s1, SubmitReturns(0, Some(accepted))) && After(s1, SubmitReturns(0, Some(accepted))) == s2
  {
    BesideIs(filed, AwaitingSubmit(filed), SubmitAccepted(filed, accepted));
    hide Beside;
  }

  lemma SubmitLands(order: Order, filed: Order, accepted: ActionResult)
    requires filed == FiledOrder(order) && filed.id == order.id
    ensures var s := State(map[order.id := filed], Beside(filed, SubmitAccepted(filed, accepted)), {order.id},
                           [order.id]);
            Enabled(s, SubmitWrite(0, STARTED)) && After(s, SubmitWrite(0, STARTED)) == NamedState(order, accepted)
  {
    assert NamedState(order, accepted) ==
           State(map[order.id := Patched(filed, SubmitPatch(filed, accepted), STARTED)], map[1 := Cancelling(filed)],
                 {order.id}, [order.id]);
    OnlyPatch(filed, accepted);
    hide *;
    var calls := Beside(filed, SubmitAccepted(filed, accepted));
    BesideIs(filed, SubmitAccepted(filed, accepted), SubmitAccepted(filed, accepted));
    SubmitWriteEffect(State(map[order.id := filed], calls, {order.id}, [order.id]), 0, filed, accepted, STARTED);
  }

  lemma OnlyPatch(filed: Order, accepted: ActionResult)
    ensures AfterUpdate(map[filed.id := filed], SubmitPatch(filed, accepted), STARTED)
         == map[filed.id := Patched(filed, SubmitPatch(filed, accepted), STARTED)]
  {
    hide Patched;
  }

  lemma NamedTrace(order: Order, accepted: ActionResult)
    requires Fresh(order)
    ensures Legal(Protocol, Init(), NamedDuringCancel(order, accepted))
    ensures Exec(Protocol, Init(), NamedDuringCancel(order, accepted)) == NamedState(order, accepted)
  {
    var filed, xs := FiledOrder(order), SentSteps(order);
    FiledIs(order);
    SentTrace(order);
    CancelReads(order, filed, accepted);
    SubmitLands(order, filed, accepted);
    var t0, t1, t2 := BeginCancel(1, order.id), SubmitReturns(0, Some(accepted)), SubmitWrite(0, STARTED);
    assert NamedDuringCancel(order, accepted) == xs + [t0, t1, t2];
    assert SentState(order) ==
           State(map[order.id := filed], map[0 := AwaitingSubmit(filed)], {order.id}, [order.id]);
    hide *;
    ProtocolStep(Init(), xs, SentState(order), t0);
    ProtocolStep(Init(), xs + [t0],
                 State(map[order.id := filed], Beside(filed, AwaitingSubmit(filed)), {order.id}, [order.id]), t1);
    ProtocolStep(Init(), xs + [t0] + [t1],
                 State(map[order.id := filed], Beside(filed, SubmitAccepted(filed, accepted)), {order.id},
                       [order.id]), t2);
    AfterThree(xs, t0, t1, t2);
  }

  // The ids at both ends.
  lemma NamesAtEnds(order: Order, accepted: ActionResult, cancelled: ActionResult)
    requires Fresh(order) && TrimSpace(accepted.requestId) != "" && TrimSpace(cancelled.requestId) != ""
    ensures var filed, orders := FiledOrder(order), NamedState(order, accepted).orders;
            var orders' := AfterUpdate(orders, CancelPatch(filed, cancelled), STARTED);
            && order.id in orders && orders[order.id].providerOrderId == TrimSpace(accepted.requestId)
            && order.id in orders' && orders'[order.id].providerOrderId == TrimSpace(cancelled.requestId)
  {
    FiledIs(order);
    TrimTwice(cancelled.requestId);
    TrimmedIffFixed("", WHITESPACE);
    assert TrimSpace("") == "";
    hide TrimSpace;
    hide FiledOrder;
  }

  lemma LateCancelSteps(order: Order, filed: Order, s: State, cancelled: ActionResult)
    requires s.calls == map[1 := Cancelling(filed)]
    ensures var s' := s.(calls := map[1 := CancelAccepted(filed, cancelled)]);
            var t, t' := CancelReturns(1, Some(cancelled)), CancelWrite(1, STARTED);
            && Enabled(s, t) && After(s, t) == s' && Enabled(s', t')
            && After(s', t').orders == AfterUpdate(s.orders, CancelPatch(filed, cancelled), STARTED)
  {
    hide CancelPatch;
    hide AfterUpdate;
    assert s.calls[1 := CancelAccepted(filed, cancelled)] == map[1 := CancelAccepted(filed, cancelled)];
  }

  // So an order's provider id can be lost: afterwards a websocket report by that id, without
  // a cloid, no longer finds the order.
  lemma LateCancelRenames(order: Order, accepted: ActionResult, cancelled: ActionResult, input: StatusInput,
                          report: StatusReport)
    requires Fresh(order) && TrimSpace(accepted.requestId) != "" && TrimSpace(cancelled.requestId) != ""
    requires TrimSpace(accepted.requestId) != TrimSpace(cancelled.requestId)
    requires report.providerOrderId == TrimSpace(accepted.requestId) && report.cloid == ""
    ensures var before, later := NamedDuringCancel(order, accepted), LateCancel(cancelled);
            var middle, end := Exec(Protocol, Init(), before), Exec(Protocol, Init(), before + later);
            && Legal(Protocol, Init(), before + later)
            && order.id in middle.orders
            && middle.orders[order.id].providerOrderId == TrimSpace(accepted.requestId)
            && order.id in end.orders && end.orders[order.id].providerOrderId == TrimSpace(cancelled.requestId)
            && !Matches(end.orders[order.id], input, report)
  {
    var s, filed := NamedState(order, accepted), FiledOrder(order);
    assert s.calls == map[1 := Cancelling(filed)];
    assert LateCancel(cancelled) == [CancelReturns(1, Some(cancelled)), CancelWrite(1, STARTED)];
    UnmatchedById(AfterUpdate(s.orders, CancelPatch(filed, cancelled), STARTED), order.id, input, report);
    hide *;
    NamedTrace(order, accepted);
    NamesAtEnds(order, accepted, cancelled);
    LateCancelSteps(order, filed, s, cancelled);
    var t0, t1 := CancelReturns(1, Some(cancelled)), CancelWrite(1, STARTED);
    Append(Protocol, Init(), NamedDuringCancel(order, accepted), LateCancel(cancelled));
    NoSteps(Protocol, s);
    ProtocolStep(s, [], s, t0);
    ProtocolStep(s, [] + [t0], After(s, t0), t1);
    InTwo(t0, t1);
  }

  lemma UnmatchedById(orders: OrderMap, id: string, input: StatusInput, report: StatusReport)
    requires report.cloid == ""
    ensures id in orders && orders[id].providerOrderId != report.providerOrderId ==> !Matches(orders[id], input, report)
  {
    hide EqualFold;
  }
}

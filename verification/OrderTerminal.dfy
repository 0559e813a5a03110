// How terminal orders stay terminal, step by step, for good, and over runs.
module OrderTerminal {
  import opened Results
  import opened Runs
  import opened Clock
  import opened Maps
  import opened Text
  import opened OrderStatus
  import opened Orders
  import opened OrderRuns
  import opened OrderStart

  ghost predicate TerminalKept(before: OrderMap, after: OrderMap) {
    forall id | id in before && Terminal(before[id].status) :: id in after && Terminal(after[id].status)
  }

  lemma PendingNotTerminal()
    ensures !Terminal(PENDING)
  {
    PendingIsFixed();
    TerminalFixedPoints(PENDING);
    NamesApart();
    assert PENDING != FILLED && PENDING != FAILED;
  }

  lemma InsertTerminal(s: State, c: nat, created: Order, now: Time)
    requires Inv(s) && Enabled(s, Insert(c, created, now))
    ensures TerminalKept(s.orders, After(s, Insert(c, created, now)).orders)
  {
    hide Terminal;
    hide Sound;
    hide SameOwner;
    assert s.calls[c].order.id !in s.orders;
  }

  // Exactly when a step, overlapping others or not, leaves a terminal order terminal. A
  // submission's write-back never does; a sync's does if its report is terminal, or
  // normalises to "submitted" and the order was already terminal when it was read; a
  // websocket report does if it is settling.
  predicate KeepsTerminal(s: State, t: Step, id: string)
    requires Enabled(s, t) && id in s.orders
  {
    match t
    case SubmitWrite(c, _) => s.calls[c].order.id != id
    case SyncWrite(c, _, _) =>
      var order, next := s.calls[c].order, Normalize(s.calls[c].report.status);
      order.id != id || Terminal(next) || (next == SUBMITTED && Terminal(order.status))
    case WsReport(input, report, _) => !Matches(s.orders[id], input, report) || Settling(report.status)
    case _ => true
  }

  lemma TerminalKeptIff(s: State, t: Step, id: string)
    requires Inv(s) && Enabled(s, t) && id in s.orders && Terminal(s.orders[id].status)
    ensures id in After(s, t).orders
    ensures Terminal(After(s, t).orders[id].status) <==> KeepsTerminal(s, t, id)
  {
    hide *;
    match t
    case SubmitWrite(c, now) => SubmitTerminalIff(s, c, now, id);
    case CancelWrite(c, now) => CancelTerminalIff(s, c, now, id);
    case SyncWrite(c, provider, now) => SyncTerminalIff(s, c, provider, now, id);
    case WsReport(input, report, now) => ReportTerminalIff(s, input, report, now, id);
    case Insert(c, created, now) => InsertTerminalIff(s, c, created, now, id);
    case _ =>
      QuietStepKeeps(s, t);
      QuietTerminalIff(s, t, id);
  }

  // What a write-back does to the terminal orders of a map.
  lemma PutTerminalIff(orders: OrderMap, patch: Patch, now: Time, id: string)
    requires patch.id in orders && id in orders && Terminal(orders[id].status) && FixedPoint(patch.status)
    ensures id in AfterUpdate(orders, patch, now)
    ensures Terminal(AfterUpdate(orders, patch, now)[id].status) <==> patch.id != id || Terminal(patch.status)
  {
    UpdateIsPut(orders, patch, now);
    PatchedStatus(orders[patch.id], patch, now);
    hide *;
  }

  lemma SubmittedNotTerminal()
    ensures FixedPoint(SUBMITTED) && FixedPoint(CANCELLED) && !Terminal(SUBMITTED) && Terminal(CANCELLED)
  {
    StatusFixed();
    TerminalFixedPoints(SUBMITTED);
    TerminalFixedPoints(CANCELLED);
    NamesApart();
    assert SUBMITTED != FILLED && SUBMITTED != FAILED;
    hide Terminal;
    hide FixedPoint;
  }

  lemma SubmitterIs(s: State, c: nat, now: Time, id: string)
    requires Enabled(s, SubmitWrite(c, now)) && id in s.orders
    ensures c in s.calls && s.calls[c].SubmitAccepted?
    ensures KeepsTerminal(s, SubmitWrite(c, now), id) <==> s.calls[c].order.id != id
  {
    hide Terminal;
    hide Normalize;
  }

  lemma CancellerIs(s: State, c: nat, now: Time, id: string)
    requires Enabled(s, CancelWrite(c, now)) && id in s.orders
    ensures c in s.calls && s.calls[c].CancelAccepted?
    ensures KeepsTerminal(s, CancelWrite(c, now), id)
  {
    hide Terminal;
    hide Normalize;
  }

  lemma SyncerIs(s: State, c: nat, provider: string, now: Time, id: string)
    requires Enabled(s, SyncWrite(c, provider, now)) && id in s.orders
    ensures c in s.calls && s.calls[c].SyncAnswered?
    ensures var order, next := s.calls[c].order, Normalize(s.calls[c].report.status);
            KeepsTerminal(s, SyncWrite(c, provider, now), id) <==>
              order.id != id || Terminal(next) || (next == SUBMITTED && Terminal(order.status))
  {
    hide Terminal;
    hide Normalize;
  }

  lemma SubmitTerminalIff(s: State, c: nat, now: Time, id: string)
    requires Inv(s) && Enabled(s, SubmitWrite(c, now)) && id in s.orders && Terminal(s.orders[id].status)
    ensures id in After(s, SubmitWrite(c, now)).orders
    ensures Terminal(After(s, SubmitWrite(c, now)).orders[id].status) <==> KeepsTerminal(s, SubmitWrite(c, now), id)
  {
    hide *;
    SubmitterIs(s, c, now, id);
    var order, result := s.calls[c].order, s.calls[c].result;
    HeldByWriter(s, c);
    SubmitWriteEffect(s, c, order, result, now);
    SubmittedNotTerminal();
    SubmitPatches(order, result);
    PutTerminalIff(s.orders, SubmitPatch(order, result), now, id);
  }

  lemma CancelTerminalIff(s: State, c: nat, now: Time, id: string)
    requires Inv(s) && Enabled(s, CancelWrite(c, now)) && id in s.orders && Terminal(s.orders[id].status)
    ensures id in After(s, CancelWrite(c, now)).orders
    ensures Terminal(After(s, CancelWrite(c, now)).orders[id].status) <==> KeepsTerminal(s, CancelWrite(c, now), id)
  {
    hide *;
    CancellerIs(s, c, now, id);
    var order, result := s.calls[c].order, s.calls[c].result;
    HeldByWriter(s, c);
    CancelWriteEffect(s, c, order, result, now);
    SubmittedNotTerminal();
    SubmitPatches(order, result);
    PutTerminalIff(s.orders, CancelPatch(order, result), now, id);
  }

  lemma SyncTerminalIff(s: State, c: nat, provider: string, now: Time, id: string)
    requires Inv(s) && Enabled(s, SyncWrite(c, provider, now)) && id in s.orders && Terminal(s.orders[id].status)
    ensures id in After(s, SyncWrite(c, provider, now)).orders
    ensures Terminal(After(s, SyncWrite(c, provider, now)).orders[id].status)
            <==> KeepsTerminal(s, SyncWrite(c, provider, now), id)
  {
    hide *;
    SyncerIs(s, c, provider, now, id);
    var order, report := s.calls[c].order, s.calls[c].report;
    HeldByWriter(s, c);
    SyncWriteEffect(s, c, order, report, provider, now);
    SyncPatchSound(order, report, provider, now);
    SyncPatchIs(order, report, provider, now);
    PutTerminalIff(s.orders, SyncPatch(order, report, provider, now), now, id);
    MergeTerminalIff(order.status, report.status);
  }

  lemma SyncPatchIs(order: Order, report: StatusReport, provider: string, now: Time)
    ensures var patch := SyncPatch(order, report, provider, now);
            patch.id == order.id && patch.status == MergeSynced(order.status, Normalize(report.status))
  {
    hide MergeSynced;
    hide Normalize;
    hide FirstNonEmpty;
  }

  lemma ReportTerminalIff(s: State, input: StatusInput, report: StatusReport, now: Time, id: string)
    requires id in s.orders && Terminal(s.orders[id].status)
    ensures id in After(s, WsReport(input, report, now)).orders
    ensures Terminal(After(s, WsReport(input, report, now)).orders[id].status)
            <==> KeepsTerminal(s, WsReport(input, report, now), id)
  {
    assert KeepsTerminal(s, WsReport(input, report, now), id) <==>
           !Matches(s.orders[id], input, report) || Settling(report.status) by {
      hide Settling;
      hide Matches;
    }
    ReportEffect(s, input, report, now);
    hide *;
    AfterReportAt(s.orders, id, input, report, now);
    ReportedTerminalIff(s.orders[id], report, now);
  }

  lemma ReportedTerminalIff(order: Order, report: StatusReport, now: Time)
    requires Terminal(order.status)
    ensures Terminal(Reported(order, report, now).status) <==> Settling(report.status)
  {
    MergeStaysTerminal(order.status, report.status);
    hide Terminal;
    hide Settling;
    hide Normalize;
    hide MergeSynced;
  }

  lemma InsertTerminalIff(s: State, c: nat, created: Order, now: Time, id: string)
    requires Inv(s) && Enabled(s, Insert(c, created, now)) && id in s.orders && Terminal(s.orders[id].status)
    ensures id in After(s, Insert(c, created, now)).orders
    ensures Terminal(After(s, Insert(c, created, now)).orders[id].status)
    ensures KeepsTerminal(s, Insert(c, created, now), id)
  {
    assert KeepsTerminal(s, Insert(c, created, now), id);
    hide *;
    InsertTerminal(s, c, created, now);
    TerminalKeptAt(s.orders, After(s, Insert(c, created, now)).orders, id);
  }

  lemma TerminalKeptAt(before: OrderMap, after: OrderMap, id: string)
    requires TerminalKept(before, after) && id in before && Terminal(before[id].status)
    ensures id in after && Terminal(after[id].status)
  {
    hide Terminal;
  }

  lemma QuietTerminalIff(s: State, t: Step, id: string)
    requires Enabled(s, t) && id in s.orders && After(s, t).orders == s.orders
    requires !t.Insert? && !t.SubmitWrite? && !t.CancelWrite? && !t.SyncWrite? && !t.WsReport?
    ensures KeepsTerminal(s, t, id)
  {
    hide Enabled;
    hide After;
  }

  lemma MergeTerminalIff(current: string, reported: string)
    ensures Terminal(MergeSynced(current, Normalize(reported))) <==>
              Terminal(Normalize(reported)) || (Normalize(reported) == SUBMITTED && Terminal(current))
  {
    NormalizeIdempotent(reported);
    StatusFixed();
    TerminalFixedPoints(SUBMITTED);
    NamesApart();
    assert SUBMITTED != FILLED && SUBMITTED != FAILED;
    assert TrimSpace(Normalize(reported)) != "";
    hide Terminal;
    hide Normalize;
  }

  lemma SettlingTerminal(reported: string)
    requires Settling(reported)
    ensures Normalize(reported) == SUBMITTED || Terminal(Normalize(reported))
  {
    NormalizeIdempotent(reported);
    TerminalFixedPoints(Normalize(reported));
    hide Normalize;
    hide Terminal;
  }

  predicate SettledStep(t: Step) {
    match t
    case WsReport(_, report, _) => Settling(report.status)
    case SyncReturns(_, answer) => answer.Some? ==> Settling(answer.value.status)
    case _ => true
  }

  // Runs with settling provider statuses; calls and reports overlap freely.
  ghost const SettledRuns: Machine<State, Step> :=
    Machine((s, t) => Enabled(s, t) && SettledStep(t), (s, t) => After(s, t))

  lemma SettledRunsStep(s: State, t: Step)
    ensures SettledRuns.enabled(s, t) <==> Enabled(s, t) && SettledStep(t)
    ensures SettledRuns.next(s, t) == After(s, t)
  {
    hide Enabled;
    hide SettledStep;
    hide After;
  }

  // A running call whose write-back, if any, leaves its order terminal: not a submission,
  // and not a sync that read the order before it was terminal and may still write it back.
  predicate Harmless(call: Call) {
    match call
    case Creating(_) => true
    case Inserted(_) => false
    case AwaitingSubmit(_) => false
    case SubmitAccepted(_, _) => false
    case Cancelling(_) => true
    case CancelAccepted(_, _) => true
    case Syncing(order) => Terminal(order.status)
    case SyncAnswered(order, report) =>
      Terminal(Normalize(report.status)) || (Normalize(report.status) == SUBMITTED && Terminal(order.status))
  }

  // No running call can take order id back from its terminal status.
  ghost predicate SafeFor(s: State, id: string) {
    forall c | c in s.calls && s.calls[c].order.id == id :: Harmless(s.calls[c])
  }

  lemma SafeMoved(s: State, s': State, c: nat, id: string)
    requires SafeFor(s, id)
    requires forall d | d in s'.calls && d != c :: d in s.calls && s'.calls[d] == s.calls[d]
    requires c in s'.calls && s'.calls[c].order.id == id ==> Harmless(s'.calls[c])
    ensures SafeFor(s', id)
  {
    hide Harmless;
  }

  lemma SafeInsert(s: State, c: nat, created: Order, now: Time, id: string)
    requires Inv(s) && Enabled(s, Insert(c, created, now)) && id in s.orders && SafeFor(s, id)
    ensures SafeFor(After(s, Insert(c, created, now)), id)
  {
    hide *;
    InsertElsewhere(s, c, created, now, id);
    InsertEffect(s, c, created, now);
    SafeMoved(s, After(s, Insert(c, created, now)), c, id);
  }

  lemma SafeSubmit(s: State, c: nat, id: string)
    requires Enabled(s, Submit(c)) && SafeFor(s, id)
    ensures SafeFor(After(s, Submit(c)), id)
  {
    SubmitEffect(s, c, s.calls[c].order);
    hide After;
    SafeMoved(s, After(s, Submit(c)), c, id);
  }

  lemma SafeSubmitReturns(s: State, c: nat, accepted: Option<ActionResult>, id: string)
    requires Enabled(s, SubmitReturns(c, accepted)) && SafeFor(s, id)
    ensures SafeFor(After(s, SubmitReturns(c, accepted)), id)
  {
    SubmitReturnsEffect(s, c, s.calls[c].order, accepted);
    hide After;
    SafeMoved(s, After(s, SubmitReturns(c, accepted)), c, id);
  }

  lemma SafeCancelReturns(s: State, c: nat, accepted: Option<ActionResult>, id: string)
    requires Enabled(s, CancelReturns(c, accepted)) && SafeFor(s, id)
    ensures SafeFor(After(s, CancelReturns(c, accepted)), id)
  {
    CancelReturnsEffect(s, c, s.calls[c].order, accepted);
    hide After;
    SafeMoved(s, After(s, CancelReturns(c, accepted)), c, id);
  }

  lemma SafeSyncReturns(s: State, c: nat, answer: Option<StatusReport>, id: string)
    requires Enabled(s, SyncReturns(c, answer)) && SettledStep(SyncReturns(c, answer)) && SafeFor(s, id)
    ensures SafeFor(After(s, SyncReturns(c, answer)), id)
  {
    SyncReturnsEffect(s, c, s.calls[c].order, answer);
    if answer.Some? {
      SettlingTerminal(answer.value.status);
    }
    hide After;
    hide Settling;
    hide Normalize;
    hide Terminal;
    SafeMoved(s, After(s, SyncReturns(c, answer)), c, id);
  }

  lemma TerminalReadHarmless(order: Order)
    ensures Harmless(Cancelling(order))
    ensures Terminal(order.status) ==> Harmless(Syncing(order))
  {
    hide Terminal;
  }

  lemma SafeBegin(s: State, c: nat, i: string, id: string)
    requires Inv(s) && c !in s.calls && i in s.orders
    requires id in s.orders && Terminal(s.orders[id].status) && SafeFor(s, id)
    ensures SafeFor(After(s, BeginCancel(c, i)), id) && SafeFor(After(s, BeginSync(c, i)), id)
  {
    hide *;
    StoredIds(s);
    TerminalReadHarmless(s.orders[i]);
    BeginCancelEffect(s, c, i);
    BeginSyncEffect(s, c, i);
    SafeMoved(s, After(s, BeginCancel(c, i)), c, id);
    SafeMoved(s, After(s, BeginSync(c, i)), c, id);
  }

  lemma SafeBeginCreate(s: State, c: nat, order: Order, id: string)
    requires Enabled(s, BeginCreate(c, order)) && SafeFor(s, id)
    ensures SafeFor(After(s, BeginCreate(c, order)), id)
  {
    BeginCreateEffect(s, c, order);
    hide After;
    hide Fresh;
    SafeMoved(s, After(s, BeginCreate(c, order)), c, id);
  }

  lemma SafeStep(s: State, t: Step, id: string)
    requires Inv(s) && Enabled(s, t) && SettledStep(t)
    requires id in s.orders && Terminal(s.orders[id].status) && SafeFor(s, id)
    ensures SafeFor(After(s, t), id)
  {
    hide *;
    match t
    case BeginCreate(c, order) => SafeBeginCreate(s, c, order, id);
    case Insert(c, created, now) => SafeInsert(s, c, created, now, id);
    case Submit(c) => SafeSubmit(s, c, id);
    case SubmitReturns(c, accepted) => SafeSubmitReturns(s, c, accepted, id);
    case BeginCancel(c, i) =>
      EnabledReads(s, c, i);
      SafeBegin(s, c, i, id);
    case CancelReturns(c, accepted) => SafeCancelReturns(s, c, accepted, id);
    case BeginSync(c, i) =>
      EnabledReads(s, c, i);
      SafeBegin(s, c, i, id);
    case SyncReturns(c, answer) => SafeSyncReturns(s, c, answer, id);
    case _ =>
      EndsOnly(s, t);
      SafeEnds(s, After(s, t), id);
  }

  lemma SafeEnds(s: State, s': State, id: string)
    requires SafeFor(s, id) && forall d | d in s'.calls :: d in s.calls && s'.calls[d] == s.calls[d]
    ensures SafeFor(s', id)
  {
    hide Harmless;
  }

  lemma SafeKeepsTerminal(s: State, t: Step, id: string)
    requires Enabled(s, t) && SettledStep(t) && id in s.orders && SafeFor(s, id)
    ensures KeepsTerminal(s, t, id)
  {
    match t
    case SubmitWrite(c, now) => SafeSubmitter(s, c, now, id);
    case SyncWrite(c, provider, now) => SafeSyncer(s, c, provider, now, id);
    case _ =>
      hide Settling;
      hide Matches;
  }

  lemma SafeSubmitter(s: State, c: nat, now: Time, id: string)
    requires Enabled(s, SubmitWrite(c, now)) && id in s.orders && SafeFor(s, id)
    ensures KeepsTerminal(s, SubmitWrite(c, now), id)
  {
    SubmitterIs(s, c, now, id);
    hide Enabled;
    hide KeepsTerminal;
    hide Terminal;
    hide Normalize;
  }

  lemma SafeSyncer(s: State, c: nat, provider: string, now: Time, id: string)
    requires Enabled(s, SyncWrite(c, provider, now)) && id in s.orders && SafeFor(s, id)
    ensures KeepsTerminal(s, SyncWrite(c, provider, now), id)
  {
    SyncerIs(s, c, provider, now, id);
    hide Enabled;
    hide KeepsTerminal;
    hide Terminal;
    hide Normalize;
  }

  ghost predicate Settled(s: State, id: string) {
    Inv(s) && id in s.orders && Terminal(s.orders[id].status) && SafeFor(s, id)
  }

  lemma SettledKept(s: State, t: Step, id: string)
    requires Settled(s, id) && Enabled(s, t) && SettledStep(t)
    ensures Settled(After(s, t), id)
  {
    hide Inv;
    hide Terminal;
    hide SafeFor;
    hide Enabled;
    hide After;
    hide SettledStep;
    hide KeepsTerminal;
    StepKeeps(s, t);
    SafeStep(s, t, id);
    SafeKeepsTerminal(s, t, id);
    TerminalKeptIff(s, t, id);
  }

  lemma SettledForever(s: State, later: seq<Step>, id: string)
    requires Settled(s, id) && Legal(SettledRuns, s, later)
    ensures Settled(Exec(SettledRuns, s, later), id)
  {
    hide Settled;
    hide Enabled;
    hide After;
    hide SettledStep;
    forall a, t | Settled(a, id) && SettledRuns.enabled(a, t) ensures Settled(SettledRuns.next(a, t), id) {
      SettledRunsStep(a, t);
      SettledKept(a, t, id);
    }
    Invariant(SettledRuns, a => Settled(a, id), s, later);
  }

  // How far a submission or sync is from its write-back.
  function Distance(call: Call): nat {
    match call
    case Inserted(_) => 2
    case AwaitingSubmit(_) => 1
    case Syncing(_) => 1
    case _ => 0
  }

  const ACCEPTED := ActionResult(EXCHANGE, OID, map[], STARTED)

  // The step that brings such a call forward.
  function Forward(c: nat, call: Call): Step {
    match call
    case Inserted(_) => Submit(c)
    case AwaitingSubmit(_) => SubmitReturns(c, Some(ACCEPTED))
    case Syncing(_) => SyncReturns(c, Some(LATE_REPORT))
    case SyncAnswered(_, _) => SyncWrite(c, EXCHANGE, STARTED)
    case _ => SubmitWrite(c, STARTED)
  }

  lemma LateSettles()
    ensures Settling(LATE_REPORT.status) && Normalize(LATE_REPORT.status) == SUBMITTED && !Terminal(SUBMITTED)
  {
    SubmittedNotTerminal();
    hide Terminal;
    hide Normalize;
  }

  // Short of its write-back, a harmful call moves on and stays harmful.
  lemma ForwardHarmful(s: State, c: nat)
    requires c in s.calls && !Harmless(s.calls[c]) && Distance(s.calls[c]) > 0
    ensures var t := Forward(c, s.calls[c]);
            && Enabled(s, t) && SettledStep(t)
            && !t.Insert? && !t.SubmitWrite? && !t.CancelWrite? && !t.SyncWrite? && !t.WsReport?
            && var s' := After(s, t);
               && c in s'.calls && s'.calls[c].order == s.calls[c].order
               && !Harmless(s'.calls[c]) && Distance(s'.calls[c]) < Distance(s.calls[c])
  {
    LateSettles();
    var order := s.calls[c].order;
    hide Terminal;
    hide Normalize;
    hide Settling;
    hide After;
    hide Enabled;
    hide LATE_REPORT;
    hide ACCEPTED;
    if s.calls[c].Inserted? {
      SubmitEffect(s, c, order);
    } else if s.calls[c].AwaitingSubmit? {
      SubmitReturnsEffect(s, c, order, Some(ACCEPTED));
    } else {
      SyncReturnsEffect(s, c, order, Some(LATE_REPORT));
    }
  }

  lemma SubmissionReopens(s: State, c: nat, id: string)
    requires Inv(s) && id in s.orders && Terminal(s.orders[id].status)
    requires c in s.calls && s.calls[c].order.id == id && s.calls[c].SubmitAccepted?
    ensures var t := SubmitWrite(c, STARTED);
            Enabled(s, t) && id in After(s, t).orders && !Terminal(After(s, t).orders[id].status)
  {
    hide *;
    SubmitWriteEffect(s, c, s.calls[c].order, s.calls[c].result, STARTED);
    SubmitterIs(s, c, STARTED, id);
    TerminalKeptIff(s, SubmitWrite(c, STARTED), id);
  }

  lemma HarmfulAnswer(call: Call)
    requires call.SyncAnswered? && !Harmless(call)
    ensures var next := Normalize(call.report.status);
            !(Terminal(next) || (next == SUBMITTED && Terminal(call.order.status)))
  {
    hide Terminal;
    hide Normalize;
  }

  lemma SyncReopens(s: State, c: nat, id: string)
    requires Inv(s) && id in s.orders && Terminal(s.orders[id].status)
    requires c in s.calls && s.calls[c].order.id == id && s.calls[c].SyncAnswered? && !Harmless(s.calls[c])
    ensures var t := SyncWrite(c, EXCHANGE, STARTED);
            Enabled(s, t) && id in After(s, t).orders && !Terminal(After(s, t).orders[id].status)
  {
    hide *;
    HarmfulAnswer(s.calls[c]);
    SyncWriteEffect(s, c, s.calls[c].order, s.calls[c].report, EXCHANGE, STARTED);
    SyncerIs(s, c, EXCHANGE, STARTED, id);
    TerminalKeptIff(s, SyncWrite(c, EXCHANGE, STARTED), id);
  }

  // Its write-back reopens the order.
  lemma WriteBackReopens(s: State, c: nat, id: string)
    requires Inv(s) && id in s.orders && Terminal(s.orders[id].status)
    requires c in s.calls && s.calls[c].order.id == id && !Harmless(s.calls[c]) && Distance(s.calls[c]) == 0
    ensures var t := Forward(c, s.calls[c]);
            && Enabled(s, t) && SettledStep(t)
            && id in After(s, t).orders && !Terminal(After(s, t).orders[id].status)
  {
    assert s.calls[c].SubmitAccepted? || s.calls[c].SyncAnswered?;
    hide Inv;
    hide Terminal;
    hide Normalize;
    hide After;
    hide Enabled;
    hide Harmless;
    if s.calls[c].SubmitAccepted? {
      SubmissionReopens(s, c, id);
    } else {
      SyncReopens(s, c, id);
    }
  }

  lemma Reopens(s: State, c: nat, id: string) returns (later: seq<Step>)
    requires Inv(s) && id in s.orders && Terminal(s.orders[id].status)
    requires c in s.calls && s.calls[c].order.id == id && !Harmless(s.calls[c])
    ensures Legal(SettledRuns, s, later)
    ensures var s' := Exec(SettledRuns, s, later); id in s'.orders && !Terminal(s'.orders[id].status)
    decreases Distance(s.calls[c])
  {
    var t := Forward(c, s.calls[c]);
    var s1 := After(s, t);
    NoSteps(SettledRuns, s1);
    SettledRunsStep(s, t);
    hide *;
    if Distance(s.calls[c]) == 0 {
      WriteBackReopens(s, c, id);
      Prepend(SettledRuns, s, t, []);
      later := [t] + [];
    } else {
      ForwardHarmful(s, c);
      QuietStepKeeps(s, t);
      var more := Reopens(s1, c, id);
      Prepend(SettledRuns, s, t, more);
      later := [t] + more;
    }
  }

  // Exactly when a terminal order stays terminal for good, whatever calls and settling
  // reports follow and however they overlap: when no running submission is its own, and no
  // running sync read it before it was terminal and can still write "submitted" back.
  lemma TerminalForeverIff(before: seq<Step>, id: string)
    requires Legal(Protocol, Init(), before)
    requires var s := Exec(Protocol, Init(), before); id in s.orders && Terminal(s.orders[id].status)
    ensures var s := Exec(Protocol, Init(), before);
            (forall later | Legal(SettledRuns, s, later) ::
               var s' := Exec(SettledRuns, s, later); id in s'.orders && Terminal(s'.orders[id].status))
            <==> SafeFor(s, id)
  {
    var s := Exec(Protocol, Init(), before);
    InitInv();
    RunKeeps(Init(), before);
    hide Legal;
    hide Exec;
    hide Inv;
    hide Terminal;
    if SafeFor(s, id) {
      hide SafeFor;
      forall later | Legal(SettledRuns, s, later)
        ensures var s' := Exec(SettledRuns, s, later); id in s'.orders && Terminal(s'.orders[id].status)
      {
        SettledForever(s, later, id);
      }
    } else {
      hide Harmless;
      var c :| c in s.calls && s.calls[c].order.id == id && !Harmless(s.calls[c]);
      var later := Reopens(s, c, id);
    }
  }

  // No running call past its read or insert concerns order id.
  ghost predicate Idle(s: State, id: string) {
    forall c | c in s.calls && !s.calls[c].Creating? :: s.calls[c].order.id != id
  }

  // Runs in which calls and reports on one order do not overlap, with settling provider
  // statuses. On different orders they overlap freely.
  ghost const PerOrder: Machine<State, Step> :=
    Machine((s, t) => Enabled(s, t) && SettledStep(t) && Spaced(s, t), (s, t) => After(s, t))

  ghost predicate Spaced(s: State, t: Step) {
    match t
    case BeginCancel(_, id) => Idle(s, id)
    case BeginSync(_, id) => Idle(s, id)
    case WsReport(input, report, _) =>
      forall id | id in s.orders && Matches(s.orders[id], input, report) :: Idle(s, id)
    case _ => true
  }

  ghost predicate OneCallEach(s: State) {
    forall c, d | c in s.calls && d in s.calls && c != d && !s.calls[c].Creating? && !s.calls[d].Creating? ::
      s.calls[c].order.id != s.calls[d].order.id
  }

  ghost predicate AllSafe(s: State) {
    forall id | id in s.orders && Terminal(s.orders[id].status) :: SafeFor(s, id)
  }

  ghost predicate PerOrderInv(s: State) {
    Inv(s) && OneCallEach(s) && AllSafe(s)
  }

  lemma OneMoved(s: State, s': State, c: nat)
    requires OneCallEach(s)
    requires forall d | d in s'.calls && d != c :: d in s.calls && s'.calls[d] == s.calls[d]
    requires c in s'.calls && !s'.calls[c].Creating? ==>
               forall d | d in s.calls && d != c && !s.calls[d].Creating? :: s.calls[d].order.id != s'.calls[c].order.id
    ensures OneCallEach(s')
  {
  }

  lemma OneCallStep(s: State, t: Step)
    requires Inv(s) && OneCallEach(s) && Enabled(s, t) && Spaced(s, t)
    ensures OneCallEach(After(s, t))
  {
    hide *;
    match t
    case BeginCreate(c, order) => OneBeginCreate(s, c, order);
    case Insert(c, created, now) => OneInsert(s, c, created, now);
    case BeginCancel(c, id) => OneBegin(s, t, c, id);
    case BeginSync(c, id) => OneBegin(s, t, c, id);
    case _ => OneOther(s, t);
  }

  lemma OneBeginCreate(s: State, c: nat, order: Order)
    requires OneCallEach(s) && Enabled(s, BeginCreate(c, order))
    ensures OneCallEach(After(s, BeginCreate(c, order)))
  {
    BeginCreateEffect(s, c, order);
    hide After;
    hide Enabled;
    hide OneCallEach;
    OneMoved(s, After(s, BeginCreate(c, order)), c);
  }

  lemma OneInsert(s: State, c: nat, created: Order, now: Time)
    requires Inv(s) && OneCallEach(s) && Enabled(s, Insert(c, created, now))
    ensures OneCallEach(After(s, Insert(c, created, now)))
  {
    var order := s.calls[c].order;
    assert order.id !in s.orders && (Submittable(created, order) ==> created.id == order.id);
    CallsHeld(s);
    InsertEffect(s, c, created, now);
    hide Inv;
    hide After;
    hide AfterCreate;
    hide CreateReturns;
    hide Submittable;
    hide OneCallEach;
    hide Sound;
    OneMoved(s, After(s, Insert(c, created, now)), c);
  }

  lemma OneBegin(s: State, t: Step, c: nat, id: string)
    requires Inv(s) && OneCallEach(s) && Enabled(s, t) && Spaced(s, t)
    requires t == BeginCancel(c, id) || t == BeginSync(c, id)
    ensures OneCallEach(After(s, t))
  {
    StoredIds(s);
    EnabledReads(s, c, id);
    BeginCancelEffect(s, c, id);
    BeginSyncEffect(s, c, id);
    hide Inv;
    hide After;
    hide Enabled;
    hide OneCallEach;
    OneMoved(s, After(s, t), c);
  }

  // A call that moves on keeps its order.
  lemma MovesOn(s: State, t: Step)
    requires Enabled(s, t) && (t.Submit? || t.SubmitReturns? || t.CancelReturns? || t.SyncReturns?)
    ensures t.c in s.calls && !s.calls[t.c].Creating?
    ensures t.c in After(s, t).calls ==> After(s, t).calls[t.c].order == s.calls[t.c].order
    ensures forall d | d in After(s, t).calls && d != t.c :: d in s.calls && After(s, t).calls[d] == s.calls[d]
  {
  }

  lemma OneOther(s: State, t: Step)
    requires OneCallEach(s) && Enabled(s, t)
    requires !t.BeginCreate? && !t.Insert? && !t.BeginCancel? && !t.BeginSync?
    ensures OneCallEach(After(s, t))
  {
    if t.Submit? || t.SubmitReturns? || t.CancelReturns? || t.SyncReturns? {
      MovesOn(s, t);
    } else {
      EndsOnly(s, t);
    }
    hide Enabled;
    hide After;
  }

  // A write-back ends the one call on its order.
  lemma WrittenIdle(s: State, t: Step, id: string)
    requires Inv(s) && OneCallEach(s) && Enabled(s, t) && id in s.orders
    requires t.SubmitWrite? || t.CancelWrite? || t.SyncWrite?
    requires s.calls[t.c].order.id == id
    ensures SafeFor(After(s, t), id)
  {
    EndsOnly(s, t);
    CreatingUnstored(s);
    hide Inv;
    hide After;
    hide Harmless;
    var s' := After(s, t);
    assert forall d | d in s'.calls :: s'.calls[d].order.id != id;
  }

  lemma CreatingUnstored(s: State)
    requires Inv(s)
    ensures forall c | c in s.calls && s.calls[c].Creating? :: s.calls[c].order.id !in s.orders
  {
  }

  lemma IdleSafe(s: State, id: string)
    requires Inv(s) && Idle(s, id) && id in s.orders
    ensures SafeFor(s, id)
  {
    CreatingUnstored(s);
    hide Inv;
    hide Harmless;
  }

  // An order that a step makes terminal has no harmful call left.
  lemma BecomesSafe(s: State, t: Step, id: string)
    requires Inv(s) && OneCallEach(s) && Enabled(s, t) && Spaced(s, t)
    requires id in After(s, t).orders && Terminal(After(s, t).orders[id].status)
    requires id in s.orders ==> !Terminal(s.orders[id].status)
    ensures SafeFor(After(s, t), id)
  {
    hide *;
    match t
    case SubmitWrite(c, now) => WriteChanges(s, t, id);
    case CancelWrite(c, now) => WriteChanges(s, t, id);
    case SyncWrite(c, provider, now) => WriteChanges(s, t, id);
    case WsReport(input, report, now) => ReportChanges(s, input, report, now, id);
    case Insert(c, created, now) => InsertChanges(s, c, created, now, id);
    case _ => QuietStepKeeps(s, t);
  }

  lemma WriteChanges(s: State, t: Step, id: string)
    requires Inv(s) && OneCallEach(s) && Enabled(s, t) && id in After(s, t).orders
    requires t.SubmitWrite? || t.CancelWrite? || t.SyncWrite?
    requires Terminal(After(s, t).orders[id].status) && (id in s.orders ==> !Terminal(s.orders[id].status))
    ensures SafeFor(After(s, t), id)
  {
    WriteTouches(s, t, id);
    hide *;
    WrittenIdle(s, t, id);
  }

  lemma ReportChanges(s: State, input: StatusInput, report: StatusReport, now: Time, id: string)
    requires Inv(s) && Spaced(s, WsReport(input, report, now))
    requires id in After(s, WsReport(input, report, now)).orders
    requires Terminal(After(s, WsReport(input, report, now)).orders[id].status)
    requires id in s.orders ==> !Terminal(s.orders[id].status)
    ensures SafeFor(After(s, WsReport(input, report, now)), id)
  {
    hide *;
    ReportEffect(s, input, report, now);
    AfterReportKeys(s.orders, input, report, now);
    AfterReportAt(s.orders, id, input, report, now);
    MatchedIdle(s, input, report, now, id);
    IdleSafe(s, id);
    SafeEnds(s, After(s, WsReport(input, report, now)), id);
  }

  lemma MatchedIdle(s: State, input: StatusInput, report: StatusReport, now: Time, id: string)
    requires Spaced(s, WsReport(input, report, now)) && id in s.orders && Matches(s.orders[id], input, report)
    ensures Idle(s, id)
  {
    hide Matches;
    hide Idle;
  }

  lemma InsertChanges(s: State, c: nat, created: Order, now: Time, id: string)
    requires Inv(s) && Enabled(s, Insert(c, created, now)) && id in After(s, Insert(c, created, now)).orders
    requires id in s.orders ==> !Terminal(s.orders[id].status)
    ensures !Terminal(After(s, Insert(c, created, now)).orders[id].status)
  {
    var order := s.calls[c].order;
    assert Fresh(order) && order.id !in s.orders;
    InsertEffect(s, c, created, now);
    PendingNotTerminal();
    FiledPending(order, now);
    hide Inv;
    hide After;
    hide Fresh;
    hide CreateReturns;
    hide Terminal;
    hide HasDuplicate;
    hide Filed;
  }

  lemma FiledPending(order: Order, now: Time)
    requires Fresh(order)
    ensures Filed(order, "", now).status == PENDING
  {
  }

  lemma AllSafeStep(s: State, t: Step)
    requires Inv(s) && OneCallEach(s) && AllSafe(s) && Enabled(s, t) && SettledStep(t) && Spaced(s, t)
    ensures AllSafe(After(s, t))
  {
    hide Inv;
    hide OneCallEach;
    hide Enabled;
    hide After;
    hide SettledStep;
    hide Spaced;
    hide SafeFor;
    hide Terminal;
    forall id | id in After(s, t).orders && Terminal(After(s, t).orders[id].status) ensures SafeFor(After(s, t), id) {
      if id in s.orders && Terminal(s.orders[id].status) {
        SafeStep(s, t, id);
      } else {
        BecomesSafe(s, t, id);
      }
    }
  }

  lemma PerOrderStep(s: State, t: Step)
    requires PerOrderInv(s) && Enabled(s, t) && SettledStep(t) && Spaced(s, t)
    ensures PerOrderInv(After(s, t)) && TerminalKept(s.orders, After(s, t).orders)
  {
    hide Inv;
    hide OneCallEach;
    hide Enabled;
    hide After;
    hide SettledStep;
    hide Spaced;
    hide SafeFor;
    hide Terminal;
    StepKeeps(s, t);
    OneCallStep(s, t);
    AllSafeStep(s, t);
    forall id | id in s.orders && Terminal(s.orders[id].status)
      ensures id in After(s, t).orders && Terminal(After(s, t).orders[id].status)
    {
      SettledAt(s, id);
      SettledKept(s, t, id);
      SettledIs(After(s, t), id);
    }
  }

  lemma SettledAt(s: State, id: string)
    requires PerOrderInv(s) && id in s.orders && Terminal(s.orders[id].status)
    ensures Settled(s, id)
  {
    hide Inv;
    hide Terminal;
    hide SafeFor;
  }

  lemma SettledIs(s: State, id: string)
    requires Settled(s, id)
    ensures id in s.orders && Terminal(s.orders[id].status)
  {
    hide Terminal;
  }

  // Terminal states absorb: over every run in which calls and reports on one order do not
  // overlap and provider statuses are settling, an order once terminal stays terminal.
  lemma TerminalAbsorbs(before: seq<Step>, later: seq<Step>)
    requires Legal(PerOrder, Init(), before + later)
    ensures TerminalKept(Exec(PerOrder, Init(), before).orders, Exec(PerOrder, Init(), before + later).orders)
  {
    InitInv();
    assert PerOrderInv(Init()) by {
      hide Inv;
    }
    Append(PerOrder, Init(), before, later);
    PerOrderRunKeeps(Init(), before);
    PerOrderRunKeeps(Exec(PerOrder, Init(), before), later);
  }

  lemma PerOrderRunKeeps(s: State, steps: seq<Step>)
    requires PerOrderInv(s) && Legal(PerOrder, s, steps)
    ensures var s' := Exec(PerOrder, s, steps); PerOrderInv(s') && TerminalKept(s.orders, s'.orders)
  {
    hide PerOrderInv;
    hide Enabled;
    hide After;
    hide Spaced;
    hide SettledStep;
    hide Terminal;
    forall a, t | PerOrderInv(a) && PerOrder.enabled(a, t)
      ensures PerOrderInv(PerOrder.next(a, t)) && TerminalKept(a.orders, PerOrder.next(a, t).orders)
    {
      PerOrderStep(a, t);
    }
    Progress(PerOrder, a => PerOrderInv(a), (a: State, b: State) => TerminalKept(a.orders, b.orders), s, steps);
  }

  // Such a run: the answer to a submission is lost, a sync reads the pending order, a
  // websocket report fills it, and the sync's late "submitted" is written over the fill.
  lemma OverlappingSyncReopens(order: Order)
    requires Fresh(order) && order.cloid != "" && order.userAddress != ""
    ensures var before, later := FilledDuringSync(order), LateWriteBack();
            var middle, end := Exec(Protocol, Init(), before), Exec(Protocol, Init(), before + later);
            && Legal(Protocol, Init(), before + later)
            && order.id in middle.orders && middle.orders[order.id].status == FILLED && Terminal(FILLED)
            && order.id in end.orders && end.orders[order.id].status == SUBMITTED && !Terminal(SUBMITTED)
  {
    FilledFixed();
    StatusFixed();
    NamesApart();
    TerminalFixedPoints(FILLED);
    TerminalFixedPoints(SUBMITTED);
    assert SUBMITTED != FILLED && SUBMITTED != FAILED;
    hide Terminal;
    hide FixedPoint;
    FilledTrace(order);
    ReportedFilled(order);
    var before, later := FilledDuringSync(order), LateWriteBack();
    Append(Protocol, Init(), before, later);
    LateTrace(order);
  }

  lemma FilledFixed()
    ensures FixedPoint(FILLED)
  {
    PlainFilled();
    PlainFolded(FILLED);
    NamesNormalizeFolded();
    hide Folded;
    hide Plain;
    hide NormalizeFolded;
  }

  // What the bridge makes of the websocket item that says the order is filled.
  function FillInput(order: Order): StatusInput {
    StatusInput("", order.userAddress, "", OID, order.cloid, order.symbol)
  }

  function FillReport(order: Order): StatusReport {
    StatusReport(OID, order.cloid, FILLED, map[], STARTED)
  }

  // What the exchange said of the resting order before.
  const LATE_REPORT := StatusReport(OID, "", SUBMITTED, map[], STARTED)

  function FilledDuringSync(order: Order): seq<Step> {
    SentSteps(order) +
    [SubmitReturns(0, None), BeginSync(1, order.id), WsReport(FillInput(order), FillReport(order), STARTED)]
  }

  function LateWriteBack(): seq<Step> {
    [SyncReturns(1, Some(LATE_REPORT)), SyncWrite(1, EXCHANGE, STARTED)]
  }

  // The state once the fill has been reported.
  function FilledState(order: Order): State {
    var filed := FiledOrder(order);
    State(map[order.id := Reported(filed, FillReport(order), STARTED)], map[1 := Syncing(filed)], {order.id},
          [order.id])
  }

  lemma OnlyReport(order: Order, input: StatusInput, report: StatusReport, now: Time)
    requires Matches(order, input, report)
    ensures AfterReport(map[order.id := order], input, report, now) == map[order.id := Reported(order, report, now)]
  {
    hide Matches;
    hide Reported;
  }

  lemma MatchesByCloid(order: Order)
    requires Fresh(order) && order.cloid != ""
    ensures Matches(FiledOrder(order), FillInput(order), FillReport(order))
  {
    FiledIs(order);
    hide FiledOrder;
    hide FILLED;
    hide OID;
  }

  lemma FilledStateIs(order: Order, filed: Order)
    requires filed == FiledOrder(order)
    ensures FilledState(order) ==
            State(map[order.id := Reported(filed, FillReport(order), STARTED)], map[1 := Syncing(filed)], {order.id},
                  [order.id])
  {
    hide Reported;
  }

  lemma FirstReport(order: Order, filed: Order)
    requires Fresh(order) && order.cloid != "" && filed == FiledOrder(order) && filed.id == order.id
    ensures var s := State(map[order.id := filed], map[1 := Syncing(filed)], {order.id}, [order.id]);
            var t := WsReport(FillInput(order), FillReport(order), STARTED);
            Enabled(s, t) && After(s, t) == FilledState(order)
  {
    FilledStateIs(order, filed);
    hide *;
    MatchesByCloid(order);
    OnlyReport(filed, FillInput(order), FillReport(order), STARTED);
    ReportEffect(State(map[order.id := filed], map[1 := Syncing(filed)], {order.id}, [order.id]),
                 FillInput(order), FillReport(order), STARTED);
  }

  // The answer is lost, and the order is read.
  lemma FirstReads(order: Order, filed: Order)
    requires filed.id == order.id
    ensures var orders: OrderMap, ids := map[order.id := filed], {order.id};
            var sent := State(orders, map[0 := AwaitingSubmit(filed)], ids, [order.id]);
            var idle := State(orders, NOTHING, ids, [order.id]);
            && Enabled(sent, SubmitReturns(0, None)) && After(sent, SubmitReturns(0, None)) == idle
            && Enabled(idle, BeginSync(1, order.id))
            && After(idle, BeginSync(1, order.id)) == State(orders, map[1 := Syncing(filed)], ids, [order.id])
  {
    Replaced(NOTHING, 0, AwaitingSubmit(filed), AwaitingSubmit(filed));
  }

  lemma FilledTrace(order: Order)
    requires Fresh(order) && order.cloid != ""
    ensures Legal(Protocol, Init(), FilledDuringSync(order))
    ensures Exec(Protocol, Init(), FilledDuringSync(order)) == FilledState(order)
  {
    var filed, xs := FiledOrder(order), SentSteps(order);
    FiledIs(order);
    SentTrace(order);
    FirstReads(order, filed);
    FirstReport(order, filed);
    var t0, t1, t2 := SubmitReturns(0, None), BeginSync(1, order.id),
      WsReport(FillInput(order), FillReport(order), STARTED);
    assert FilledDuringSync(order) == xs + [t0, t1, t2];
    assert SentState(order) ==
           State(map[order.id := filed], map[0 := AwaitingSubmit(filed)], {order.id}, [order.id]);
    hide *;
    ProtocolStep(Init(), xs, SentState(order), t0);
    ProtocolStep(Init(), xs + [t0], State(map[order.id := filed], NOTHING, {order.id}, [order.id]), t1);
    ProtocolStep(Init(), xs + [t0] + [t1],
                 State(map[order.id := filed], map[1 := Syncing(filed)], {order.id}, [order.id]), t2);
    AfterThree(xs, t0, t1, t2);
  }

  lemma ReportedFilled(order: Order)
    requires Fresh(order)
    ensures Reported(FiledOrder(order), FillReport(order), STARTED).status == FILLED
  {
    FilledFixed();
    FixedPointPlain(FILLED);
    NamesApart();
    assert FILLED != SUBMITTED;
    hide Normalize;
  }

  lemma LateTrace(order: Order)
    requires Fresh(order)
    ensures Legal(Protocol, FilledState(order), LateWriteBack())
    ensures var end := Exec(Protocol, FilledState(order), LateWriteBack());
            order.id in end.orders && end.orders[order.id].status == SUBMITTED
  {
    var filed, s0 := FiledOrder(order), FilledState(order);
    var s1 := s0.(calls := map[1 := SyncAnswered(filed, LATE_REPORT)]);
    FiledIs(order);
    assert s0.calls == map[1 := Syncing(filed)] && order.id in s0.orders && filed.id == order.id;
    LateSync(filed);
    NoSteps(Protocol, s0);
    LateSteps(s0, filed);
    hide *;
    var t0, t1 := SyncReturns(1, Some(LATE_REPORT)), SyncWrite(1, EXCHANGE, STARTED);
    ProtocolStep(s0, [], s0, t0);
    ProtocolStep(s0, [] + [t0], s1, t1);
    InTwo(t0, t1);
    PatchedStatus(s0.orders[order.id], SyncPatch(filed, LATE_REPORT, EXCHANGE, STARTED), STARTED);
  }

  lemma LateSteps(s0: State, filed: Order)
    requires s0.calls == map[1 := Syncing(filed)] && filed.id in s0.orders
    requires SyncPatch(filed, LATE_REPORT, EXCHANGE, STARTED).id == filed.id
    ensures var s1 := s0.(calls := map[1 := SyncAnswered(filed, LATE_REPORT)]);
            var t0, t1 := SyncReturns(1, Some(LATE_REPORT)), SyncWrite(1, EXCHANGE, STARTED);
            var patch := SyncPatch(filed, LATE_REPORT, EXCHANGE, STARTED);
            && LateWriteBack() == [t0, t1]
            && Enabled(s0, t0) && After(s0, t0) == s1 && Enabled(s1, t1)
            && After(s1, t1).orders == s0.orders[filed.id := Patched(s0.orders[filed.id], patch, STARTED)]
  {
    hide SyncPatch;
    hide Patched;
    hide LATE_REPORT;
    var s1 := s0.(calls := map[1 := SyncAnswered(filed, LATE_REPORT)]);
    assert s0.calls[1 := SyncAnswered(filed, LATE_REPORT)] == s1.calls;
  }

  lemma LateSync(filed: Order)
    requires filed.status == PENDING
    ensures var patch := SyncPatch(filed, LATE_REPORT, EXCHANGE, STARTED);
            patch.id == filed.id && patch.status == SUBMITTED && FixedPoint(SUBMITTED)
  {
    StatusFixed();
    PendingNotTerminal();
    MergeReopensOnly(PENDING, SUBMITTED);
    hide MergeSynced;
    hide Normalize;
    hide Terminal;
    hide FirstNonEmpty;
  }
}

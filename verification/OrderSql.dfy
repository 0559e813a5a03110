// The status update of a websocket report as the SQL store writes it, beside the Go one.
module OrderSql {
  import opened Results
  import opened Runs
  import opened Clock
  import opened OrderStatus
  import opened Orders
  import opened OrderRuns

  // The new status: a row with one of the four final names ignores "submitted", an empty
  // report changes nothing, and anything else replaces the status. Names are compared as
  // they are stored, without folding.
  function SqlStatus(status: string, next: string): string {
    if TerminalFolded(status) && next == SUBMITTED then status
    else if next == "" then status
    else next
  }

  // The new cancellation time: a row that becomes cancelled gets one unless it has one.
  function SqlCancelledAt(cancelledAt: Option<Time>, next: string, now: Time): Option<Time> {
    if next == CANCELLED then (if cancelledAt.Some? then cancelledAt else Some(now)) else cancelledAt
  }

  // The two forms give the same next status unless the stored status is terminal only
  // after folding and the report normalises to "submitted".
  lemma SqlStatusIff(status: string, reported: string)
    ensures var next := Normalize(reported);
            SqlStatus(status, next) == MergeSynced(status, next) <==>
              (next == SUBMITTED && Terminal(status) ==> TerminalFolded(status))
  {
    NormalizeIdempotent(reported);
    LiteralsTerminal(status);
    NamesApart();
    hide Normalize;
    hide Terminal;
  }

  lemma LiteralsTerminal(status: string)
    ensures TerminalFolded(status) ==> Terminal(status)
    ensures status == SUBMITTED ==> !Terminal(status)
  {
    if TerminalFolded(status) || status == SUBMITTED {
      PlainLiteral(status);
      PlainFolded(status);
      NamesApart();
    }
    hide Folded;
    hide TerminalFolded;
  }

  lemma PlainLiteral(status: string)
    requires TerminalFolded(status) || status == SUBMITTED
    ensures Plain(status)
  {
    hide Plain;
    PlainNames();
    PlainRejected();
  }

  lemma PlainRejected()
    ensures Plain(REJECTED)
  {
    PlainIfLower(REJECTED);
  }

  // They agree on whether the order has a cancellation time unless a cancelled order
  // without one gets a report that normalises to "submitted".
  lemma SqlCancelledIff(order: Order, report: StatusReport, now: Time)
    ensures var next := Normalize(report.status);
            SqlCancelledAt(order.cancelledAt, next, now).Some? == Reported(order, report, now).cancelledAt.Some? <==>
              (order.status == CANCELLED && next == SUBMITTED ==> order.cancelledAt.Some?)
  {
    NormalizeIdempotent(report.status);
    LiteralsTerminal(order.status);
    NamesApart();
    hide Normalize;
    hide Terminal;
  }

  // In every reachable state both conditions hold of every stored order, so the SQL and the
  // Go update agree on it.
  lemma SqlAgreesInEveryRun(steps: seq<Step>, id: string, report: StatusReport, now: Time)
    requires Legal(Protocol, Init(), steps) && id in Exec(Protocol, Init(), steps).orders
    ensures var order := Exec(Protocol, Init(), steps).orders[id];
            var next := Normalize(report.status);
            && SqlStatus(order.status, next) == Reported(order, report, now).status
            && SqlCancelledAt(order.cancelledAt, next, now).Some? == Reported(order, report, now).cancelledAt.Some?
  {
    StoredOrdersSound(steps);
    var order := Exec(Protocol, Init(), steps).orders[id];
    TerminalFixedPoints(order.status);
    SqlStatusIff(order.status, report.status);
    SqlCancelledIff(order, report, now);
    hide Normalize;
    hide Terminal;
    hide Protocol;
  }
}

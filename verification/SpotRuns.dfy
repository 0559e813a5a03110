// Interleaved spot order calls: the check for an earlier request and the insert are
// separate steps, with the quote between them.
module SpotRuns {
  import opened Results
  import opened Runs
  import opened Clock
  import opened Text
  import opened SpotOrders

  datatype Call = Checked(userId: string, request: string) | Ready(order: Order)

  // A create call that returned order `id` for a user's request.
  datatype Answer = Answer(userId: string, request: string, id: string)

  datatype State = State(orders: OrderMap, calls: map<nat, Call>, ids: set<string>, answers: seq<Answer>)

  datatype Step =
    | Hit(userId: string, request: string, found: Order)
    | Miss(c: nat, userId: string, request: string)
    | Prepare(c: nat, order: Order)
    | Insert(c: nat, created: Order)
    | SetStatus(id: string, update: StatusUpdate, now: Time)
    | Abandon(c: nat)

  function Init(): State {
    State(map[], map[], {}, [])
  }

  predicate Enabled(s: State, t: Step) {
    match t
    case Hit(userId, request, found) => request != "" && FindReturns(s.orders, userId, request, Some(found))
    case Miss(c, userId, request) => c !in s.calls && (request == "" || FindReturns(s.orders, userId, request, None))
    case Prepare(c, order) =>
      && c in s.calls && s.calls[c] == Checked(order.userId, order.clientRequestId)
      && order.id !in s.ids && order.status == PENDING && order.filledAt.None? && Quoted(order)
    case Insert(c, created) => c in s.calls && s.calls[c].Ready? && CreateReturns(s.orders, s.calls[c].order, created)
    case SetStatus(_, update, _) => update.status in STATUSES
    case Abandon(c) => c in s.calls
  }

  function After(s: State, t: Step): State {
    if !Enabled(s, t) then s
    else
      match t
      case Hit(userId, request, found) => s.(answers := s.answers + [Answer(userId, request, found.id)])
      case Miss(c, userId, request) => s.(calls := s.calls[c := Checked(userId, request)])
      case Prepare(c, order) => s.(calls := s.calls[c := Ready(order)], ids := s.ids + {order.id})
      case Insert(c, created) =>
        var order := s.calls[c].order;
        s.(orders := AfterCreate(s.orders, order), calls := s.calls - {c},
           answers := s.answers + [Answer(order.userId, order.clientRequestId, created.id)])
      case SetStatus(id, update, now) => s.(orders := AfterStatus(s.orders, id, update, now))
      case Abandon(c) => s.(calls := s.calls - {c})
  }

  ghost const Protocol: Machine<State, Step> := Machine((s, t) => Enabled(s, t), (s, t) => After(s, t))

  lemma ProtocolStep(start: State, steps: seq<Step>, s: State, t: Step)
    requires Legal(Protocol, start, steps) && Exec(Protocol, start, steps) == s && Enabled(s, t)
    ensures Legal(Protocol, start, steps + [t]) && Exec(Protocol, start, steps + [t]) == After(s, t)
  {
    hide Enabled;
    hide After;
    Extend(Protocol, start, steps, t);
  }

  ghost predicate IdsDistinct(s: State) {
    && (forall id | id in s.orders :: s.orders[id].id == id && id in s.ids)
    && (forall c | c in s.calls && s.calls[c].Ready? ::
          s.calls[c].order.id in s.ids && s.calls[c].order.id !in s.orders && Quoted(s.calls[c].order))
    && (forall c, d | c in s.calls && d in s.calls && c != d && s.calls[c].Ready? && s.calls[d].Ready? ::
          s.calls[c].order.id != s.calls[d].order.id)
  }

  // At most one stored order per user and non-empty client request id.
  ghost predicate OnePerRequest(orders: OrderMap) {
    forall i, j | i in orders && j in orders && i != j && orders[i].clientRequestId != "" ::
      !SameRequest(orders[j], orders[i].userId, orders[i].clientRequestId)
  }

  // Every answer names a stored order of its user and request.
  ghost predicate Answered(orders: OrderMap, answers: seq<Answer>) {
    forall k | 0 <= k < |answers| ::
      answers[k].id in orders && SameRequest(orders[answers[k].id], answers[k].userId, answers[k].request)
  }

  ghost predicate AllQuoted(orders: OrderMap) {
    forall id | id in orders :: Quoted(orders[id])
  }

  ghost predicate Inv(s: State) {
    IdsDistinct(s) && OnePerRequest(s.orders) && Answered(s.orders, s.answers) && AllQuoted(s.orders)
  }

  predicate AllEvolve(before: OrderMap, after: OrderMap) {
    forall id | id in before :: id in after && Evolves(before[id], after[id])
  }

  ghost predicate Kept(s: State, s': State) {
    Inv(s') && AllEvolve(s.orders, s'.orders) && s.answers <= s'.answers
  }

  lemma FoundStored(orders: OrderMap, userId: string, request: string, found: Order)
    requires (forall id | id in orders :: orders[id].id == id) && FindReturns(orders, userId, request, Some(found))
    ensures found.id in orders && orders[found.id] == found && SameRequest(found, userId, request)
  {
    var id :| id in orders && orders[id] == found;
  }

  lemma EvolveSelf(orders: OrderMap)
    ensures AllEvolve(orders, orders)
  {
  }

  lemma AnswersKeep(orders: OrderMap, answers: seq<Answer>, a: Answer)
    requires Answered(orders, answers) && a.id in orders && SameRequest(orders[a.id], a.userId, a.request)
    ensures Answered(orders, answers + [a])
  {
    hide SameRequest;
  }

  lemma IdsOnly(s: State, answers: seq<Answer>)
    requires IdsDistinct(s)
    ensures IdsDistinct(s.(answers := answers))
  {
    hide Quoted;
  }

  lemma HitKeeps(s: State, userId: string, request: string, found: Order)
    requires Inv(s) && Enabled(s, Hit(userId, request, found))
    ensures Kept(s, After(s, Hit(userId, request, found)))
  {
    EvolveSelf(s.orders);
    FoundStored(s.orders, userId, request, found);
    AnswersKeep(s.orders, s.answers, Answer(userId, request, found.id));
    IdsOnly(s, s.answers + [Answer(userId, request, found.id)]);
    hide IdsDistinct;
    hide FindReturns;
    hide OnePerRequest;
    hide Answered;
    hide AllQuoted;
    hide AllEvolve;
  }

  lemma CallsKeep(s: State, calls': map<nat, Call>, ids': set<string>)
    requires Inv(s) && IdsDistinct(s.(calls := calls', ids := ids'))
    ensures Kept(s, s.(calls := calls', ids := ids'))
  {
    EvolveSelf(s.orders);
    hide IdsDistinct;
    hide OnePerRequest;
    hide Answered;
    hide AllQuoted;
    hide AllEvolve;
  }

  lemma MissKeeps(s: State, c: nat, userId: string, request: string)
    requires Inv(s) && Enabled(s, Miss(c, userId, request))
    ensures Kept(s, After(s, Miss(c, userId, request)))
  {
    hide Quoted;
    hide FindReturns;
    hide OnePerRequest;
    hide Answered;
    hide Kept;
    CallsKeep(s, s.calls[c := Checked(userId, request)], s.ids);
  }

  lemma PrepareKeeps(s: State, c: nat, order: Order)
    requires Inv(s) && Enabled(s, Prepare(c, order))
    ensures Kept(s, After(s, Prepare(c, order)))
  {
    hide Quoted;
    hide OnePerRequest;
    hide Answered;
    hide Kept;
    CallsKeep(s, s.calls[c := Ready(order)], s.ids + {order.id});
  }

  lemma AbandonKeeps(s: State, c: nat)
    requires Inv(s) && Enabled(s, Abandon(c))
    ensures Kept(s, After(s, Abandon(c)))
  {
    hide Quoted;
    hide OnePerRequest;
    hide Answered;
    hide Kept;
    CallsKeep(s, s.calls - {c}, s.ids);
  }

  lemma StoredOrAdded(orders: OrderMap, order: Order, created: Order)
    requires (forall id | id in orders :: orders[id].id == id) && order.id !in orders
    requires CreateReturns(orders, order, created) && OnePerRequest(orders)
    ensures var orders' := AfterCreate(orders, order);
            && OnePerRequest(orders') && Extends(orders, orders', order)
            && created.id in orders' && orders'[created.id] == created
            && SameRequest(created, order.userId, order.clientRequestId)
  {
    if Duplicates(orders, order) {
      var id :| id in orders && orders[id] == created && SameRequest(created, order.userId, order.clientRequestId);
    }
  }

  // orders' is orders, perhaps with one order added.
  ghost predicate Extends(orders: OrderMap, orders': OrderMap, order: Order) {
    && (forall id | id in orders :: id in orders' && orders'[id] == orders[id])
    && (forall id | id in orders' && id !in orders :: id == order.id && orders'[id] == order)
  }

  lemma ExtendsKeeps(s: State, c: nat, orders': OrderMap)
    requires IdsDistinct(s) && AllQuoted(s.orders) && Answered(s.orders, s.answers)
    requires c in s.calls && s.calls[c].Ready? && Extends(s.orders, orders', s.calls[c].order)
    ensures IdsDistinct(s.(orders := orders', calls := s.calls - {c}))
    ensures AllQuoted(orders') && Answered(orders', s.answers)
  {
    hide Quoted;
    hide SameRequest;
  }

  lemma ExtendsEvolves(orders: OrderMap, orders': OrderMap, order: Order)
    requires Extends(orders, orders', order)
    ensures AllEvolve(orders, orders')
  {
    hide Evolves;
    forall id | id in orders ensures Evolves(orders[id], orders'[id]) {
      OrderEvolves(orders[id]);
    }
  }

  lemma OrderEvolves(order: Order)
    ensures Evolves(order, order)
  {
  }

  lemma InsertParts(s: State, c: nat, created: Order)
    requires Inv(s) && Enabled(s, Insert(c, created))
    ensures s.calls[c].order.id !in s.orders && (forall id | id in s.orders :: s.orders[id].id == id)
    ensures CreateReturns(s.orders, s.calls[c].order, created)
    ensures var order := s.calls[c].order;
            After(s, Insert(c, created)) ==
              s.(orders := AfterCreate(s.orders, order), calls := s.calls - {c},
                 answers := s.answers + [Answer(order.userId, order.clientRequestId, created.id)])
  {
    hide AfterCreate;
    hide CreateReturns;
    hide OnePerRequest;
    hide Answered;
    hide AllQuoted;
    hide Quoted;
  }

  lemma InsertKeeps(s: State, c: nat, created: Order)
    requires Inv(s) && Enabled(s, Insert(c, created))
    ensures Kept(s, After(s, Insert(c, created)))
  {
    var order := s.calls[c].order;
    var orders' := AfterCreate(s.orders, order);
    InsertParts(s, c, created);
    hide Enabled;
    hide After;
    hide CreateReturns;
    hide AfterCreate;
    hide OnePerRequest;
    hide Answered;
    hide IdsDistinct;
    hide AllQuoted;
    hide AllEvolve;
    hide Extends;
    hide SameRequest;
    StoredOrAdded(s.orders, order, created);
    ExtendsKeeps(s, c, orders');
    ExtendsEvolves(s.orders, orders', order);
    AnswersKeep(orders', s.answers, Answer(order.userId, order.clientRequestId, created.id));
    var s1 := s.(orders := orders', calls := s.calls - {c});
    IdsOnly(s1, After(s, Insert(c, created)).answers);
  }

  lemma EvolvesFrozen(a: Order, b: Order)
    requires Evolves(a, b)
    ensures a.id == b.id && a.userId == b.userId && a.clientRequestId == b.clientRequestId
  {
  }

  lemma ReplacedIds(s: State, id: string, order: Order)
    requires IdsDistinct(s) && id in s.orders && order.id == id
    ensures IdsDistinct(s.(orders := s.orders[id := order]))
  {
    hide Quoted;
  }

  lemma ReplacedRequests(orders: OrderMap, answers: seq<Answer>, id: string, order: Order)
    requires OnePerRequest(orders) && Answered(orders, answers) && id in orders
    requires order.userId == orders[id].userId && order.clientRequestId == orders[id].clientRequestId
    ensures OnePerRequest(orders[id := order]) && Answered(orders[id := order], answers)
  {
  }

  lemma ReplacedQuoted(orders: OrderMap, id: string, order: Order)
    requires AllQuoted(orders) && Quoted(order)
    ensures AllQuoted(orders[id := order])
  {
    hide Quoted;
  }

  lemma ReplacedKeeps(s: State, id: string, order: Order)
    requires Inv(s) && id in s.orders && Evolves(s.orders[id], order) && Quoted(order)
    ensures Kept(s, s.(orders := s.orders[id := order]))
  {
    EvolvesFrozen(s.orders[id], order);
    assert s.orders[id].id == id;
    hide Quoted;
    hide Evolves;
    hide AllEvolve;
    hide IdsDistinct;
    hide OnePerRequest;
    hide Answered;
    hide AllQuoted;
    ReplacedEvolves(s.orders, id, order);
    ReplacedIds(s, id, order);
    ReplacedRequests(s.orders, s.answers, id, order);
    ReplacedQuoted(s.orders, id, order);
  }

  lemma ReplacedEvolves(orders: OrderMap, id: string, order: Order)
    requires id in orders && Evolves(orders[id], order)
    ensures AllEvolve(orders, orders[id := order])
  {
    hide Evolves;
    forall i | i in orders ensures Evolves(orders[i], orders[i]) {
      OrderEvolves(orders[i]);
    }
  }

  lemma StatusKeeps(s: State, id: string, update: StatusUpdate, now: Time)
    requires Inv(s) && Enabled(s, SetStatus(id, update, now))
    ensures Kept(s, After(s, SetStatus(id, update, now)))
  {
    assert AllQuoted(s.orders);
    hide Inv;
    hide Kept;
    hide Quoted;
    hide Restatused;
    if id in s.orders {
      RestatusedEvolves(s.orders[id], update, now);
      ReplacedKeeps(s, id, Restatused(s.orders[id], update, now));
    } else {
      SameKept(s);
    }
  }

  lemma SameKept(s: State)
    requires Inv(s)
    ensures Kept(s, s)
  {
    EvolveSelf(s.orders);
    hide Inv;
    hide AllEvolve;
  }

  lemma RestatusedEvolves(order: Order, update: StatusUpdate, now: Time)
    ensures Evolves(order, Restatused(order, update, now))
    ensures Quoted(order) ==> Quoted(Restatused(order, update, now))
  {
    hide TrimSpace;
  }

  lemma StepKeeps(s: State, t: Step)
    requires Inv(s) && Enabled(s, t)
    ensures Kept(s, After(s, t))
  {
    hide *;
    match t
    case Hit(userId, request, found) => HitKeeps(s, userId, request, found);
    case Miss(c, userId, request) => MissKeeps(s, c, userId, request);
    case Prepare(c, order) => PrepareKeeps(s, c, order);
    case Insert(c, created) => InsertKeeps(s, c, created);
    case SetStatus(id, update, now) => StatusKeeps(s, id, update, now);
    case Abandon(c) => AbandonKeeps(s, c);
  }

  lemma EvolvesTransitive(a: OrderMap, b: OrderMap, c: OrderMap)
    requires AllEvolve(a, b) && AllEvolve(b, c)
    ensures AllEvolve(a, c)
  {
  }

  lemma RunKeeps(s: State, steps: seq<Step>)
    requires Inv(s) && Legal(Protocol, s, steps)
    ensures Kept(s, Exec(Protocol, s, steps))
  {
    forall a, t | Inv(a) && Protocol.enabled(a, t)
      ensures Inv(Protocol.next(a, t)) && Grown(a, Protocol.next(a, t))
    {
      StepKeeps(a, t);
      hide Inv;
      hide AllEvolve;
    }
    forall a: State ensures Grown(a, a) {
    }
    forall a: State, b: State, c: State | Grown(a, b) && Grown(b, c) ensures Grown(a, c) {
      EvolvesTransitive(a.orders, b.orders, c.orders);
    }
    hide Inv;
    hide Grown;
    Progress(Protocol, a => Inv(a), (a: State, b: State) => Grown(a, b), s, steps);
    KeptIs(s, Exec(Protocol, s, steps));
  }

  ghost predicate Grown(a: State, b: State) {
    AllEvolve(a.orders, b.orders) && a.answers <= b.answers
  }

  lemma KeptIs(a: State, b: State)
    ensures Kept(a, b) <==> Inv(b) && Grown(a, b)
  {
    hide Inv;
    hide AllEvolve;
  }

  lemma InitInv()
    ensures Inv(Init())
  {
  }

  // Over every interleaving: at most one order is stored per user and non-empty request id,
  // and all calls that succeed with the same pair get the same order.
  lemma SameRequestSameOrder(steps: seq<Step>)
    requires Legal(Protocol, Init(), steps)
    ensures var s := Exec(Protocol, Init(), steps);
            && OnePerRequest(s.orders)
            && (forall k, l | 0 <= k < |s.answers| && 0 <= l < |s.answers| && s.answers[k].request != ""
                              && s.answers[k].userId == s.answers[l].userId
                              && s.answers[k].request == s.answers[l].request ::
                  s.answers[k].id == s.answers[l].id)
  {
    InitInv();
    RunKeeps(Init(), steps);
    hide Quoted;
    hide AllEvolve;
  }

  // Every stored order carries the amounts of a quote, so they stay within their bounds.
  lemma StoredAmountsBounded(steps: seq<Step>, id: string)
    requires Legal(Protocol, Init(), steps) && id in Exec(Protocol, Init(), steps).orders
    ensures AmountsBounded(Exec(Protocol, Init(), steps).orders[id])
  {
    InitInv();
    RunKeeps(Init(), steps);
    hide Quoted;
    hide AmountsBounded;
    hide AllEvolve;
    QuotedBounded(Exec(Protocol, Init(), steps).orders[id]);
  }

  // Stored orders keep everything but status, hash, failure code and times; a fill time
  // stays, and an order that becomes confirmed gets one.
  lemma OrdersOnlyEvolve(before: seq<Step>, later: seq<Step>)
    requires Legal(Protocol, Init(), before + later)
    ensures AllEvolve(Exec(Protocol, Init(), before).orders, Exec(Protocol, Init(), before + later).orders)
    ensures Exec(Protocol, Init(), before).answers <= Exec(Protocol, Init(), before + later).answers
  {
    Append(Protocol, Init(), before, later);
    InitInv();
    RunKeeps(Init(), before);
    RunKeeps(Exec(Protocol, Init(), before), later);
  }
}

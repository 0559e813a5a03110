// What holds of agent signing over whole runs: which requests take nonces, what disabling
// stops, and which actions can come to be signed.
module AgentRuns {
  import opened Results
  import opened Runs
  import opened Clock
  import opened Maps
  import opened Text
  import opened Nonces
  import opened Agents

  // The signatures and the stored nonces are those of a sequence of nonce requests, one for
  // each signature, for its agent.
  ghost predicate Served(rs: seq<Request>, signed: seq<Signature>, nonces: NonceMap) {
    && |rs| == |signed| && AfterRequests(rs) == nonces
    && (forall i | 0 <= i < |signed| ::
          && rs[i].agent == signed[i].call.wallet.agentAddress
          && Issued(rs)[i] == Issue(Key(signed[i]), signed[i].nonce))
  }

  ghost predicate FromRequests(s: State) {
    exists rs :: Served(rs, s.signed, s.nonces)
  }

  lemma ServedNext(rs: seq<Request>, s: State, c: nat, at: int)
    requires Served(rs, s.signed, s.nonces) && c in s.calls
    ensures var s' := After(s, SignNonce(c, at));
            Served(rs + [Request(s.calls[c].wallet.agentAddress, at)], s'.signed, s'.nonces)
  {
    hide AgentKey;
    var more := rs + [Request(s.calls[c].wallet.agentAddress, at)];
    assert more[..|rs|] == rs;
  }

  lemma RequestsStep(s: State, t: Step)
    requires FromRequests(s) && Enabled(s, t)
    ensures FromRequests(After(s, t))
  {
    hide Served;
    hide AfterSave;
    hide AfterStatus;
    hide LatestActive;
    hide ValidatePolicy;
    if t.SignNonce? {
      var rs :| Served(rs, s.signed, s.nonces);
      ServedNext(rs, s, t.c, t.at);
    }
  }

  // Over every run the nonces taken are exactly those of the calls that signed, one each
  // and in their order: a call that fails takes none. So the closed form of the nonces
  // speaks about signatures.
  lemma OnlySigningTakesNonces(steps: seq<Step>)
    requires Legal(Protocol, Init(), steps)
    ensures FromRequests(Exec(Protocol, Init(), steps))
  {
    hide Enabled;
    hide After;
    assert Served([], Init().signed, Init().nonces);
    hide FromRequests;
    forall a, t | FromRequests(a) && Protocol.enabled(a, t) ensures FromRequests(Protocol.next(a, t)) {
      RequestsStep(a, t);
    }
    assert FromRequests(Init()) by {
      StartsServed();
    }
    Invariant(Protocol, a => FromRequests(a), Init(), steps);
  }

  lemma StartsServed()
    ensures FromRequests(Init())
  {
    assert Served([], Init().signed, Init().nonces);
  }

  // No wallet of the user is active.
  ghost predicate Inactive(s: State, user: string) {
    forall k | k in s.wallets && EqualFold(s.wallets[k].userAddress, user) :: s.wallets[k].status != ACTIVE
  }

  // The step makes a wallet of the user active.
  predicate Activates(s: State, t: Step, user: string) {
    && t.SetStatus? && TrimOr(t.status, ACTIVE) == ACTIVE
    && WalletKey(t.user, t.agent) in s.wallets
    && EqualFold(s.wallets[WalletKey(t.user, t.agent)].userAddress, user)
  }

  // Runs without an activation for the user; new wallets may be created, also for them.
  ghost function Unactivated(user: string): Machine<State, Step> {
    Machine((s, t) => Enabled(s, t) && !Activates(s, t, user), (s, t) => After(s, t))
  }

  ghost predicate Running(s: State, user: string) {
    exists c | c in s.calls :: EqualFold(s.calls[c].user, user)
  }

  // Something was signed for the user after the first n signatures.
  ghost predicate SignedSince(s: State, n: nat, user: string) {
    exists i | n <= i < |s.signed| :: EqualFold(s.signed[i].call.user, user)
  }

  ghost predicate Silent(s: State, n: nat, user: string) {
    Inactive(s, user) && !Running(s, user) && n <= |s.signed| && !SignedSince(s, n, user)
  }

  lemma PendingNotActive()
    ensures PENDING_APPROVAL != ACTIVE && PENDING_APPROVAL != ""
  {
    assert PENDING_APPROVAL[0] != ACTIVE[0];
  }

  lemma InactiveCreate(s: State, t: Step, user: string)
    requires Inactive(s, user) && Enabled(s, t) && t.CreateWallet?
    ensures Inactive(After(s, t), user)
  {
    PendingNotActive();
    hide EqualFold;
    hide WalletKey;
    hide MergePolicy;
  }

  lemma InactiveStatus(s: State, t: Step, user: string)
    requires Inactive(s, user) && t.SetStatus? && !Activates(s, t, user)
    ensures Inactive(After(s, t), user)
  {
    hide EqualFold;
    hide WalletKey;
    hide TrimOr;
  }

  // With no active wallet of the user there is nothing to read for them.
  lemma NothingToRead(s: State, c: nat, call: SignCall, user: string)
    requires Inactive(s, user) && Enabled(s, SignRead(c, call))
    ensures !EqualFold(call.user, user)
  {
    hide ValidatePolicy;
    var k :| k in s.wallets && s.wallets[k] == call.wallet && ActiveFor(call.wallet, call.user);
  }

  lemma SilentStep(s: State, t: Step, n: nat, user: string)
    requires Silent(s, n, user) && Enabled(s, t) && !Activates(s, t, user)
    ensures Silent(After(s, t), n, user)
  {
    match t
    case CreateWallet(_, _, _, _, _) =>
      InactiveCreate(s, t, user);
      hide Inactive;
      hide EqualFold;
      hide AfterSave;
    case SetStatus(_, _, _, _) =>
      InactiveStatus(s, t, user);
      hide Inactive;
      hide EqualFold;
      hide AfterStatus;
    case SignRead(c, call) =>
      NothingToRead(s, c, call, user);
      hide Enabled;
      hide EqualFold;
    case SignNonce(c, at) =>
      hide EqualFold;
      hide AgentKey;
    case SignFails(c) =>
      hide EqualFold;
  }

  lemma SilentRun(s: State, later: seq<Step>, n: nat, user: string)
    requires Silent(s, n, user) && Legal(Unactivated(user), s, later)
    ensures Silent(Exec(Unactivated(user), s, later), n, user)
  {
    hide Silent;
    hide Enabled;
    hide After;
    hide Activates;
    forall a, t | Silent(a, n, user) && Unactivated(user).enabled(a, t)
      ensures Silent(Unactivated(user).next(a, t), n, user)
    {
      SilentStep(a, t, n, user);
    }
    Invariant(Unactivated(user), a => Silent(a, n, user), s, later);
  }

  // A running call can sign at once.
  lemma RunningSigns(s: State, c: nat, user: string) returns (later: seq<Step>)
    requires c in s.calls && EqualFold(s.calls[c].user, user)
    ensures Legal(Unactivated(user), s, later)
    ensures SignedSince(Exec(Unactivated(user), s, later), |s.signed|, user)
  {
    hide EqualFold;
    hide AgentKey;
    hide WalletKey;
    later := [SignNonce(c, 0)];
    var s' := After(s, SignNonce(c, 0));
    assert later[1..] == [];
    assert s'.signed[|s.signed|].call == s.calls[c];
  }

  // From a reachable state with no active wallet of a user, and as long as none is made
  // active, something can come to be signed for them if and only if a call of theirs is
  // already running: disabling stops every later call and no running one.
  lemma SignsAfterDisablingIff(before: seq<Step>, user: string)
    requires Legal(Protocol, Init(), before) && Inactive(Exec(Protocol, Init(), before), user)
    ensures var s := Exec(Protocol, Init(), before);
            (exists later :: Legal(Unactivated(user), s, later) &&
                             SignedSince(Exec(Unactivated(user), s, later), |s.signed|, user))
            <==> Running(s, user)
  {
    var s := Exec(Protocol, Init(), before);
    hide Legal;
    hide Exec;
    hide EqualFold;
    hide Inactive;
    if Running(s, user) {
      var c :| c in s.calls && EqualFold(s.calls[c].user, user);
      var later := RunningSigns(s, c, user);
    } else {
      forall later | Legal(Unactivated(user), s, later)
        ensures !SignedSince(Exec(Unactivated(user), s, later), |s.signed|, user)
      {
        SilentRun(s, later, |s.signed|, user);
      }
    }
  }

  // The three actions the risk invariants let a managed agent sign.
  predicate ManagedAction(action: string) {
    || EqualFold(NormalizeAction(action), "order")
    || EqualFold(NormalizeAction(action), "cancel")
    || EqualFold(NormalizeAction(action), "updateLeverage")
  }

  lemma AllowedAction(policy: Policy, action: string, i: nat)
    requires i < |policy.allowedActions| && policy.allowedActions[i] == action && NormalizeAction(action) != ""
    ensures ValidatePolicy(policy, action, "", 0).None?
  {
    NormalizeActionTwice(action);
    hide NormalizeAction;
  }

  // An effective policy confines signing to those three exactly when every action name it
  // lists is one of them or blank. Nothing else confines it: a wallet request may list others.
  lemma ManagedOnlyIff(policy: Policy)
    ensures (forall action, symbol, leverage ::
               ValidatePolicy(policy, action, symbol, leverage).None? ==> ManagedAction(action))
            <==> forall i | 0 <= i < |policy.allowedActions| ::
                   NormalizeAction(policy.allowedActions[i]) == "" || ManagedAction(policy.allowedActions[i])
  {
    hide ValidatePolicy;
    hide NormalizeAction;
    hide ManagedAction;
    var listed := forall i | 0 <= i < |policy.allowedActions| ::
      NormalizeAction(policy.allowedActions[i]) == "" || ManagedAction(policy.allowedActions[i]);
    if listed {
      forall action, symbol, leverage | ValidatePolicy(policy, action, symbol, leverage).None?
        ensures ManagedAction(action)
      {
        ManagedByList(policy, action, symbol, leverage);
      }
    } else {
      var i :| 0 <= i < |policy.allowedActions| && NormalizeAction(policy.allowedActions[i]) != ""
               && !ManagedAction(policy.allowedActions[i]);
      AllowedAction(policy, policy.allowedActions[i], i);
    }
  }

  lemma AllowedListed(policy: Policy, action: string, symbol: string, leverage: int)
    requires ValidatePolicy(policy, action, symbol, leverage).None?
    ensures NormalizeAction(action) != ""
    ensures exists i | 0 <= i < |policy.allowedActions| ::
              EqualFold(NormalizeAction(policy.allowedActions[i]), NormalizeAction(action))
  {
    NormalizeActionTwice(action);
    hide NormalizeAction;
    hide EqualFold;
  }

  lemma ManagedByList(policy: Policy, action: string, symbol: string, leverage: int)
    requires forall i | 0 <= i < |policy.allowedActions| ::
               NormalizeAction(policy.allowedActions[i]) == "" || ManagedAction(policy.allowedActions[i])
    requires ValidatePolicy(policy, action, symbol, leverage).None?
    ensures ManagedAction(action)
  {
    AllowedListed(policy, action, symbol, leverage);
    hide NormalizeAction;
    hide ValidatePolicy;
    hide ManagedAction;
    var i :| 0 <= i < |policy.allowedActions| &&
             EqualFold(NormalizeAction(policy.allowedActions[i]), NormalizeAction(action));
    FoldsAlike(policy.allowedActions[i], action);
  }

  lemma FoldsAlike(listed: string, action: string)
    requires EqualFold(NormalizeAction(listed), NormalizeAction(action)) && NormalizeAction(action) != ""
    ensures NormalizeAction(listed) != "" && (ManagedAction(listed) ==> ManagedAction(action))
  {
    hide NormalizeAction;
    assert |ToLower(NormalizeAction(action))| == |NormalizeAction(action)|;
  }

  // The default policy meets the condition.
  lemma DefaultIsManaged(configured: Policy)
    requires configured.allowedActions == []
    ensures forall i | 0 <= i < |DefaultPolicy(configured).allowedActions| ::
              ManagedAction(DefaultPolicy(configured).allowedActions[i])
  {
    NormalFormsFixed();
    hide NormalizeAction;
    hide EqualFold;
    assert EqualFold("order", "order") && EqualFold("cancel", "cancel")
        && EqualFold("updateLeverage", "updateLeverage") by {
      EqualFoldSelf("order");
      EqualFoldSelf("cancel");
      EqualFoldSelf("updateLeverage");
    }
    ThreeActions(configured);
    hide DefaultPolicy;
  }

  lemma ThreeActions(configured: Policy)
    requires configured.allowedActions == []
    ensures var a := DefaultPolicy(configured).allowedActions;
            |a| == 3 && a[0] == "order" && a[1] == "cancel" && a[2] == "updateLeverage"
  {
  }

  lemma EqualFoldSelf(s: string)
    ensures EqualFold(s, s)
  {
  }

  predicate ManagedList(actions: seq<string>) {
    forall i | 0 <= i < |actions| :: NormalizeAction(actions[i]) == "" || ManagedAction(actions[i])
  }

  // The list a wallet request asks for, else the configured one.
  function Asked(configured: Policy, override: Policy): seq<string> {
    if override.allowedActions != [] then override.allowedActions else configured.allowedActions
  }

  function EffectivePolicy(configured: Policy, override: Policy): Policy {
    MergePolicy(DefaultPolicy(configured), override)
  }

  function Effective(configured: Policy, override: Policy): seq<string> {
    EffectivePolicy(configured, override).allowedActions
  }

  lemma EffectiveManaged(configured: Policy, override: Policy)
    ensures ManagedList(Effective(configured, override)) <==> ManagedList(Asked(configured, override))
    ensures Asked(configured, override) != [] ==> Effective(configured, override) == Asked(configured, override)
  {
    hide NormalizeAction;
    hide ManagedAction;
    if Asked(configured, override) == [] {
      DefaultIsManaged(configured);
    }
  }

  // Runs in which every wallet is created under one configuration with one requested policy.
  ghost function Configured(configured: Policy, override: Policy): Machine<State, Step> {
    Machine((s, t) => Enabled(s, t) && (t.CreateWallet? ==> t.configured == configured && t.override == override),
            (s, t) => After(s, t))
  }

  ghost predicate AllManaged(signed: seq<Signature>) {
    forall i | 0 <= i < |signed| :: ManagedAction(signed[i].call.ActionType())
  }

  // Everything stored, running and signed is under the given policy.
  ghost predicate Under(s: State, policy: Policy) {
    && (forall k | k in s.wallets :: s.wallets[k].policy == policy)
    && (forall c | c in s.calls :: Allowed(s.calls[c], policy))
    && (forall i | 0 <= i < |s.signed| :: Allowed(s.signed[i].call, policy))
  }

  lemma SavedPolicy(w: Wallet, freshId: string, now: Time)
    requires w.policy.maxLeverage != 0
    ensures var saved := Saved(w, freshId, now);
            saved.policy == w.policy && saved.userAddress == w.userAddress && saved.agentAddress == w.agentAddress
  {
  }

  lemma EffectiveLimits(configured: Policy, override: Policy)
    ensures EffectivePolicy(configured, override).maxLeverage > 0
  {
  }

  lemma UnderStep(s: State, t: Step, configured: Policy, override: Policy)
    requires Under(s, EffectivePolicy(configured, override)) && Enabled(s, t)
    requires t.CreateWallet? ==> t.configured == configured && t.override == override
    ensures Under(After(s, t), EffectivePolicy(configured, override))
  {
    EffectiveLimits(configured, override);
    hide Allowed;
    hide DefaultPolicy;
    hide MergePolicy;
    hide AgentKey;
    hide WalletKey;
    hide EqualFold;
    hide TrimOr;
    match t
    case CreateWallet(w, _, _, freshId, now) =>
      SavedPolicy(w, freshId, now);
      hide Saved;
    case SetStatus(_, _, _, _) =>
    case SignRead(c, call) =>
      var k :| k in s.wallets && s.wallets[k] == call.wallet;
    case SignNonce(c, at) =>
    case SignFails(c) =>
  }

  lemma UnderRun(steps: seq<Step>, configured: Policy, override: Policy)
    requires Legal(Configured(configured, override), Init(), steps)
    ensures Under(Exec(Configured(configured, override), Init(), steps), EffectivePolicy(configured, override))
  {
    var policy := EffectivePolicy(configured, override);
    var machine := Configured(configured, override);
    hide EffectivePolicy;
    hide Enabled;
    hide After;
    assert Under(Init(), policy);
    hide Under;
    forall a, t | Under(a, policy) && machine.enabled(a, t) ensures Under(machine.next(a, t), policy) {
      UnderStep(a, t, configured, override);
    }
    Invariant(machine, a => Under(a, policy), Init(), steps);
  }

  function RequestedWallet(configured: Policy, override: Policy): Wallet {
    Wallet("", "", "u", "a", "n", PENDING_APPROVAL, "k", MergePolicy(DefaultPolicy(configured), override),
           ZERO_TIME, ZERO_TIME, None)
  }

  // What a Sign request gives: the action to sign, and its name, symbol and leverage.
  datatype Ask = Ask(body: Action, action: string, symbol: string, leverage: int)

  // The request is of this kind.
  predicate Asks(call: SignCall, ask: Ask) {
    call.body == ask.body && call.action == ask.action && call.symbol == ask.symbol && call.leverage == ask.leverage
  }

  // A wallet is created with the request, activated, and signs.
  function SigningRun(configured: Policy, override: Policy, ask: Ask): seq<Step> {
    var w := RequestedWallet(configured, override);
    var active := Restatused(Saved(w, "w", ZERO_TIME), ACTIVE, ZERO_TIME);
    [CreateWallet(w, configured, override, "w", ZERO_TIME), SetStatus("u", "a", ACTIVE, ZERO_TIME),
     SignRead(0, SignCall("u", active, ask.body, ask.action, ask.symbol, ask.leverage)), SignNonce(0, 0)]
  }

  lemma Activated(w: Wallet, now: Time)
    ensures Restatused(w, ACTIVE, now).status == ACTIVE && Restatused(w, ACTIVE, now).policy == w.policy
    ensures Restatused(w, ACTIVE, now).userAddress == w.userAddress
  {
    TrimmedIffFixed(ACTIVE, WHITESPACE);
    hide Trim;
  }

  lemma OnlyActive(key: string, w: Wallet, user: string)
    requires w.userAddress == user && w.status == ACTIVE
    ensures LatestActive(map[key := w], user, w)
  {
    hide EqualFold;
    EqualFoldSelf(user);
    var wallets: WalletMap := map[key := w];
    assert key in wallets && wallets[key] == w;
  }

  // The policy has nothing against the request.
  predicate Signable(policy: Policy, ask: Ask) {
    && ask.body != map[]
    && ValidatePolicy(policy, ActionTypeOf(ask.body, ask.action), ask.symbol, ask.leverage).None?
  }

  lemma SignableSigned(configured: Policy, override: Policy, ask: Ask)
    requires Signable(EffectivePolicy(configured, override), ask)
    ensures var machine, steps := Configured(configured, override), SigningRun(configured, override, ask);
            var s := Exec(machine, Init(), steps);
            Legal(machine, Init(), steps) && |s.signed| == 1 && Asks(s.signed[0].call, ask)
  {
    var w := RequestedWallet(configured, override);
    var saved := Saved(w, "w", ZERO_TIME);
    var active := Restatused(saved, ACTIVE, ZERO_TIME);
    var key := WalletKey("u", "a");
    var call := SignCall("u", active, ask.body, ask.action, ask.symbol, ask.leverage);
    EffectiveLimits(configured, override);
    SavedPolicy(w, "w", ZERO_TIME);
    Activated(saved, ZERO_TIME);
    OnlyActive(key, active, "u");
    AskedAllowed(active.policy, call, ask);
    hide *;
    SigningSteps(configured, override, ask, key, saved, active, call);
    AsksIs(call, ask);
  }

  lemma AskedAllowed(policy: Policy, call: SignCall, ask: Ask)
    requires Asks(call, ask)
    ensures Allowed(call, policy) <==> Signable(policy, ask)
  {
    hide ValidatePolicy;
    hide ActionTypeOf;
  }

  lemma AsksIs(call: SignCall, ask: Ask)
    requires call == SignCall(call.user, call.wallet, ask.body, ask.action, ask.symbol, ask.leverage)
    ensures Asks(call, ask)
  {
  }

  lemma SigningSteps(configured: Policy, override: Policy, ask: Ask, key: string,
                     saved: Wallet, active: Wallet, call: SignCall)
    requires key == WalletKey("u", "a") && saved == Saved(RequestedWallet(configured, override), "w", ZERO_TIME)
    requires active == Restatused(saved, ACTIVE, ZERO_TIME)
    requires call == SignCall("u", active, ask.body, ask.action, ask.symbol, ask.leverage)
    requires LatestActive(map[key := active], "u", active) && Allowed(call, active.policy)
    requires saved.userAddress == "u" && saved.agentAddress == "a"
    ensures var machine, steps := Configured(configured, override), SigningRun(configured, override, ask);
            Legal(machine, Init(), steps) && Exec(machine, Init(), steps).signed == [Signature(call, NextNonce(0, 0))]
  {
    hide Allowed;
    hide LatestActive;
    hide Restatused;
    hide WalletKey;
    hide MergePolicy;
    hide DefaultPolicy;
    hide Saved;
    hide AgentKey;
    var machine := Configured(configured, override);
    var none: map<nat, SignCall> := map[];
    var steps := SigningRun(configured, override, ask);
    var agentKey := AgentKey(active.agentAddress);
    var nonce := NextNonce(0, 0);
    Replaced(map[], key, saved, active);
    var states := [
      Init(),
      State(map[key := saved], map[], none, []),
      State(map[key := active], map[], none, []),
      State(map[key := active], map[], none[0 := call], []),
      State(map[key := active], map[agentKey := nonce], none, [Signature(call, nonce)]) ];
    assert After(states[0], steps[0]) == states[1];
    assert After(states[1], steps[1]) == states[2];
    assert After(states[2], steps[2]) == states[3];
    assert After(states[3], steps[3]) == states[4];
    Trace(machine, states, steps);
  }

  ghost predicate SomeSigned(signed: seq<Signature>, ask: Ask) {
    exists i | 0 <= i < |signed| :: Asks(signed[i].call, ask)
  }

  // Exactly which requests can come to be signed under a configuration and a wallet request.
  // Of the signed action nothing but its type matters: its symbol, size and leverage are
  // not compared with what the request gives beside it.
  lemma SignableIff(configured: Policy, override: Policy, ask: Ask)
    ensures (exists steps | Legal(Configured(configured, override), Init(), steps) ::
               SomeSigned(Exec(Configured(configured, override), Init(), steps).signed, ask))
            <==> Signable(EffectivePolicy(configured, override), ask)
  {
    var machine, policy := Configured(configured, override), EffectivePolicy(configured, override);
    hide Legal;
    hide Exec;
    hide EffectivePolicy;
    hide Signable;
    hide Configured;
    if steps :| Legal(machine, Init(), steps) && SomeSigned(Exec(machine, Init(), steps).signed, ask) {
      UnderRun(steps, configured, override);
      UnderAsked(Exec(machine, Init(), steps), policy, ask);
    }
    if Signable(policy, ask) {
      SignableSigned(configured, override, ask);
      var s := Exec(machine, Init(), SigningRun(configured, override, ask));
      assert SomeSigned(s.signed, ask);
    }
  }

  // Whatever a field of the action but its type says, it is signed alike.
  lemma OtherFieldsUnbound(policy: Policy, ask: Ask, field: string, value: string)
    requires field != TYPE && ask.body != map[]
    ensures Signable(policy, ask.(body := ask.body[field := value])) <==> Signable(policy, ask)
  {
    var body := ask.body[field := value];
    assert field in body && (TYPE in body <==> TYPE in ask.body);
    hide FirstNonEmpty;
    hide ValidatePolicy;
    hide TYPE;
  }

  const COIN := "coin"
  const LEVERAGE := "leverage"
  const UPDATE := "updateLeverage"
  const BTC := "BTC"
  const DOGE := "DOGE"
  const BTC_ONLY := Policy([], [BTC], 5)

  // The request names leverage 1 on BTC, the action leverage 100 on DOGE.
  const MISLABELLED := Ask(map[TYPE := UPDATE, COIN := DOGE, LEVERAGE := "100"], UPDATE, BTC, 1)

  // A wallet limited to BTC and leverage 5 signs an action for DOGE and leverage 100, both
  // of which its policy refuses when the request names them.
  lemma MislabelledSigned(configured: Policy)
    requires configured.allowedActions == []
    ensures var machine, steps := Configured(configured, BTC_ONLY), SigningRun(configured, BTC_ONLY, MISLABELLED);
            var s, policy := Exec(machine, Init(), steps), EffectivePolicy(configured, BTC_ONLY);
            && Legal(machine, Init(), steps) && |s.signed| == 1 && Asks(s.signed[0].call, MISLABELLED)
            && ValidatePolicy(policy, UPDATE, DOGE, 1) == Some(SymbolNotAllowed)
            && ValidatePolicy(policy, UPDATE, BTC, 100) == Some(LeverageTooHigh)
  {
    hide *;
    MislabelledType();
    BtcOnlyIs(configured);
    SymbolsTold();
    var policy := EffectivePolicy(configured, BTC_ONLY);
    UpdateJudged(policy, BTC, 1);
    UpdateJudged(policy, DOGE, 1);
    UpdateJudged(policy, BTC, 100);
    MislabelledSignable(policy);
    SignableSigned(configured, BTC_ONLY, MISLABELLED);
  }

  lemma MislabelledType()
    ensures MISLABELLED.body != map[] && ActionTypeOf(MISLABELLED.body, MISLABELLED.action) == UPDATE
  {
    TrimmedIffFixed(UPDATE, WHITESPACE);
    FieldsApart();
    hide TYPE;
    hide COIN;
    hide LEVERAGE;
    hide Trim;
    var body := MISLABELLED.body;
    assert TYPE in body && body[TYPE] == UPDATE;
  }

  lemma FieldsApart()
    ensures TYPE != COIN && TYPE != LEVERAGE && UPDATE != ""
  {
    assert TYPE[0] != COIN[0] && TYPE[0] != LEVERAGE[0];
  }

  lemma MislabelledSignable(policy: Policy)
    requires ValidatePolicy(policy, UPDATE, BTC, 1).None?
    ensures Signable(policy, MISLABELLED)
  {
    MislabelledType();
    MislabelledLabels();
    hide ValidatePolicy;
    hide MISLABELLED;
    hide ActionTypeOf;
  }

  lemma MislabelledLabels()
    ensures MISLABELLED.symbol == BTC && MISLABELLED.leverage == 1
  {
  }

  lemma BtcOnlyIs(configured: Policy)
    requires configured.allowedActions == []
    ensures var policy := EffectivePolicy(configured, BTC_ONLY);
            policy.allowedSymbols == [BTC] && policy.maxLeverage == 5 && StringAllowed(policy.allowedActions, UPDATE)
    ensures NormalizeAction(UPDATE) == UPDATE != ""
  {
    ThreeActions(configured);
    NormalFormsFixed();
    EqualFoldSelf(UPDATE);
    hide DefaultPolicy;
    hide NormalizeAction;
    hide EqualFold;
    assert EffectivePolicy(configured, BTC_ONLY).allowedActions == DefaultPolicy(configured).allowedActions;
  }

  lemma SingleAllowed(value: string, target: string)
    ensures StringAllowed([value], target) <==> EqualFold(NormalizeAction(value), NormalizeAction(target))
  {
    hide NormalizeAction;
    hide EqualFold;
    assert [value][0] == value;
  }

  lemma CapitalsFixed(s: string)
    requires 0 < |s| <= 10 && forall i | 0 <= i < |s| :: 'A' <= s[i] <= 'Z'
    ensures NormalizeAction(s) == s && ToUpper(s) == s
  {
    CapitalsTrimmed(s);
    CapitalsUpper(s);
    hide *;
    NoAliasFixed(s);
  }

  lemma CapitalsUpper(s: string)
    requires forall i | 0 <= i < |s| :: 'A' <= s[i] <= 'Z'
    ensures ToUpper(s) == s
  {
    assert forall i | 0 <= i < |s| :: ToUpper(s)[i] == s[i];
  }

  lemma CapitalsTrimmed(s: string)
    requires 0 < |s| && forall i | 0 <= i < |s| :: 'A' <= s[i] <= 'Z'
    ensures TrimSpace(s) == s
  {
    NoSpaces(s[0]);
    NoSpaces(s[|s| - 1]);
    hide WHITESPACE;
    hide Trim;
    TrimmedIffFixed(s, WHITESPACE);
  }

  lemma NoSpaces(c: char)
    requires 'A' <= c <= 'Z'
    ensures c !in WHITESPACE
  {
  }

  lemma TwoSymbols()
    ensures |BTC| == 3 && |DOGE| == 4
    ensures forall i | 0 <= i < |BTC| :: 'A' <= BTC[i] <= 'Z'
    ensures forall i | 0 <= i < |DOGE| :: 'A' <= DOGE[i] <= 'Z'
  {
  }

  lemma SymbolsTold()
    ensures BTC != "" && DOGE != ""
    ensures StringAllowed([BTC], ToUpper(BTC)) && !StringAllowed([BTC], ToUpper(DOGE))
  {
    TwoSymbols();
    hide *;
    CapitalsFixed(BTC);
    CapitalsFixed(DOGE);
    EqualFoldSelf(BTC);
    if EqualFold(BTC, DOGE) {
      FoldLength(BTC, DOGE);
    }
    SingleAllowed(BTC, BTC);
    SingleAllowed(BTC, DOGE);
  }

  lemma UpdateJudged(policy: Policy, symbol: string, leverage: int)
    requires policy.allowedSymbols == [BTC] && policy.maxLeverage == 5 && StringAllowed(policy.allowedActions, UPDATE)
    requires NormalizeAction(UPDATE) == UPDATE != "" && symbol != "" && leverage > 0
    ensures ValidatePolicy(policy, UPDATE, symbol, leverage) ==
              if !StringAllowed([BTC], ToUpper(symbol)) then Some(SymbolNotAllowed)
              else if leverage > 5 then Some(LeverageTooHigh)
              else None
  {
    hide NormalizeAction;
    hide StringAllowed;
    hide UPDATE;
    hide BTC;
  }

  lemma UnderAsked(s: State, policy: Policy, ask: Ask)
    requires Under(s, policy) && SomeSigned(s.signed, ask)
    ensures Signable(policy, ask)
  {
    hide Allowed;
    hide Asks;
    hide Signable;
    var i :| 0 <= i < |s.signed| && Asks(s.signed[i].call, ask);
    AskedAllowed(policy, s.signed[i].call, ask);
  }

  // The request for an action by its type alone.
  function Bare(action: string): Ask {
    Ask(map[TYPE := action], "", "", 0)
  }

  lemma BareType(action: string)
    ensures Bare(action).body != map[] && ActionTypeOf(Bare(action).body, "") == TrimSpace(action)
    ensures NormalizeAction(TrimSpace(action)) == NormalizeAction(action)
    ensures ManagedAction(TrimSpace(action)) <==> ManagedAction(action)
  {
    TrimTwice(action);
    TrimmedIffFixed("", WHITESPACE);
    assert TrimSpace("") == "";
    assert TYPE in Bare(action).body;
    hide TrimSpace;
    hide EqualFold;
    hide TYPE;
  }

  lemma BareSignable(policy: Policy, i: nat)
    requires i < |policy.allowedActions| && NormalizeAction(policy.allowedActions[i]) != ""
    ensures Signable(policy, Bare(policy.allowedActions[i]))
  {
    var action := policy.allowedActions[i];
    BareType(action);
    AllowedAction(policy, action, i);
    AliasesAllowedAlike(policy, action, "", 0);
    AliasesAllowedAlike(policy, TrimSpace(action), "", 0);
    hide NormalizeAction;
    hide ValidatePolicy;
    hide TrimSpace;
    hide ActionTypeOf;
  }

  lemma ListedActionSigned(configured: Policy, override: Policy, i: nat)
    requires i < |Effective(configured, override)| && NormalizeAction(Effective(configured, override)[i]) != ""
    ensures var machine := Configured(configured, override);
            var action := Effective(configured, override)[i];
            var s := Exec(machine, Init(), SigningRun(configured, override, Bare(action)));
            && Legal(machine, Init(), SigningRun(configured, override, Bare(action)))
            && |s.signed| == 1 && s.signed[0].call.ActionType() == TrimSpace(action)
  {
    var action := Effective(configured, override)[i];
    BareSignable(EffectivePolicy(configured, override), i);
    hide Legal;
    hide Exec;
    hide NormalizeAction;
    hide Configured;
    hide Signable;
    hide ActionTypeOf;
    SignableSigned(configured, override, Bare(action));
    BareType(action);
  }

  lemma ListedUnmanaged(configured: Policy, override: Policy, i: nat)
    requires i < |Effective(configured, override)| && NormalizeAction(Effective(configured, override)[i]) != ""
    requires !ManagedAction(Effective(configured, override)[i])
    ensures var machine := Configured(configured, override);
            var steps := SigningRun(configured, override, Bare(Effective(configured, override)[i]));
            Legal(machine, Init(), steps) && !AllManaged(Exec(machine, Init(), steps).signed)
  {
    ListedActionSigned(configured, override, i);
    BareType(Effective(configured, override)[i]);
    hide Legal;
    hide Exec;
    hide Effective;
    hide NormalizeAction;
    hide ManagedAction;
    hide SigningRun;
    hide Configured;
    hide Bare;
    hide ActionTypeOf;
  }

  // Exactly under which configuration and request nothing but order, cancel and
  // updateLeverage can ever be signed: when every action that the request lists, or else
  // the configuration, is one of them or blank.
  lemma ManagedRunsIff(configured: Policy, override: Policy)
    ensures (forall steps | Legal(Configured(configured, override), Init(), steps) ::
               AllManaged(Exec(Configured(configured, override), Init(), steps).signed))
            <==> ManagedList(Asked(configured, override))
  {
    var machine, actions := Configured(configured, override), Effective(configured, override);
    EffectiveManaged(configured, override);
    var policy := EffectivePolicy(configured, override);
    assert actions == policy.allowedActions;
    hide EffectivePolicy;
    hide Configured;
    hide SigningRun;
    hide Bare;
    hide Under;
    hide Legal;
    hide Exec;
    hide Asked;
    hide Effective;
    hide NormalizeAction;
    hide ManagedAction;
    if ManagedList(actions) {
      forall steps | Legal(machine, Init(), steps) ensures AllManaged(Exec(machine, Init(), steps).signed) {
        UnderRun(steps, configured, override);
        UnderManaged(Exec(machine, Init(), steps), policy);
      }
    } else {
      var i :| 0 <= i < |actions| && NormalizeAction(actions[i]) != "" && !ManagedAction(actions[i]);
      ListedUnmanaged(configured, override, i);
    }
  }

  lemma UnderManaged(s: State, policy: Policy)
    requires Under(s, policy) && ManagedList(policy.allowedActions)
    ensures AllManaged(s.signed)
  {
    hide NormalizeAction;
    hide ManagedAction;
    hide ValidatePolicy;
    hide ActionTypeOf;
    forall i | 0 <= i < |s.signed| ensures ManagedAction(s.signed[i].call.ActionType()) {
      var call := s.signed[i].call;
      assert Allowed(call, policy);
      ManagedByList(policy, call.ActionType(), call.symbol, call.leverage);
    }
  }

  const WITHDRAW := Policy(["withdraw"], [], 0)

  // Under every configuration a wallet request that lists "withdraw" leads to a run that
  // signs a withdrawal, which the risk invariants exclude.
  lemma WithdrawalSigned(configured: Policy)
    ensures var machine := Configured(configured, WITHDRAW);
            var s := Exec(machine, Init(), SigningRun(configured, WITHDRAW, Bare("withdraw")));
            && Legal(machine, Init(), SigningRun(configured, WITHDRAW, Bare("withdraw")))
            && |s.signed| == 1 && s.signed[0].call.ActionType() == "withdraw"
    ensures !ManagedAction("withdraw")
  {
    WithdrawUnmanaged();
    assert Effective(configured, WITHDRAW) == ["withdraw"];
    hide *;
    ListedActionSigned(configured, WITHDRAW, 0);
  }

  lemma FoldLength(a: string, b: string)
    requires EqualFold(a, b)
    ensures |a| == |b|
  {
    assert |ToLower(a)| == |a| && |ToLower(b)| == |b|;
  }

  lemma UnmanagedByLength(action: string)
    requires NormalizeAction(action) == action && |action| == 8
    ensures !ManagedAction(action)
  {
    hide NormalizeAction;
    hide EqualFold;
    if EqualFold(action, "order") {
      FoldLength(action, "order");
    }
    if EqualFold(action, "cancel") {
      FoldLength(action, "cancel");
    }
    if EqualFold(action, "updateLeverage") {
      FoldLength(action, "updateLeverage");
    }
  }

  lemma WithdrawUnmanaged()
    ensures NormalizeAction("withdraw") == "withdraw" && !ManagedAction("withdraw")
    ensures TrimSpace("withdraw") == "withdraw"
  {
    TrimmedIffFixed("withdraw", WHITESPACE);
    hide NormalizeAction;
    hide ManagedAction;
    hide Trim;
    NoAliasFixed("withdraw");
    UnmanagedByLength("withdraw");
  }
}

// The agent signer service over the in-memory store.
module AgentSigner {
  import opened Results
  import opened Runs
  import opened Clock
  import opened Text
  import opened Nonces
  import opened Agents
  import opened HyperStore

  // The three places an action may come from, the first that is not empty counting.
  datatype SignInput = SignInput(
    userAddress: string, action: string, symbol: string, leverage: int,
    exchangeAction: Action, payloadExchangeAction: Action, payloadAction: Action)

  datatype SignedPayload = SignedPayload(wallet: Wallet, action: Action, actionType: string, nonce: int)

  datatype WalletInput = WalletInput(userId: string, userAddress: string, agentName: string, policy: Policy)

  datatype WalletError = OwnerRequired | StatusUnsupported | WalletNotFound

  function ChosenAction(input: SignInput): Action {
    if input.exchangeAction != map[] then input.exchangeAction
    else if input.payloadExchangeAction != map[] then input.payloadExchangeAction
    else input.payloadAction
  }

  class Signer {
    const store: MemoryStore
    const agentNamePrefix: string
    const configured: Policy

    constructor (store: MemoryStore, agentNamePrefix: string, configured: Policy)
      ensures this.store == store && this.agentNamePrefix == agentNamePrefix && this.configured == configured
    {
      this.store, this.agentNamePrefix, this.configured := store, agentNamePrefix, configured;
    }

    // What the store holds is what state m of the protocol says.
    ghost predicate Shows(m: State)
      reads store
    {
      m.wallets == store.agentWallets && m.nonces == store.agentNonces
    }

    // A wallet enters the store pending approval, with a policy that bounds what it signs.
    method CreateWallet(input: WalletInput, key: string, agentAddress: string, freshId: string, now: Time,
                        ghost m: State)
      returns (created: Result<Wallet, WalletError>, ghost steps: seq<Step>)
      requires Shows(m) && freshId != ""
      modifies store`agentWallets
      ensures Legal(Protocol, m, steps) && Shows(Exec(Protocol, m, steps))
      ensures created.Err? <==> TrimSpace(input.userAddress) == ""
      ensures created.Err? ==> steps == [] && created.error == OwnerRequired
      ensures created.Ok? ==>
                var w := created.value;
                && w.userAddress == ToLower(TrimSpace(input.userAddress)) && w.agentAddress == agentAddress
                && w.status == PENDING_APPROVAL && Bounding(w.policy) && w.approvedAt.None? && w.id != ""
                && store.agentWallets == old(store.agentWallets)[WalletKey(w.userAddress, agentAddress) := w]
      ensures created.Ok? ==>
                RequestedAs(created.value, input, configured, agentNamePrefix, key, agentAddress, freshId, now)
      ensures created.Ok? ==>
                store.agentWallets == old(store.agentWallets)[
                  ToLower(TrimSpace(input.userAddress)) + ":" + ToLower(TrimSpace(agentAddress)) := created.value]
    {
      KeyIs(input.userAddress, agentAddress);
      RequestedPolicy(configured, input.policy);
      hide DefaultPolicy;
      hide MergePolicy;
      hide WalletKey;
      hide TrimSpace;
      steps := [];
      var userAddress := ToLower(TrimSpace(input.userAddress));
      if userAddress == "" {
        return Err(OwnerRequired), [];
      }
      var name := TrimSpace(input.agentName);
      if name == "" {
        name := agentNamePrefix;
      }
      var wallet := Wallet("", TrimSpace(input.userId), userAddress, agentAddress, name, PENDING_APPROVAL,
                           "dev:" + key, MergePolicy(DefaultPolicy(configured), input.policy), now, now, None);
      var saved := store.SaveAgentWallet(wallet, freshId, now);
      SavedWell(wallet, configured, input.policy, freshId, now);
      steps := [Step.CreateWallet(wallet, configured, input.policy, freshId, now)];
      OneStep(m, steps[0]);
      created := Ok(saved);
    }

    method ActivateWallet(user: string, agent: string, status: string, now: Time, ghost m: State)
      returns (updated: Result<Wallet, WalletError>, ghost steps: seq<Step>)
      requires Shows(m)
      modifies store`agentWallets
      ensures Legal(Protocol, m, steps) && Shows(Exec(Protocol, m, steps))
      ensures var next := TrimOr(status, ACTIVE);
              && (updated == Err(StatusUnsupported) <==> next !in {ACTIVE, DISABLED, PENDING_APPROVAL})
              && (updated == Err(WalletNotFound) <==>
                    next in {ACTIVE, DISABLED, PENDING_APPROVAL} && WalletKey(user, agent) !in old(store.agentWallets))
              && (updated.Ok? ==> updated.value.status == next)
      ensures var key := WalletKey(user, agent);
              updated.Ok? ==>
                && key in old(store.agentWallets)
                && updated.value == Restatused(old(store.agentWallets)[key], status, now)
                && store.agentWallets == old(store.agentWallets)[key := updated.value]
      ensures updated.Err? ==> store.agentWallets == old(store.agentWallets)
      ensures ActivatedAs(old(store.agentWallets), store.agentWallets, user, agent, status, now, updated)
    {
      hide ActivatedAs;
      hide Restatused;
      hide WalletKey;
      steps := [];
      TrimTwice(status);
      hide TrimSpace;
      var next := TrimSpace(status);
      if next == "" {
        next := ACTIVE;
      }
      if next != ACTIVE && next != DISABLED && next != PENDING_APPROVAL {
        StatusRefused(store.agentWallets, user, agent, status, now);
        return Err(StatusUnsupported), [];
      }
      StatusesTrimmed();
      SameRestatus(status, next, now);
      ghost var before := store.agentWallets;
      var r := store.UpdateAgentWalletStatus(user, agent, next, now);
      steps := [SetStatus(user, agent, next, now)];
      OneStep(m, steps[0]);
      updated := if r.Ok? then Ok(r.value) else Err(WalletNotFound);
      StatusTaken(before, user, agent, status, now);
    }

    // A call that fails takes no nonce and signs nothing. A call that succeeds takes exactly
    // one nonce and signs for the user's latest active wallet what its policy allows.
    method Sign(input: SignInput, at: int, ghost m: State, ghost c: nat)
      returns (signed: Result<SignedPayload, SignError>, ghost steps: seq<Step>)
      requires Shows(m) && Inv(m) && c !in m.calls
      modifies store`agentNonces
      ensures Legal(Protocol, m, steps) && Shows(Exec(Protocol, m, steps))
      ensures Exec(Protocol, m, steps).calls == m.calls
      ensures signed.Err? ==> steps == [] && store.agentNonces == old(store.agentNonces)
      ensures SignOutcome(m, input, if signed.Ok? then Ok(signed.value.wallet) else Err(signed.error))
      ensures signed.Ok? ==>
                var p := signed.value;
                var key := AgentKey(p.wallet.agentAddress);
                && p.action == (if input.exchangeAction != map[] then input.exchangeAction
                                else if input.payloadExchangeAction != map[] then input.payloadExchangeAction
                                else input.payloadAction)
                && p.actionType == (if TYPE in p.action && TrimSpace(p.action[TYPE]) != ""
                                    then TrimSpace(p.action[TYPE]) else TrimSpace(input.action))
                && EqualFold(p.wallet.userAddress, ToLower(TrimSpace(input.userAddress))) && p.wallet.status == ACTIVE
                && p.nonce == NextNonce(LastNonce(old(store.agentNonces), key), at)
                && store.agentNonces == old(store.agentNonces)[key := p.nonce]
                && Exec(Protocol, m, steps).signed == m.signed + [Signature(CallOf(input, p.wallet), p.nonce)]
    {
      hide ValidatePolicy;
      hide Judged;
      hide EqualFold;
      hide ActionTypeOf;
      hide FirstNonEmpty;
      hide NoncesGrow;
      hide Approved;
      hide AgentKey;
      hide TrimSpace;
      hide Exec;
      hide Legal;
      NoSteps(Protocol, m);
      steps := [];
      var userAddress := ToLower(TrimSpace(input.userAddress));
      if userAddress == "" {
        return Err(UserAddressRequired), [];
      }
      var found := store.GetActiveAgentWallet(userAddress);
      if found.Err? {
        return Err(NoActiveWallet), [];
      }
      var wallet := found.value;
      var action := input.exchangeAction;
      if action == map[] {
        action := input.payloadExchangeAction;
      }
      if action == map[] {
        action := input.payloadAction;
      }
      if action == map[] {
        return Err(ExchangeActionRequired), [];
      }
      var actionType := ActionTypeOf(action, input.action);
      TypeIs(action, input.action);
      var refusal := ValidatePolicy(wallet.policy, actionType, input.symbol, input.leverage);
      PolicyJudges(wallet.policy, actionType, input.symbol, input.leverage, refusal);
      if refusal.Some? {
        return Err(refusal.value), [];
      }
      var nonce := store.NextAgentNonce(wallet.agentAddress, at);
      steps := [SignRead(c, CallOf(input, wallet)), SignNonce(c, at)];
      SignsAlone(m, c, CallOf(input, wallet), at);
      signed := Ok(SignedPayload(wallet, action, actionType, nonce));
    }
  }

  lemma TypeIs(body: Action, action: string)
    ensures ActionTypeOf(body, action) ==
              if TYPE in body && TrimSpace(body[TYPE]) != "" then TrimSpace(body[TYPE]) else TrimSpace(action)
  {
    TrimmedIffFixed("", WHITESPACE);
    assert TrimSpace("") == "";
    hide TrimSpace;
    hide TYPE;
  }

  function CallOf(input: SignInput, wallet: Wallet): SignCall {
    SignCall(ToLower(TrimSpace(input.userAddress)), wallet, ChosenAction(input), input.action, input.symbol,
             input.leverage)
  }

  // What becomes of a request to change a wallet's status; a blank status stands for active.
  ghost predicate ActivatedAs(before: WalletMap, after: WalletMap, user: string, agent: string, status: string,
                              now: Time, updated: Result<Wallet, WalletError>) {
    var key := ToLower(TrimSpace(user)) + ":" + ToLower(TrimSpace(agent));
    var next := if TrimSpace(status) == "" then ACTIVE else TrimSpace(status);
    if next !in {ACTIVE, DISABLED, PENDING_APPROVAL} then updated == Err(StatusUnsupported) && after == before
    else if key !in before then updated == Err(WalletNotFound) && after == before
    else
      && updated.Ok? && after == before[key := updated.value]
      && updated.value == before[key].(
           status := next, updatedAt := now,
           approvedAt := if next == ACTIVE && before[key].approvedAt.None? then Some(now) else before[key].approvedAt)
  }

  lemma StatusRefused(wallets: WalletMap, user: string, agent: string, status: string, now: Time)
    requires TrimOr(status, ACTIVE) !in {ACTIVE, DISABLED, PENDING_APPROVAL}
    ensures ActivatedAs(wallets, wallets, user, agent, status, now, Err(StatusUnsupported))
  {
    hide TrimSpace;
  }

  lemma StatusTaken(wallets: WalletMap, user: string, agent: string, status: string, now: Time)
    requires TrimOr(status, ACTIVE) in {ACTIVE, DISABLED, PENDING_APPROVAL}
    ensures var key := WalletKey(user, agent);
            ActivatedAs(wallets, AfterStatus(wallets, user, agent, status, now), user, agent, status, now,
                        if key in wallets then Ok(Restatused(wallets[key], status, now)) else Err(WalletNotFound))
  {
    hide TrimSpace;
    hide ToLower;
    hide ACTIVE;
    hide DISABLED;
    hide PENDING_APPROVAL;
  }

  lemma SameRestatus(status: string, next: string, now: Time)
    requires TrimOr(next, ACTIVE) == TrimOr(status, ACTIVE)
    ensures forall w :: Restatused(w, next, now) == Restatused(w, status, now)
    ensures forall w :: Restatused(w, status, now).status == TrimOr(status, ACTIVE)
    ensures forall wallets, user, agent ::
              AfterStatus(wallets, user, agent, next, now) == AfterStatus(wallets, user, agent, status, now)
  {
    hide WalletKey;
    hide TrimOr;
  }

  // The wallet a request asks for: pending, with the actions and the symbols of the request
  // or else the configured ones, and a positive leverage limit found likewise.
  ghost predicate RequestedAs(w: Wallet, input: WalletInput, configured: Policy, prefix: string, key: string,
                              agentAddress: string, freshId: string, now: Time) {
    && w.id == freshId && w.userId == TrimSpace(input.userId) && w.agentAddress == agentAddress
    && w.userAddress == ToLower(TrimSpace(input.userAddress))
    && w.agentName == (if TrimSpace(input.agentName) != "" then TrimSpace(input.agentName) else prefix)
    && w.status == PENDING_APPROVAL && w.keyRef == "dev:" + key
    && w.createdAt == now && w.updatedAt == now && w.approvedAt.None?
    && PolicyOf(w.policy, configured, input.policy)
  }

  ghost predicate PolicyOf(policy: Policy, configured: Policy, asked: Policy) {
    && policy.allowedActions ==
         (if asked.allowedActions != [] then asked.allowedActions
          else if configured.allowedActions != [] then configured.allowedActions
          else ["order", "cancel", "updateLeverage"])
    && policy.allowedSymbols ==
         (if asked.allowedSymbols != [] then asked.allowedSymbols else configured.allowedSymbols)
    && policy.maxLeverage ==
         (if asked.maxLeverage > 0 then asked.maxLeverage
          else if configured.maxLeverage > 0 then configured.maxLeverage
          else 20)
  }

  lemma RequestedPolicy(configured: Policy, asked: Policy)
    ensures PolicyOf(MergePolicy(DefaultPolicy(configured), asked), configured, asked)
    ensures MergePolicy(DefaultPolicy(configured), asked).maxLeverage > 0
  {
  }

  lemma KeyIs(user: string, agent: string)
    ensures WalletKey(ToLower(TrimSpace(user)), agent) == ToLower(TrimSpace(user)) + ":" + ToLower(TrimSpace(agent))
  {
    LowerTrimFixed(user);
    hide TrimSpace;
    hide ToLower;
  }

  // Which wallet signs, or the first reason none does.
  ghost predicate SignOutcome(m: State, input: SignInput, outcome: Result<Wallet, SignError>) {
    var user := ToLower(TrimSpace(input.userAddress));
    if user == "" then outcome == Err(UserAddressRequired)
    else if forall k | k in m.wallets :: !(EqualFold(m.wallets[k].userAddress, user) && m.wallets[k].status == ACTIVE)
    then outcome == Err(NoActiveWallet)
    else if ChosenAction(input) == map[] then outcome == Err(ExchangeActionRequired)
    else exists w ::
      && LatestActive(m.wallets, user, w)
      && Judged(w.policy, ActionTypeOf(ChosenAction(input), input.action), input.symbol, input.leverage,
                if outcome.Ok? then None else Some(outcome.error))
      && (outcome.Ok? ==> outcome.value == w)
  }

  lemma OneStep(m: State, t: Step)
    requires Enabled(m, t)
    ensures Legal(Protocol, m, [t]) && Exec(Protocol, m, [t]) == After(m, t)
  {
    hide Enabled;
    hide After;
    Extend(Protocol, m, [], t);
    assert [] + [t] == [t];
  }

  lemma SignsAlone(m: State, c: nat, call: SignCall, at: int)
    requires c !in m.calls && Enabled(m, SignRead(c, call))
    ensures var steps := [SignRead(c, call), SignNonce(c, at)];
            var agent := call.wallet.agentAddress;
            var nonce := NextNonce(LastNonce(m.nonces, AgentKey(agent)), at);
            && Legal(Protocol, m, steps)
            && Exec(Protocol, m, steps) ==
                 State(m.wallets, AfterNonce(m.nonces, agent, at), m.calls, m.signed + [Signature(call, nonce)])
  {
    hide AgentKey;
    hide LatestActive;
    hide ValidatePolicy;
    var read := SignRead(c, call);
    OneStep(m, read);
    Extend(Protocol, m, [read], SignNonce(c, at));
    assert [read] + [SignNonce(c, at)] == [read, SignNonce(c, at)];
    assert m.calls[c := call] - {c} == m.calls;
  }

  lemma StatusesTrimmed()
    ensures TrimSpace(ACTIVE) == ACTIVE && TrimSpace(DISABLED) == DISABLED
    ensures TrimSpace(PENDING_APPROVAL) == PENDING_APPROVAL
  {
    TrimmedIffFixed(ACTIVE, WHITESPACE);
    TrimmedIffFixed(DISABLED, WHITESPACE);
    TrimmedIffFixed(PENDING_APPROVAL, WHITESPACE);
    hide Trim;
  }
}

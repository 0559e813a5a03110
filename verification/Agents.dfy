// Agent wallets, the policies that bound what they may sign, and interleaved signing.
module Agents {
  import opened Results
  import opened Runs
  import opened Clock
  import opened Text
  import opened Nonces

  datatype Policy = Policy(allowedActions: seq<string>, allowedSymbols: seq<string>, maxLeverage: int)

  datatype Wallet = Wallet(
    id: string, userId: string, userAddress: string, agentAddress: string, agentName: string,
    status: string, keyRef: string, policy: Policy,
    createdAt: Time, updatedAt: Time, approvedAt: Option<Time>)

  type WalletMap = map<string, Wallet>

  const ACTIVE := "active"
  const DISABLED := "disabled"
  const PENDING_APPROVAL := "pending_approval"
  const DEFAULT_LEVERAGE := 20

  const ORDER_ALIASES := {
    "signhyperliquidcreateorder", "createhyperliquidorder", "submithyperliquidorder", "submitorder" }
  const CANCEL_ALIASES := { "signhyperliquidcancelorder", "cancelhyperliquidorder", "cancelorder" }
  const LEVERAGE_ALIASES := { "signhyperliquidupdateleverage", "updatehyperliquidleverage" }

  function NormalizeAction(action: string): string {
    var n := ToLower(TrimSpace(action));
    if n in ORDER_ALIASES then "order"
    else if n in CANCEL_ALIASES then "cancel"
    else if n in LEVERAGE_ALIASES then "updateLeverage"
    else TrimSpace(action)
  }

  predicate StringAllowed(values: seq<string>, target: string) {
    exists i | 0 <= i < |values| :: EqualFold(NormalizeAction(values[i]), NormalizeAction(target))
  }

  datatype SignError =
    | UserAddressRequired
    | NoActiveWallet
    | ExchangeActionRequired
    | ActionRequired
    | ActionNotAllowed
    | SymbolNotAllowed
    | LeverageTooHigh

  function ValidatePolicy(policy: Policy, action: string, symbol: string, leverage: int): Option<SignError> {
    var a := NormalizeAction(action);
    if a == "" then Some(ActionRequired)
    else if !StringAllowed(policy.allowedActions, a) then Some(ActionNotAllowed)
    else if symbol != "" && policy.allowedSymbols != [] && !StringAllowed(policy.allowedSymbols, ToUpper(symbol))
    then Some(SymbolNotAllowed)
    else if leverage > 0 && policy.maxLeverage > 0 && leverage > policy.maxLeverage then Some(LeverageTooHigh)
    else None
  }

  lemma AliasLengths(n: string)
    ensures n in ORDER_ALIASES + CANCEL_ALIASES + LEVERAGE_ALIASES ==> |n| > 10 && |n| != 14
  {
  }

  lemma NoAliasFixed(r: string)
    requires TrimSpace(r) == r && (|r| <= 10 || |r| == 14)
    ensures NormalizeAction(r) == r
  {
    AliasLengths(ToLower(r));
    hide TrimSpace;
    hide ORDER_ALIASES;
    hide CANCEL_ALIASES;
    hide LEVERAGE_ALIASES;
  }

  lemma NormalFormsFixed()
    ensures NormalizeAction("order") == "order"
    ensures NormalizeAction("cancel") == "cancel"
    ensures NormalizeAction("updateLeverage") == "updateLeverage"
  {
    TrimmedIffFixed("order", WHITESPACE);
    TrimmedIffFixed("cancel", WHITESPACE);
    TrimmedIffFixed("updateLeverage", WHITESPACE);
    hide NormalizeAction;
    hide Trim;
    NoAliasFixed("order");
    NoAliasFixed("cancel");
    NoAliasFixed("updateLeverage");
  }

  // Normal forms are left alone, so an alias is allowed exactly when its normal form is.
  lemma NormalizeActionTwice(action: string)
    ensures NormalizeAction(NormalizeAction(action)) == NormalizeAction(action)
  {
    TrimTwice(action);
    NormalFormsFixed();
    hide TrimSpace;
    hide ORDER_ALIASES;
    hide CANCEL_ALIASES;
    hide LEVERAGE_ALIASES;
  }

  lemma AliasesAllowedAlike(policy: Policy, action: string, symbol: string, leverage: int)
    ensures ValidatePolicy(policy, NormalizeAction(action), symbol, leverage)
         == ValidatePolicy(policy, action, symbol, leverage)
  {
    NormalizeActionTwice(action);
    hide NormalizeAction;
  }

  // The ways to ask for each of the three managed actions, trimmed and in lower case.
  const ORDER_WORDS := {
    "order", "submitorder", "signhyperliquidcreateorder", "createhyperliquidorder", "submithyperliquidorder" }
  const CANCEL_WORDS := { "cancel", "cancelorder", "signhyperliquidcancelorder", "cancelhyperliquidorder" }
  const LEVERAGE_WORDS := { "updateleverage", "signhyperliquidupdateleverage", "updatehyperliquidleverage" }

  // Two names mean the same action: they are the same word, outer spaces and letter case
  // aside, or two words for one of the three.
  ghost predicate SameAction(a: string, b: string) {
    var m, n := ToLower(TrimSpace(a)), ToLower(TrimSpace(b));
    || m == n
    || (m in ORDER_WORDS && n in ORDER_WORDS)
    || (m in CANCEL_WORDS && n in CANCEL_WORDS)
    || (m in LEVERAGE_WORDS && n in LEVERAGE_WORDS)
  }

  // What a word folds to once its name is normalised.
  function ActionWord(n: string): string {
    if n in ORDER_ALIASES then "order"
    else if n in CANCEL_ALIASES then "cancel"
    else if n in LEVERAGE_ALIASES then "updateleverage"
    else n
  }

  lemma LowerIs(s: string, t: string)
    requires |s| == |t| && forall i | 0 <= i < |s| :: LowerChar(s[i]) == t[i]
    ensures ToLower(s) == t
  {
    assert forall i | 0 <= i < |s| :: ToLower(s)[i] == t[i];
  }

  lemma LowerOrder()
    ensures ToLower("order") == "order" && ToLower("cancel") == "cancel"
  {
    hide ToLower;
    LowerIs("order", "order");
    LowerIs("cancel", "cancel");
  }

  lemma LowerLeverage()
    ensures ToLower("updateLeverage") == "updateleverage"
  {
    hide ToLower;
    LowerIs("updateLeverage", "updateleverage");
  }

  lemma FoldedAction(action: string)
    ensures ToLower(NormalizeAction(action)) == ActionWord(ToLower(TrimSpace(action)))
  {
    LowerOrder();
    LowerLeverage();
    hide TrimSpace;
    hide ToLower;
    hide ORDER_ALIASES;
    hide CANCEL_ALIASES;
    hide LEVERAGE_ALIASES;
  }

  lemma WordsOfAliases(n: string)
    ensures n in ORDER_WORDS <==> n == "order" || n in ORDER_ALIASES
    ensures n in CANCEL_WORDS <==> n == "cancel" || n in CANCEL_ALIASES
    ensures n in LEVERAGE_WORDS <==> n == "updateleverage" || n in LEVERAGE_ALIASES
  {
  }

  lemma AliasesApart()
    ensures ORDER_ALIASES !! CANCEL_ALIASES && ORDER_ALIASES !! LEVERAGE_ALIASES && CANCEL_ALIASES !! LEVERAGE_ALIASES
  {
    assert "signhyperliquidcreateorder"[16] != "signhyperliquidcancelorder"[16];
    assert "createhyperliquidorder"[1] != "cancelhyperliquidorder"[1];
    assert "submithyperliquidorder"[0] != "cancelhyperliquidorder"[0];
    assert "submitorder"[0] != "cancelorder"[0];
  }

  lemma NamesNoAliases()
    ensures "order" !in ORDER_ALIASES + CANCEL_ALIASES + LEVERAGE_ALIASES
    ensures "cancel" !in ORDER_ALIASES + CANCEL_ALIASES + LEVERAGE_ALIASES
    ensures "updateleverage" !in ORDER_ALIASES + CANCEL_ALIASES + LEVERAGE_ALIASES
    ensures |"order"| == 5 && |"cancel"| == 6 && |"updateleverage"| == 14
  {
    AliasLengths("order");
    AliasLengths("cancel");
    AliasLengths("updateleverage");
  }

  lemma SameWordIff(m: string, n: string)
    ensures ActionWord(m) == ActionWord(n) <==>
              || m == n
              || (m in ORDER_WORDS && n in ORDER_WORDS)
              || (m in CANCEL_WORDS && n in CANCEL_WORDS)
              || (m in LEVERAGE_WORDS && n in LEVERAGE_WORDS)
  {
    WordsOfAliases(m);
    WordsOfAliases(n);
    AliasesApart();
    NamesNoAliases();
    hide ORDER_ALIASES;
    hide CANCEL_ALIASES;
    hide LEVERAGE_ALIASES;
    hide ORDER_WORDS;
    hide CANCEL_WORDS;
    hide LEVERAGE_WORDS;
  }

  lemma SameActionIff(a: string, b: string)
    ensures EqualFold(NormalizeAction(a), NormalizeAction(b)) <==> SameAction(a, b)
  {
    FoldedAction(a);
    FoldedAction(b);
    SameWordIff(ToLower(TrimSpace(a)), ToLower(TrimSpace(b)));
    hide NormalizeAction;
    hide ActionWord;
    hide TrimSpace;
    hide ORDER_WORDS;
    hide CANCEL_WORDS;
    hide LEVERAGE_WORDS;
  }

  ghost predicate Lists(names: seq<string>, name: string) {
    exists i | 0 <= i < |names| :: SameAction(names[i], name)
  }

  // What a policy says to an action name, a symbol and a leverage: the first thing against
  // them. A list of no symbols allows all, and so does the lack of a symbol.
  ghost predicate Judged(policy: Policy, action: string, symbol: string, leverage: int, verdict: Option<SignError>) {
    var named, listed := TrimSpace(action) != "", Lists(policy.allowedActions, action);
    var known := symbol == "" || policy.allowedSymbols == [] || Lists(policy.allowedSymbols, ToUpper(symbol));
    var low := leverage <= 0 || policy.maxLeverage <= 0 || leverage <= policy.maxLeverage;
    match verdict
    case None => named && listed && known && low
    case Some(ActionRequired) => !named
    case Some(ActionNotAllowed) => named && !listed
    case Some(SymbolNotAllowed) => named && listed && !known
    case Some(LeverageTooHigh) => named && listed && known && !low
    case Some(_) => false
  }

  lemma AllowedIffListed(names: seq<string>, name: string)
    ensures StringAllowed(names, name) <==> Lists(names, name)
    ensures StringAllowed(names, NormalizeAction(name)) <==> Lists(names, name)
  {
    NormalizeActionTwice(name);
    hide NormalizeAction;
    hide EqualFold;
    hide SameAction;
    forall i | 0 <= i < |names|
      ensures EqualFold(NormalizeAction(names[i]), NormalizeAction(name)) <==> SameAction(names[i], name)
    {
      SameActionIff(names[i], name);
    }
  }

  lemma BlankAction(action: string)
    ensures NormalizeAction(action) == "" <==> TrimSpace(action) == ""
  {
    hide TrimSpace;
  }

  lemma PolicyJudges(policy: Policy, action: string, symbol: string, leverage: int, verdict: Option<SignError>)
    ensures ValidatePolicy(policy, action, symbol, leverage) == verdict <==>
              Judged(policy, action, symbol, leverage, verdict)
  {
    BlankAction(action);
    AllowedIffListed(policy.allowedActions, action);
    AllowedIffListed(policy.allowedSymbols, ToUpper(symbol));
    hide NormalizeAction;
    hide StringAllowed;
    hide Lists;
    hide TrimSpace;
  }

  function MergePolicy(base: Policy, override: Policy): Policy {
    Policy(if override.allowedActions != [] then override.allowedActions else base.allowedActions,
           if override.allowedSymbols != [] then override.allowedSymbols else base.allowedSymbols,
           if override.maxLeverage > 0 then override.maxLeverage else base.maxLeverage)
  }

  // What NewAgentSigner makes of any configured default policy.
  function DefaultPolicy(configured: Policy): Policy {
    configured.(
      maxLeverage := if configured.maxLeverage <= 0 then DEFAULT_LEVERAGE else configured.maxLeverage,
      allowedActions := if configured.allowedActions == [] then ["order", "cancel", "updateLeverage"]
                        else configured.allowedActions)
  }

  // A policy that bounds something: it lists actions and limits the leverage.
  predicate Bounding(policy: Policy) {
    policy.allowedActions != [] && policy.maxLeverage > 0
  }

  function WalletKey(user: string, agent: string): string {
    ToLower(TrimSpace(user)) + ":" + ToLower(TrimSpace(agent))
  }

  function Saved(w: Wallet, freshId: string, now: Time): Wallet {
    w.(id := if w.id == "" then freshId else w.id,
       createdAt := if w.createdAt == ZERO_TIME then now else w.createdAt,
       updatedAt := now,
       status := if w.status == "" then PENDING_APPROVAL else w.status,
       policy := if w.policy.maxLeverage == 0 then w.policy.(maxLeverage := DEFAULT_LEVERAGE) else w.policy)
  }

  function AfterSave(wallets: WalletMap, w: Wallet, freshId: string, now: Time): WalletMap {
    wallets[WalletKey(w.userAddress, w.agentAddress) := Saved(w, freshId, now)]
  }

  function Restatused(w: Wallet, status: string, now: Time): Wallet {
    var next := TrimOr(status, ACTIVE);
    w.(status := next, updatedAt := now,
       approvedAt := if next == ACTIVE && w.approvedAt.None? then Some(now) else w.approvedAt)
  }

  function AfterStatus(wallets: WalletMap, user: string, agent: string, status: string, now: Time): WalletMap {
    var key := WalletKey(user, agent);
    if key in wallets then wallets[key := Restatused(wallets[key], status, now)] else wallets
  }

  predicate ActiveFor(w: Wallet, user: string) {
    EqualFold(w.userAddress, user) && w.status == ACTIVE
  }

  // w is an active wallet of the user, and none of them was updated later.
  ghost predicate LatestActive(wallets: WalletMap, user: string, w: Wallet) {
    && (exists k | k in wallets :: wallets[k] == w && ActiveFor(w, user))
    && (forall k | k in wallets && ActiveFor(wallets[k], user) :: wallets[k].updatedAt <= w.updatedAt)
  }

  // A decoded exchange action; the field "type" names it.
  type Action = map<string, string>

  const TYPE := "type"

  // The name the policy is asked about: the action's own type, else the request's name.
  function ActionTypeOf(body: Action, action: string): string {
    FirstNonEmpty(if TYPE in body then body[TYPE] else "", action)
  }

  // A Sign call between its wallet read and its nonce: the action to be signed, and the
  // action name, symbol and leverage the request gives beside it.
  datatype SignCall = SignCall(user: string, wallet: Wallet, body: Action, action: string,
                               symbol: string, leverage: int) {

    function ActionType(): string {
      ActionTypeOf(body, action)
    }
  }

  // A signature and the call it was made for.
  datatype Signature = Signature(call: SignCall, nonce: int) {

    // What is hashed, the mode of the whole service aside.
    function Data(): SignedData {
      SignedData(call.wallet.keyRef, call.wallet.agentAddress, call.ActionType(), call.body, nonce)
    }
  }

  datatype SignedData = SignedData(keyRef: string, agentAddress: string, actionType: string, body: Action, nonce: int)

  // There is an action to sign, and the policy has nothing against its name or against the
  // symbol and leverage of the request.
  predicate Allowed(call: SignCall, policy: Policy) {
    call.body != map[] && ValidatePolicy(policy, call.ActionType(), call.symbol, call.leverage).None?
  }

  datatype State = State(wallets: WalletMap, nonces: NonceMap, calls: map<nat, SignCall>, signed: seq<Signature>)

  datatype Step =
    | CreateWallet(w: Wallet, configured: Policy, override: Policy, freshId: string, now: Time)
    | SetStatus(user: string, agent: string, status: string, now: Time)
    | SignRead(c: nat, call: SignCall)
    | SignNonce(c: nat, at: int)
    | SignFails(c: nat)

  function Init(): State {
    State(map[], map[], map[], [])
  }

  ghost predicate Enabled(s: State, t: Step) {
    match t
    case CreateWallet(w, configured, override, freshId, _) =>
      freshId != "" && w.status == PENDING_APPROVAL && w.policy == MergePolicy(DefaultPolicy(configured), override)
    case SetStatus(_, _, _, _) => true
    case SignRead(c, call) =>
      && c !in s.calls && LatestActive(s.wallets, call.user, call.wallet)
      && Allowed(call, call.wallet.policy)
    case SignNonce(c, _) => c in s.calls
    case SignFails(c) => c in s.calls
  }

  function After(s: State, t: Step): State {
    match t
    case CreateWallet(w, _, _, freshId, now) => s.(wallets := AfterSave(s.wallets, w, freshId, now))
    case SetStatus(user, agent, status, now) => s.(wallets := AfterStatus(s.wallets, user, agent, status, now))
    case SignRead(c, call) => s.(calls := s.calls[c := call])
    case SignNonce(c, at) =>
      if c !in s.calls then s
      else
        var agent := s.calls[c].wallet.agentAddress;
        s.(nonces := AfterNonce(s.nonces, agent, at), calls := s.calls - {c},
           signed := s.signed + [Signature(s.calls[c], NextNonce(LastNonce(s.nonces, AgentKey(agent)), at))])
    case SignFails(c) => s.(calls := s.calls - {c})
  }

  ghost const Protocol: Machine<State, Step> := Machine((s, t) => Enabled(s, t), (s, t) => After(s, t))

  predicate StoredWell(w: Wallet) {
    w.id != "" && Bounding(w.policy)
  }

  // The wallet was the user's and active when read, and its policy allows the action.
  predicate Approved(call: SignCall) {
    ActiveFor(call.wallet, call.user) && StoredWell(call.wallet) && Allowed(call, call.wallet.policy)
  }

  function Key(g: Signature): string {
    AgentKey(g.call.wallet.agentAddress)
  }

  ghost predicate NoncesGrow(signed: seq<Signature>, nonces: NonceMap) {
    && (forall i, j | 0 <= i < j < |signed| && Key(signed[i]) == Key(signed[j]) :: signed[i].nonce < signed[j].nonce)
    && (forall i | 0 <= i < |signed| :: signed[i].nonce <= LastNonce(nonces, Key(signed[i])))
  }

  ghost predicate Inv(s: State) {
    && (forall k | k in s.wallets :: StoredWell(s.wallets[k]))
    && (forall c | c in s.calls :: Approved(s.calls[c]))
    && (forall i | 0 <= i < |s.signed| :: Approved(s.signed[i].call))
    && NoncesGrow(s.signed, s.nonces)
  }

  lemma SavedWell(w: Wallet, configured: Policy, override: Policy, freshId: string, now: Time)
    requires freshId != "" && w.policy == MergePolicy(DefaultPolicy(configured), override)
    ensures StoredWell(Saved(w, freshId, now))
  {
  }

  lemma AllStoredWell(wallets: WalletMap, key: string, w: Wallet)
    requires StoredWell(w) && forall k | k in wallets :: StoredWell(wallets[k])
    ensures var after := wallets[key := w]; forall k | k in after :: StoredWell(after[k])
  {
    hide StoredWell;
  }

  lemma CreateKeeps(s: State, w: Wallet, configured: Policy, override: Policy, freshId: string, now: Time)
    requires Inv(s) && Enabled(s, CreateWallet(w, configured, override, freshId, now))
    ensures Inv(After(s, CreateWallet(w, configured, override, freshId, now)))
  {
    SavedWell(w, configured, override, freshId, now);
    AllStoredWell(s.wallets, WalletKey(w.userAddress, w.agentAddress), Saved(w, freshId, now));
    hide Enabled;
    hide Approved;
    hide StoredWell;
    hide Saved;
    hide WalletKey;
    hide NoncesGrow;
  }

  lemma StatusKeeps(s: State, user: string, agent: string, status: string, now: Time)
    requires Inv(s)
    ensures Inv(After(s, SetStatus(user, agent, status, now)))
  {
    hide Approved;
    hide TrimSpace;
    hide WalletKey;
    hide NoncesGrow;
  }

  lemma ReadKeeps(s: State, c: nat, call: SignCall)
    requires Inv(s) && Enabled(s, SignRead(c, call))
    ensures Inv(After(s, SignRead(c, call)))
  {
    assert Approved(call) by {
      hide Allowed;
      hide StoredWell;
      hide ActiveFor;
      hide NoncesGrow;
      var k :| k in s.wallets && s.wallets[k] == call.wallet && ActiveFor(call.wallet, call.user);
    }
    hide LatestActive;
    hide Allowed;
    hide Approved;
    hide StoredWell;
    hide NoncesGrow;
  }

  lemma SignKeeps(s: State, c: nat, at: int)
    requires Inv(s) && c in s.calls
    ensures Inv(After(s, SignNonce(c, at)))
  {
    hide Approved;
    hide StoredWell;
    hide AgentKey;
  }

  lemma FailKeeps(s: State, c: nat)
    requires Inv(s)
    ensures Inv(After(s, SignFails(c)))
  {
    hide Approved;
    hide StoredWell;
    hide NoncesGrow;
  }

  lemma StepKeeps(s: State, t: Step)
    requires Inv(s) && Enabled(s, t)
    ensures Inv(After(s, t))
  {
    match t
    case CreateWallet(w, configured, override, freshId, now) => CreateKeeps(s, w, configured, override, freshId, now);
    case SetStatus(user, agent, status, now) => StatusKeeps(s, user, agent, status, now);
    case SignRead(c, call) => ReadKeeps(s, c, call);
    case SignNonce(c, at) => SignKeeps(s, c, at);
    case SignFails(c) => FailKeeps(s, c);
  }

  // Over every interleaving, for any clock: nonces of an agent grow, no data is ever signed
  // twice, and what was signed was allowed by a policy that limits leverage, for a wallet
  // that was active and the user's own when the call read it. The policy was asked about the
  // signed action's own type, but about the symbol and leverage of the request, which are
  // not signed: AgentRuns.SignableIff says what that leaves open.
  lemma SignaturesSafe(steps: seq<Step>)
    requires Legal(Protocol, Init(), steps)
    ensures var signed := Exec(Protocol, Init(), steps).signed;
            && (forall i, j | 0 <= i < j < |signed|
                              && SameAgent(signed[i].call.wallet.agentAddress, signed[j].call.wallet.agentAddress) ::
                  signed[i].nonce < signed[j].nonce)
            && (forall i, j | 0 <= i < j < |signed| :: signed[i].Data() != signed[j].Data())
            && (forall i | 0 <= i < |signed| :: PolicyHeld(signed[i].call))
  {
    hide Approved;
    hide StoredWell;
    hide PolicyHeld;
    hide Key;
    forall a, t | Inv(a) && Protocol.enabled(a, t) ensures Inv(Protocol.next(a, t)) {
      StepKeeps(a, t);
    }
    assert Inv(Init());
    Invariant(Protocol, a => Inv(a), Init(), steps);
    var signed := Exec(Protocol, Init(), steps).signed;
    forall i | 0 <= i < |signed| ensures PolicyHeld(signed[i].call) {
      ApprovedHeld(signed[i].call);
    }
    forall i, j | 0 <= i < j < |signed|
                  && SameAgent(signed[i].call.wallet.agentAddress, signed[j].call.wallet.agentAddress)
      ensures signed[i].nonce < signed[j].nonce
    {
      SameAgentSameKey(signed[i], signed[j]);
    }
    hide SameAgent;
    forall i, j | 0 <= i < j < |signed| ensures signed[i].Data() != signed[j].Data() {
      SameDataSameNonce(signed[i], signed[j]);
    }
  }

  lemma SameAgentSameKey(g: Signature, h: Signature)
    ensures SameAgent(g.call.wallet.agentAddress, h.call.wallet.agentAddress) <==> Key(g) == Key(h)
  {
    hide TrimSpace;
    hide ToLower;
  }

  lemma SameDataSameNonce(g: Signature, h: Signature)
    ensures g.Data() == h.Data() ==> Key(g) == Key(h) && g.nonce == h.nonce
  {
    hide AgentKey;
    hide FirstNonEmpty;
  }

  ghost predicate PolicyHeld(call: SignCall) {
    && EqualFold(call.wallet.userAddress, call.user) && call.wallet.status == ACTIVE
    && call.body != map[]
    && (TYPE in call.body && TrimSpace(call.body[TYPE]) != "" ==> call.ActionType() == TrimSpace(call.body[TYPE]))
    && TrimSpace(call.ActionType()) != "" && Lists(call.wallet.policy.allowedActions, call.ActionType())
    && (call.symbol != "" && call.wallet.policy.allowedSymbols != [] ==>
          Lists(call.wallet.policy.allowedSymbols, ToUpper(call.symbol)))
    && (call.leverage > 0 ==> call.leverage <= call.wallet.policy.maxLeverage)
  }

  lemma ApprovedHeld(call: SignCall)
    requires Approved(call)
    ensures PolicyHeld(call)
  {
    PolicyJudges(call.wallet.policy, call.ActionType(), call.symbol, call.leverage, None);
    hide EqualFold;
    hide ValidatePolicy;
    hide Lists;
    hide TYPE;
  }
}

# Verified model of the trading backend

This project models, in Dafny 4.11, the parts of the backend whose behaviour spans several
steps or several functions, and proves what they promise over whole runs.

- **Futures orders** (`OrderStatus`, `Orders`, `OrderRuns`, `OrderTerminal`, `OrderTrace`, `OrderCancel`,
  `OrderStart`, `OrderSql`, `OrderService`): create, cancel, status
  sync and websocket reports race on one order map. Every critical section of the store is one atomic step;
  exchange answers arrive between steps, and write-backs use what was read before.
- **In-memory store** (`HyperStore`): the class whose fields are the maps, its methods with their loops.
- **Fills** (`Fills`, `WsBridge`): deduplication by key, and the websocket handlers that drive store and stream.
- **Nonces and agent signing** (`Nonces`, `Agents`, `AgentRuns`, `AgentSigner`).
- **Stream bridge** (`Topics`, `Routes`, `Stream`, `StreamRuns`, `StreamService`): sequence numbers, bounded recent buffers, topics.
- **Money** (`Decimal`, `Money`, `Quotes`, `FilledSize`): decimal strings as exact rationals, printed at 18 digits.
- **Sessions** (`Sessions`, `SessionRuns`, `IdentityService`): refresh token rotation and revocation.
- **Spot orders** (`SpotOrders`, `SpotRuns`, `SpotService`): quotes and idempotent creation.

`Runs` holds the common notion of a protocol: a state machine given by enabled steps and their effect. A theorem
about runs quantifies over every sequence of enabled steps from the initial state, so over every interleaving and
every answer of the outside world. The services are classes whose methods take a ghost protocol state and return
the steps they amount to; their postconditions say that these steps are a legal run, that the object ends in the
run's final state, and what the result is, case by case.

What the outside world decides enters as parameters: clock readings, fresh ids and tokens, broker and exchange
answers. Fresh ids and tokens are constrained only to be unused before. Token hashes are injective. Map iteration
is an arbitrary choice at each step of a loop.

Some promises hold only under a condition, which is then proved exact: from which states buffers can come out of
order (`StreamRuns.ReorderIff`), a terminal order can be reopened (`OrderTerminal.TerminalForeverIff`), a refresh
token can be granted twice (`SessionRuns.DoubleGrantIff`), a disabled wallet can still sign
(`AgentRuns.SignsAfterDisablingIff`), an order can lose the exchange's id (`OrderTrace.ProviderIdForeverIff`); which
events reach a user's private topics (`Topics.ReachesIff`), what a policy binds (`AgentRuns.SignableIff`), which
fills share a key (`Fills.FillKeyExact`), for which inputs quotes are monotone (`Quotes.MonotoneIff`).
`docs/risk/RISK_INVARIANTS.md` lines 9 and 10 say that the agent signer signs only three actions and no
withdrawal; the code lets a wallet request list others. `AgentRuns.WithdrawalSigned` gives a run that signs one, and
`AgentRuns.ManagedRunsIff` says exactly which requests and configurations rule that out. Line 28 says that private
topics are user-scoped; `Topics.ReachesIff` says exactly which events reach a user, and two families of foreign events
do: those that name the topic explicitly (`Topics.ExplicitTopicCrosses`) and those of users whose ids the mapping
confuses (`Topics.SlashedUsersCollide`, `Topics.WildcardsCollide`). Line 16 says that provider order ids remain
traceable; `OrderTrace.LateCancelRenames` gives a run that loses one, and `OrderTrace.ProviderIdForeverIff` says exactly
when none is lost.

`dafny verify dfyconfig.toml` checks the whole project.

## Model

| member | source | states |
|---|---|---|
| Money.ParseFormat | pkg/money/decimal.go:49-60 | for every rational v >= 0, parsing the print of v succeeds and gives the multiple of 10^-18 nearest to v, halves away from zero; the print has no trailing fractional zero and no bare dot |
| Money.ParseFormatNegative | pkg/money/decimal.go:9-22 | a negative rational prints as a string that Parse refuses as negative, unless it rounds to "0" |
| Money.FormatParse | pkg/money/decimal.go:49-60 | a string is left alone by parsing and printing it if and only if it is canonical with at most 18 fractional digits |
| Money.FormatStable | pkg/money/decimal.go:49-60 | what was printed prints as itself again |
| Money.MultiplyBpsValue | pkg/money/decimal.go:24-31 | for every amount and every bps the product fails only where the amount does not parse, and otherwise denotes the exact share rounded to 10^-18 (a negative share prints as an amount Parse refuses, unless it rounds to 0) |
| Money.SubValue | pkg/money/decimal.go:33-47 | subtraction fails exactly on an amount that does not parse or when the second is larger; otherwise it denotes the rounded difference |
| Money.ShortAmountOnGrid | pkg/money/decimal.go:9-22 | an amount written with at most 18 fractional digits is a multiple of 10^-18 |
| Quotes.QuoteValues | internal/trading/service.go:35-60 | the fee, output and minimum strings of a quote denote the three numbers of the rounding pipeline; a quote fails only on a bad amount or too much slippage, so neither subtraction reaches its negative branch |
| Quotes.FeeAndOutputConserve | internal/trading/service.go:45-52 | for every non-negative rational input fee + output is within half of 10^-18 of the input, and equal to it if and only if the input has at most 18 fractional digits |
| Quotes.QuoteBounds | internal/trading/service.go:45-60 | 0 <= minimum <= output <= input (for 18-digit inputs), the fee is nearest to 0.3%, and the minimum is within half of 10^-18 of output*(10000-bps)/10000 |
| Quotes.OutputMonotone | internal/trading/service.go:45-52 | on 18-digit inputs the output never falls when the input grows, despite two roundings |
| Quotes.OutputNearlyMonotone | internal/trading/service.go:45-52 | on all non-negative inputs it falls by at most one unit of 10^-18 |
| Quotes.FinerInputsCanDrop | internal/trading/service.go:45-52 | a pair of 19-digit inputs where it does fall |
| Quotes.MonotoneIff | internal/trading/service.go:45-52 | for every p: the output is monotone on all inputs of at most p fractional digits if and only if p <= 18 |
| Quotes.MinOutputMonotone | internal/trading/service.go:53-60 | the minimum never falls when the output grows |
| Quotes.MinOutputAntitone | internal/trading/service.go:53-60 | the minimum never rises when the slippage grows |
| Quotes.QuoteMonotone | internal/trading/service.go:45-60 | output and minimum of whole quotes, read from their strings, are monotone in the input and antitone in the slippage |
| FilledSize.MaxFractionDigits | internal/hypertrader/http_provider.go:385-393 | the loop finds the largest number of fractional digits among the operands |
| FilledSize.DifferenceExact | internal/hypertrader/http_provider.go:360-383 | the result denotes exactly original - remaining and is canonical; it is empty if and only if an operand is no decimal or the difference is negative |
| Topics.MappedTopicsHaveNoWildcards | internal/streambridge/service.go:143-243 | topics resolved without an explicit topic never contain '#' or '+' (section 4.7.1 of OASIS MQTT 3.1.1), whatever the event holds |
| Topics.NoWildcardsIff | internal/streambridge/service.go:143-146 | an event resolves to topics without wildcards if and only if it names no explicit topic or one without them |
| Routes.ResolvesTo | internal/streambridge/service.go:143-290 | where every event goes as it was handed in: the topic it names, or those whose levels its type, user, chain, token and bucket give; an event that lacks a part goes nowhere |
| Routes.ChainIsCode | internal/streambridge/service.go:269-283 | which chain names stand for which of the four codes, each an if and only if, and any other for itself |
| Routes.StripEach | internal/streambridge/service.go:285-290 | a topic part keeps every character of the trimmed value but '#' and '+', in order |
| Routes.PartOfPadded | internal/streambridge/service.go:285-290 | slashes and spaces around a value never count |
| Topics.PrivateTopicsMeetIff | internal/streambridge/service.go:185-239 | for all user ids and private types, exactly when two private topics are the same: same type and user part, or the two order updates with one part the other followed by "/hypertrader" |
| Topics.ReachesIff | docs/risk/RISK_INVARIANTS.md:28 | for every event and every user, exactly when the event is published on a private topic of the user: it names one of them explicitly, or it names no topic, is of a private type, has a user id, and the two user parts are equal or (for the two order updates) one is the other followed by "/hypertrader" |
| Topics.ExplicitTopicCrosses | internal/streambridge/service.go:143-146 | an order update about user alice that names a topic of user bob is published there, though the two parts are unrelated |
| Topics.UsersShareTopicIff | internal/streambridge/service.go:185-239 | events of two users that name no topic can resolve to a common topic if and only if both ids are not empty and their parts are equal or one is the other followed by "/hypertrader" |
| Topics.WildcardsCollide | internal/streambridge/service.go:285-290 | a user id and the same id with a '#' behind it have equal parts, so parts without '/' collide too |
| Topics.SameKindTopic | internal/streambridge/service.go:285-290 | for one event type the topic decides the user part, slashes or not |
| Topics.PlainUsersResolveApart | internal/streambridge/service.go:143-239 | for user ids free of '/', '#', '+' and outer spaces, exactly when two private events resolve alike: same explicit topic, or none and same user and type, or one names explicitly the topic of the other |
| Topics.PlainUserReachedIff | docs/risk/RISK_INVARIANTS.md:28 | for two different such users a private event of the one reaches a topic of the other if and only if it names that topic explicitly |
| Topics.SlashedUsersCollide | internal/streambridge/service.go:185-239 | two different users, one with a '/' in its id, that share a private topic |
| StreamRuns.EveryNumberAccountedFor | internal/streambridge/service.go:47-60 | over every interleaving of publishers, encoding and broker failures: numbers are exactly 1..seq, each once; each is in exactly one of in flight, failed, remembered; nothing is remembered that the broker did not accept first |
| StreamRuns.RecentShowsFullLog | internal/streambridge/service.go:75-88 | after every history each buffer is the last 200 entries of the topic's full log, and Recent is the last min(limit, length) of the full log with the normalised limit |
| StreamRuns.ExclusiveBuffersIncrease | internal/streambridge/service.go:90-108 | when no two envelopes of one topic are in flight together, and publications to different topics overlap freely, each buffer is strictly increasing in Seq and its last entry has the greatest number the topic remembered |
| StreamRuns.ReorderIff | internal/streambridge/service.go:47-60 | from every reachable state with topics in order, the envelopes already numbered can bring a buffer out of order if and only if two of one topic are in flight or one is older than what its topic remembered |
| StreamRuns.OverlapCanReorder | internal/streambridge/service.go:47-60 | a run of two publishers that ends with a buffer out of order |
| StreamService.Service.RememberOne | internal/streambridge/service.go:133-141 | appends to the topic's buffer and cuts it to the last 200; no other topic changes |
| StreamService.Service.Publish | internal/streambridge/service.go:37-61 | the loop over topics is a legal protocol run; up to the first failing topic everything is delivered and remembered in order, the failing number is used up, later topics get none; all errors and the result are given, and each envelope carries the event's cleaned-up fields on the topics it goes to |
| StreamService.Service.PublishBatch | internal/streambridge/service.go:63-73 | a legal run; all events are published as Publish says, or those before the first failing one and of that one what Publish says, and nothing of later ones; results are returned only in the first case |
| StreamService.BatchLog | internal/streambridge/service.go:63-73 | the log after a batch is the envelopes of its successful events in order, each with all its topics, followed by the delivered part of the failing event, and nothing else |
| StreamService.Service.RecentEvents | internal/streambridge/service.go:75-88 | returns the last entries remembered for the topic, as many as the limit, where a limit outside 1..200 stands for 50; the same state RecentShowsFullLog speaks about |
| StreamService.Service.TopicSnapshots | internal/streambridge/service.go:90-108 | one entry per topic with the count and the number and time of its newest entry |
| OrderStatus.NormalizeIdempotent | internal/hypertrader/service.go:673-695 | normalisation always gives a trimmed, lower-case, non-empty fixed point of itself |
| OrderStatus.NormalizeStandsFor | internal/hypertrader/service.go:673-695 | the whole table, on every report trimmed and in lower case: cancelled iff it contains "cancel", failed iff it is "failed" or contains "reject" and not "cancel", filled, unknown and submitted iff it is one of their words, and otherwise itself |
| OrderStatus.MergeTakesReport | internal/hypertrader/service.go:697-714 | a stored status after a report: a terminal one stays under an open word, any other gives way to what the word stands for |
| OrderStatus.TerminalFixedPoints | internal/hypertrader/service.go:707-714 | among fixed points exactly cancelled, filled and failed are terminal |
| OrderStatus.MergeReopensOnly | internal/hypertrader/service.go:697-705 | for any provider status a merge gives "submitted" if and only if the report normalises to it and the order is not terminal |
| OrderStatus.MergeKeepsFixed | internal/hypertrader/service.go:697-705 | merging keeps stored statuses fixed points |
| OrderStatus.MergeStaysTerminal | internal/hypertrader/service.go:697-714 | a terminal order stays terminal under a report if and only if the report normalises to submitted, filled, cancelled or failed |
| Orders.SameOwnerSymmetric | internal/hypertrader/store.go:645-653 | sameOwner is reflexive and symmetric |
| Orders.SameOwnerNotTransitive | internal/hypertrader/store.go:645-653 | ... but not transitive: an order without owner matches two orders of different users |
| Orders.PatchEvolves | internal/hypertrader/store.go:211-231 | UpdateOrder keeps identity, owner and terms and takes back no submission or cancellation time; a trimmed provider id stays the same if and only if the patch brings a blank one or that one, and is replaced but never blanked otherwise |
| Orders.ReportEvolves | internal/hypertrader/store.go:506-537 | UpdateOrderStatusByProvider keeps the same for every stored order, and leaves provider, provider id and submission time exactly as they were |
| Orders.ReportSound | internal/hypertrader/store.go:527-531 | a websocket report leaves a fixed-point status, and a cancelled order with its cancellation time |
| Orders.ReportLands | internal/hypertrader/store.go:506-537 | a report changes exactly the orders that it names by a non-blank provider id or cloid and that are not another owner's (an address that differs beyond letter case, or another user id); those take the reported status and nothing else but payload and times |
| OrderRuns.StepKeeps | internal/hypertrader/service.go:120-262 | every enabled step of every call keeps the whole invariant: distinct ids, one submission per id, one order per request and owner, sound statuses, stale reads that are older versions of stored orders |
| OrderRuns.AtMostOneSubmission | internal/hypertrader/service.go:141-148 | over every interleaving no order is submitted twice, and stored or submitted orders sharing a non-empty client request id are pairwise not sameOwner |
| OrderRuns.DuplicateCreateSubmitsNothing | internal/hypertrader/store.go:186-194 | a create whose request already has a matching order returns such an order, changes no order and submits nothing |
| OrderRuns.OrdersOnlyEvolve | docs/risk/RISK_INVARIANTS.md:15-16 | over every interleaving side, symbol, size, reduce-only, time in force, address and client request id of a stored order never change; an order with a provider id always has one, though it may be another |
| OrderTrace.ProviderIdKeptIff | internal/hypertrader/service.go:154-256 | for every step from every reachable state, exactly when an order keeps its provider id: what a submission, cancel or sync writes back on it is blank or that id, each in its own order of precedence between the id it read and the one it was answered; nothing else touches it |
| OrderTrace.ProviderIdForeverIff | docs/risk/RISK_INVARIANTS.md:16 | for every reachable order with a provider id: it keeps the id over all continuations, however calls overlap, whose status answers about it name no third id, if and only if no running call can replace it (an unanswered submission of its own, a cancel that read it without an id, any call that read or was answered another id) |
| OrderTrace.LateCancelRenames | internal/hypertrader/service.go:198-209 | a run that loses the id of an order: a cancel reads the order before its submission is answered and writes its own request id over the exchange's order id; a websocket report by the lost id no longer matches the order |
| OrderTrace.SyncRenames | internal/hypertrader/service.go:239-256 | from every reachable state a status answer with any other id replaces the stored one, with no other call involved |
| OrderRuns.StoredOrdersSound | internal/hypertrader/service.go:239-256 | in every reachable state stored statuses are fixed points and cancelled implies a cancellation time, even with stale write-backs |
| OrderCancel.BecomesCancelledIff | internal/hypertrader/service.go:165-256 | for every step from every reachable state, exactly when it makes an order cancelled: a cancel's write-back on it, a report about it that contains "cancel", or a sync that had read it cancelled and was told it is open |
| OrderCancel.CancelledOnlyByCause | internal/hypertrader/service.go:165-256 | over every interleaving a stored cancelled order has a cancel's write-back on it, or a report about it containing "cancel", earlier in the run |
| OrderTerminal.TerminalKeptIff | internal/hypertrader/service.go:239-256 | for every step of any run, overlapping or not, exactly when a terminal order stays terminal: a submission's write-back never leaves it so, a sync's by its report and the status it had read, a report by its normal form |
| OrderTerminal.TerminalForeverIff | internal/hypertrader/service.go:222-256 | for every reachable terminal order: it stays terminal over all settling continuations, however calls overlap, if and only if no submission of it runs and no running sync read it before it was terminal and can still write submitted back |
| OrderTerminal.TerminalAbsorbs | internal/hypertrader/service.go:697-714 | over every run in which calls and reports on one order do not overlap, and overlap freely on different orders, with provider statuses that normalise to submitted, filled, cancelled or failed, a terminal order stays terminal |
| OrderTerminal.OverlappingSyncReopens | internal/hypertrader/service.go:222-256 | a run in which the answer to a submission is lost, a sync reads the pending order, a websocket report of its user fills it, and the sync writes "submitted" over the fill |
| OrderSql.SqlStatusIff | internal/hypertrader/postgres_store.go:620-623 | the SQL CASE and the Go merge give the same status unless the report normalises to submitted and the stored status is terminal only after folding |
| OrderSql.SqlCancelledIff | internal/hypertrader/postgres_store.go:626 | they agree on the presence of a cancellation time unless a cancelled order without one gets a report that normalises to submitted |
| OrderSql.SqlAgreesInEveryRun | internal/hypertrader/postgres_store.go:618-630 | in every reachable state the SQL and the Go update agree on status and on the presence of a cancellation time, for every stored order and report |
| HyperStore.MemoryStore.CreateOrder | internal/hypertrader/store.go:186-209 | scans for a duplicate of the request and the owner in any order; otherwise files the order with its defaults; the whole new map and every possible result are given |
| HyperStore.MemoryStore.UpdateOrder | internal/hypertrader/store.go:211-231 | replaces exactly one order by the patched one, or reports NotFound |
| HyperStore.MemoryStore.UpdateOrderStatusByProvider | internal/hypertrader/store.go:506-537 | the loop over the orders in any order: those of the owner that the report names take its status, and every other order, in particular another owner's, is exactly as it was |
| HyperStore.MemoryStore.AppendFills | internal/hypertrader/store.go:458-469 | the last fill per key joins what is held for the address, outer spaces and letter case aside; what any other address holds is as it was |
| HyperStore.MemoryStore.ListFills | internal/hypertrader/store.go:471-487 | lists, newest first, the newest fills held for the address, outer spaces and letter case aside; a limit outside 1..2000 stands for 100 |
| HyperStore.MemoryStore.SaveAgentWallet | internal/hypertrader/store.go:539-558 | stores the wallet with its defaults under its user and agent key |
| HyperStore.MemoryStore.GetActiveAgentWallet | internal/hypertrader/store.go:573-589 | returns an active wallet of the user than which none was updated later, and NotFound if and only if there is none |
| HyperStore.MemoryStore.UpdateAgentWalletStatus | internal/hypertrader/store.go:591-610 | changes the status of exactly the named wallet; the first activation sets the approval time |
| HyperStore.MemoryStore.NextAgentNonce | internal/hypertrader/store.go:612-622 | returns and stores the next nonce of the normalised address only |
| HyperStore.MatchReport | internal/hypertrader/store.go:511-526 | an order matches if and only if it is not known to be another owner's and the report names it by provider id or cloid |
| OrderService.NormalizeOrderAgain | internal/hypertrader/service.go:499-547 | normalising a create request is idempotent: the fields it produced are accepted and unchanged the second time |
| OrderService.Service.CreateOrder | internal/hypertrader/service.go:120-167 | a legal run; each refusal is an if and only if on the request's fields; a repeated request gets its earlier order and stores nothing; otherwise one order with exactly the request's terms, cleaned up, is stored and submitted once |
| OrderService.Service.CancelOrder | internal/hypertrader/service.go:169-215 | a legal run; each failure is an if and only if and changes nothing; a cancelled order is the stored one but for status, times, provider, provider id and payload, each given |
| OrderService.Service.SyncOrderStatus | internal/hypertrader/service.go:217-262 | a legal run; each failure is an if and only if and changes nothing; the synced order takes the status the provider's word stands for, and is the stored one but for status, times, provider, provider id and payload, each given |
| Fills.FillKeyExact | internal/hypertrader/store.go:669-674 | for all fills, exactly when two keys are equal, including a hash that spells out another fill's symbol, time and order id |
| Fills.FillKeyFaithful | internal/hypertrader/store.go:669-674 | for hashes without ':' two keys are equal if and only if both use the same form with equal parts, whatever the symbols contain |
| Fills.FormsCollide | internal/hypertrader/store.go:669-674 | without that condition every fallback key is also the key of a different fill in hash form |
| Fills.AppendTwice | internal/hypertrader/store.go:458-469 | appending xs then ys equals appending their concatenation |
| Fills.AddedSeenBy | internal/hypertrader/store.go:458-487 | a batch stored for one address is seen under another exactly when the two differ in outer spaces and letter case only; otherwise what the other holds is unchanged |
| Fills.PutIs | internal/hypertrader/store.go:465-467 | a batch leaves the old keys and its own, each with its last fill |
| Fills.ReplayIdempotent | internal/hypertrader/ws_bridge.go:501-504 | replaying a batch, as reconnects do, changes nothing |
| Fills.OneFillPerKey | internal/hypertrader/ws_bridge.go:230-276 | after any sequence of fill messages, user events, reconciliations and history requests an address holds exactly one fill per key of the batches stored for it, outer spaces and letter case aside, the last one |
| WsBridge.Bridge.PublishOrderUpdates | internal/hypertrader/ws_bridge.go:183-228 | a legal order run and a legal stream run; the items before the first that fails to publish are stored and published on the user's order topic, that one is stored, later ones are neither; each stored report lands on this user's orders only, and no other user's order changes |
| WsBridge.Bridge.PublishUserFills | internal/hypertrader/ws_bridge.go:230-254 | fills are published on the user's fill topic in order, and stored for that address all together if and only if every one was published and remembered; otherwise none is stored |
| WsBridge.Bridge.PublishUserEvents | internal/hypertrader/ws_bridge.go:256-325 | the same for the fills of a user event; the events after them are published in order up to the first failure, which does not take the fills back |
| WsBridge.Bridge.ReconcileFills | internal/hypertrader/ws_bridge.go:501-515 | after a reconnect the provider's fills are stored, and every one of them is then attempted on the stream in order, whatever became of those before it |
| StreamService.AllAttemptedLog | internal/hypertrader/ws_bridge.go:505-514 | the log and the last number after such a loop are the delivered parts of all the events in order, known from the events and the deliveries alone |
| WsBridge.Bridge.TradeHistory | internal/hypertrader/service.go:88-102 | stores for the address and returns the provider's fills; without an answer lists the stored ones of that address, failing if and only if there are none |
| Nonces.NoncesNeverRepeat | docs/risk/RISK_INVARIANTS.md:8 | over any sequence of requests and any clock, even backwards, nonces of an agent strictly increase, however its address is spaced or cased, so none repeats |
| Nonces.NonceClosedForm | internal/hypertrader/store.go:612-622 | after an agent's requests at t_1..t_n, however its address is spaced or cased, its nonce is max(n, max over i of t_i + n - i), whatever other agents request in between |
| Nonces.PeakUnique | internal/hypertrader/store.go:612-622 | that maximum determines the nonce |
| Nonces.SqlNonceIff | internal/hypertrader/postgres_store.go:731-749 | the upsert gives the same nonce if and only if the address is not blank and has a nonce already or the clock is positive |
| Nonces.SqlAgreesInEveryRun | internal/hypertrader/postgres_store.go:738-744 | over every run with positive clocks and no blank address both stores hold the same nonces throughout |
| Agents.SignaturesSafe | internal/hypertrader/agent_signer.go:139-207 | over every interleaving of wallet changes and signatures, for any clock: nonces of an agent grow, no data is signed twice, and everything signed had its own type listed by a policy with a leverage limit, for a wallet of the caller that was active when read; the symbol and leverage that the policy bounds are those of the request |
| AgentRuns.OnlySigningTakesNonces | internal/hypertrader/agent_signer.go:162-168 | over every run the signed nonces and the stored ones are exactly those of a sequence of nonce requests with one request per signature: failed calls take none |
| AgentRuns.SignsAfterDisablingIff | internal/hypertrader/agent_signer.go:147-168 | from every reachable state without an active wallet of a user, and while none is made active, something can come to be signed for them if and only if a call of theirs already runs |
| Agents.AliasesAllowedAlike | internal/hypertrader/agent_signer.go:240-261 | an action alias is allowed exactly when its normal form is |
| Agents.SameActionIff | internal/hypertrader/agent_signer.go:240-251 | which action names mean the same: the same word, outer spaces and letter case aside, or two of the words for order, for cancel or for updateLeverage |
| Agents.PolicyJudges | internal/hypertrader/agent_signer.go:209-224 | the verdict on an action, symbol and leverage, each case an if and only if on what the policy lists and limits |
| AgentRuns.ManagedOnlyIff | docs/risk/RISK_INVARIANTS.md:9 | a policy confines signing to order, cancel and updateLeverage if and only if every action it lists is one of them or blank |
| AgentRuns.ManagedRunsIff | internal/hypertrader/agent_signer.go:226-238 | under a configuration and a wallet request nothing else is signed in any run if and only if every action the request lists, or else the configuration, is one of them or blank |
| AgentRuns.SignableIff | internal/hypertrader/agent_signer.go:151-172 | exactly which requests can come to be signed in some run under a configuration and a wallet request: there is an action, and the effective policy allows its type and the symbol and leverage the request gives beside it |
| AgentRuns.OtherFieldsUnbound | internal/hypertrader/agent_signer.go:161-164 | replacing any field of the action but its type changes nothing in that condition |
| AgentRuns.MislabelledSigned | internal/hypertrader/agent_signer.go:191-199 | a run in which a wallet limited to BTC and leverage 5 signs an action that says DOGE and leverage 100, both refused when the request names them |
| AgentRuns.ListedActionSigned | internal/hypertrader/agent_signer.go:76-95 | every action in the effective list that is not blank is signed in some run: its wallet is created, activated and signs it |
| AgentRuns.WithdrawalSigned | docs/risk/RISK_INVARIANTS.md:10 | under every configuration a wallet request that lists withdraw has a run that signs a withdrawal |
| AgentRuns.DefaultIsManaged | internal/hypertrader/agent_signer.go:49-51 | the default policy meets that condition |
| AgentSigner.Signer.CreateWallet | internal/hypertrader/agent_signer.go:63-95 | a legal run; it fails if and only if the user address is blank; otherwise the wallet is stored under both addresses, pending and unapproved, with the actions, symbols and leverage limit of the request, or else of the configuration, or else the defaults |
| AgentSigner.Signer.ActivateWallet | internal/hypertrader/agent_signer.go:118-130 | a legal run; refuses unknown statuses and unknown wallets and changes nothing then; otherwise exactly the wallet of the two addresses, spaces and case aside, gets the status and, on its first activation, the approval time |
| AgentSigner.Signer.Sign | internal/hypertrader/agent_signer.go:139-189 | a legal run; by case the first reason not to sign, as the policy lists and limits say, or a signature over the first action given, for the latest active wallet of the caller with the next nonce; a failure takes no nonce |
| SessionRuns.HashesStayApart | internal/identity/store.go:63-109 | over every interleaving of logins, refreshes and logouts installed, pending and retired token hashes are disjoint and distinct sessions have distinct hashes |
| SessionRuns.RetiredNeverFound | internal/identity/store.go:85-97 | a hash that a rotation took out of its session is never found again |
| SessionRuns.PresentedTokenUsedUp | internal/identity/service.go:124-150 | once a refresh has succeeded the token it presented finds no session any more, whatever runs in between |
| SessionRuns.RevokedNeverFound | internal/identity/service.go:152-163 | once a session is revoked no find returns it, for any token at any time, even when a rotation that found it earlier lands later |
| SessionRuns.GrantedOnlyWhileGood | internal/identity/service.go:124-150 | over every interleaving no refresh is granted unless it found its session stored with the presented token, unrevoked, and not expired at its own clock reading |
| SessionRuns.ExclusiveRefreshesSingleUse | internal/identity/service.go:124-150 | while running refreshes hold different tokens, of one session or several, no refresh token is granted twice |
| SessionRuns.DoubleGrantIff | internal/identity/service.go:130-149 | from every reachable state without a double grant, the calls already running can grant a token twice if and only if two refreshes hold the same token or one holds a token that was granted |
| SessionRuns.RacingRefreshesBothGranted | internal/identity/service.go:130-149 | with overlap, from every state where a token finds its session, two refreshes can both succeed with it, and the later retires the token the earlier handed out |
| IdentityService.MemoryStore.FindActiveSessionByRefreshHash | internal/identity/store.go:70-83 | returns a stored session with the hash, unrevoked, with its expiry later than the given time; finds none only if no session has the hash or one that has it is revoked or expired |
| Sessions.FindsLive | internal/identity/store.go:70-83 | a find returns exactly the stored sessions with the hash that are unrevoked and expire later |
| IdentityService.MemoryStore.RotateSession | internal/identity/store.go:85-97 | replaces hash and expiry of exactly one session and keeps its revocation |
| IdentityService.MemoryStore.RevokeSession | internal/identity/store.go:99-109 | revokes exactly one session |
| IdentityService.Service.IssueDevLogin | internal/identity/service.go:88-122 | a legal run; stores one new session with the request's cleaned-up fields; its token finds it at exactly the times before its expiry |
| IdentityService.Service.Refresh | internal/identity/service.go:124-150 | a legal run; succeeds if and only if an unrevoked and unexpired session has the presented token and a token could be drawn, and each error is an if and only if; hash, expiry and rotation time of that session are replaced, and the new token finds it at exactly the times before the new expiry |
| IdentityService.Service.Logout | internal/identity/service.go:152-163 | a legal run; revokes the unrevoked and unexpired session that has the token, if there is one, and no other; afterwards nobody finds a session with the token from that time on; an unknown token is no error |
| SpotRuns.SameRequestSameOrder | internal/trading/service.go:108-157 | over every interleaving at most one order is stored per user and non-empty client request id, and all calls that succeed with the pair get the same order id |
| SpotRuns.StoredAmountsBounded | internal/trading/service.go:132-151 | every stored order carries the amounts of a quote for its input and slippage, within the bounds of QuoteBounds |
| SpotRuns.OrdersOnlyEvolve | internal/trading/store.go:115-131 | status updates change nothing but status, hash, failure code and times; a fill time stays, and an order that becomes confirmed has one |
| SpotService.MemoryStore.CreateOrder | internal/trading/store.go:55-70 | returns an order of the same user and request if one is stored and changes nothing; otherwise adds the order |
| SpotService.MemoryStore.FindOrderByClientRequestID | internal/trading/store.go:82-91 | finds a stored order of the user and request if and only if there is one |
| SpotService.MemoryStore.UpdateOrderStatus | internal/trading/store.go:115-131 | changes exactly the named order |
| SpotService.Service.QuoteFor | internal/trading/service.go:26-83 | prices the request and stores exactly one quote with the request's cleaned-up fields that expires 30 seconds later, or fails and stores none |
| SpotService.Service.CreateOrder | internal/trading/service.go:85-158 | a legal run; each refusal is an if and only if on the request; a repeated request gets its earlier order and stores nothing; otherwise one pending order with exactly the request's terms and bounded amounts is stored, if and only if the request can be priced |
| SpotService.Service.UpdateOrderStatus | internal/trading/service.go:180-203 | a legal run; each error is an if and only if; only the named order changes, and of it exactly status, hash, failure code and times, each given |

## Left out

- HTTP handlers, GraphQL facades, the gateway, the MQTT client, websocket dialling and reconnect timers, configuration and migrations: plumbing around what is modelled.
- The Postgres stores, except the status CASE and the nonce upsert. Their order matching differs from the in-memory one when an order has no address, so no equivalence of the stores is claimed.
- JWT, HMAC, SHA-256 and random generation: tokens and ids are a fresh supply and hashing is injective.
- `big.Rat` syntax beyond plain decimals (exponents, fractions, base prefixes, underscores), and the floating-point helpers.
- Letter case outside ASCII, and strings that are not valid UTF-8.
- The width of int64: sequence numbers, nonces and milliseconds are unbounded integers.
- Payloads: raw JSON decoding, the contents of audit events and of provider requests, the route snapshot's own fields. `mergePayload` updates its map in place and may share it with an earlier copy of the order; here payload maps are values.
- The `vaultAddress` and `expiresAfter` fields of a signed payload and the approval payload of a new wallet: copied from the input. A signed action is a flat map from field names to strings.
- Clock readings inside one critical section: the code reads the clock for each order it updates, the model once per call of the store.
- A refresh or logout passes its one clock reading on to its write; in the session protocol the reading of the write is free, so the theorems cover more.
- OrderService.Service.SyncOrderStatus: one clock reading serves both the fallback for a missing report time and the update time.
- Optional collaborators: the bridge is modelled with a store and a provider present, the agent signer as enabled; the order service sees a disabled signer as one answer of its signing parameter.
- Event type names with outer spaces: known types are constructors of a datatype, so only custom names are trimmed.
- The order of `Topics` listings, and the order of fills with equal times.
- Open-order and account snapshots, order listings, leverage updates, symbols, preferences, address groups, smart money, wallets, market data, network fees and nonce challenges: map updates with nothing to relate across calls.
- OrderTerminal.TerminalAbsorbs: restricted to runs without overlap on one order and to provider statuses that normalise to submitted, filled, cancelled or failed, because the code does not promise more; OrderTerminal.TerminalForeverIff and OrderTerminal.TerminalKeptIff say exactly what holds beyond that.

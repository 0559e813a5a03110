// The in-memory store of the futures service. Each method is one critical section.
module HyperStore {
  import opened Results
  import opened Clock
  import opened Text
  import opened OrderStatus
  import opened Orders
  import opened Fills
  import opened Nonces
  import opened Agents

  datatype StoreError = NotFound

  // The zero wallet.
  const NO_WALLET :=
    Wallet("", "", "", "", "", "", "", Policy([], [], 0), ZERO_TIME, ZERO_TIME, None)

  method MatchReport(order: Order, input: StatusInput, report: StatusReport) returns (matches: bool)
    ensures matches == Matches(order, input, report)
    ensures matches <==> !OtherOwner(order, input.userAddress, input.userId) && Names(report, order)
  {
    hide EqualFold;
    if input.userAddress != "" && order.userAddress != "" && !EqualFold(order.userAddress, input.userAddress) {
      return false;
    }
    if input.userId != "" && order.userId != "" && order.userId != input.userId {
      return false;
    }
    matches := false;
    if report.providerOrderId != "" && order.providerOrderId == report.providerOrderId {
      matches := true;
    }
    if report.cloid != "" && order.cloid == report.cloid {
      matches := true;
    }
  }

  method ApplyReport(order: Order, report: StatusReport, next: string, now: Time) returns (updated: Order)
    requires next == Normalize(report.status)
    ensures updated == Reported(order, report, now)
    ensures Evolves(order, updated) && (Sound(order) ==> Sound(updated))
  {
    hide MergeSynced;
    hide Normalize;
    hide Sound;
    if Sound(order) {
      ReportSound(order, report, now);
    }
    updated := order.(status := MergeSynced(order.status, next));
    if updated.status == CANCELLED && updated.cancelledAt.None? {
      updated := updated.(cancelledAt := Some(now));
    }
    updated := updated.(responsePayload := updated.responsePayload + report.payload);
    updated := updated.(updatedAt := now);
  }

  lemma CollectNone(owned: UserFills)
    ensures Collected([], owned, owned.Keys - owned.Keys)
  {
  }

  class MemoryStore {
    var orders: OrderMap
    var fills: FillBook
    var agentWallets: WalletMap
    var agentNonces: NonceMap

    constructor ()
      ensures orders == map[] && fills == map[] && agentWallets == map[] && agentNonces == map[]
    {
      orders, fills, agentWallets, agentNonces := map[], map[], map[], map[];
    }

    // A duplicate request gets a stored order back, whichever matching one is met first.
    method CreateOrder(order: Order, freshId: string, now: Time) returns (created: Order)
      modifies this`orders
      ensures orders == AfterCreate(old(orders), order, freshId, now)
      ensures CreateReturns(old(orders), order, freshId, now, created)
    {
      hide SameOwner;
      if order.clientRequestId != "" {
        var left := orders.Keys;
        while left != {}
          invariant left <= orders.Keys
          invariant forall id | id in orders.Keys - left :: !Duplicate(orders[id], order)
        {
          var id :| id in left;
          var existing := orders[id];
          if existing.clientRequestId == order.clientRequestId && SameOwner(existing, order) {
            assert Duplicate(orders[id], order);
            return existing;
          }
          left := left - {id};
        }
      }
      created := order;
      if created.id == "" {
        created := created.(id := freshId);
      }
      if created.status == "" {
        created := created.(status := PENDING);
      }
      if created.createdAt == ZERO_TIME {
        created := created.(createdAt := now);
      }
      created := created.(updatedAt := now);
      orders := orders[created.id := created];
    }

    method UpdateOrder(patch: Patch, now: Time) returns (updated: Result<Order, StoreError>)
      modifies this`orders
      ensures orders == AfterUpdate(old(orders), patch, now)
      ensures updated == if patch.id in old(orders) then Ok(Patched(old(orders)[patch.id], patch, now))
                         else Err(NotFound)
    {
      hide FirstNonEmpty;
      if patch.id !in orders {
        return Err(NotFound);
      }
      var existing := orders[patch.id];
      existing := existing.(status := FirstNonEmpty(patch.status, existing.status));
      existing := existing.(provider := FirstNonEmpty(patch.provider, existing.provider));
      existing := existing.(providerOrderId := FirstNonEmpty(patch.providerOrderId, existing.providerOrderId));
      existing := existing.(responsePayload := existing.responsePayload + patch.responsePayload);
      if patch.submittedAt.Some? {
        existing := existing.(submittedAt := patch.submittedAt);
      }
      if patch.cancelledAt.Some? {
        existing := existing.(cancelledAt := patch.cancelledAt);
      }
      existing := existing.(updatedAt := now);
      orders := orders[patch.id := existing];
      updated := Ok(existing);
    }

    method GetOrder(id: string) returns (order: Result<Order, StoreError>)
      ensures order == if id in orders then Ok(orders[id]) else Err(NotFound)
    {
      order := if id in orders then Ok(orders[id]) else Err(NotFound);
    }

    // Every matching order is updated, in any order, and no other.
    method UpdateOrderStatusByProvider(input: StatusInput, report: StatusReport, now: Time)
      modifies this`orders
      ensures orders == AfterReport(old(orders), input, report, now)
      ensures ReportLanded(old(orders), orders, input.userAddress, input.userId, report, now)
    {
      ReportLands(orders, input, report, now);
      hide *;
      ghost var after := AfterReport(orders, input, report, now);
      AfterReportKeys(orders, input, report, now);
      var next := Normalize(report.status);
      var left := orders.Keys;
      while left != {}
        invariant left <= orders.Keys == old(orders).Keys
        invariant forall id | id in left :: orders[id] == old(orders)[id]
        invariant forall id | id in orders.Keys - left :: orders[id] == after[id]
      {
        var id :| id in left;
        AfterReportAt(old(orders), id, input, report, now);
        var order := orders[id];
        left := left - {id};
        var matches := MatchReport(order, input, report);
        if matches {
          order := ApplyReport(order, report, next, now);
          orders := orders[id := order];
        }
      }
    }

    method AppendFills(address: string, batch: seq<Fill>)
      modifies this`fills
      ensures fills == AfterAppend(old(fills), address, batch)
      ensures Added(old(fills), fills, address, batch)
      ensures BookKeyed(old(fills)) ==> BookKeyed(fills)
    {
      AppendAdds(fills, address, batch);
      hide Added;
      hide FillKey;
      hide OwnerKey;
      if BookKeyed(fills) {
        AppendKeyed(fills, address, batch);
      }
      var key := OwnerKey(address);
      if key !in fills {
        fills := fills[key := map[]];
      }
      for i := 0 to |batch|
        invariant key in fills
        invariant fills == old(fills)[key := Put(Of(old(fills), key), batch[..i])]
      {
        assert batch[..i + 1] == batch[..i] + [batch[i]];
        PutPut(Of(old(fills), key), batch[..i], [batch[i]]);
        PutOne(fills[key], batch[i]);
        fills := fills[key := fills[key][FillKey(batch[i]) := batch[i]]];
      }
      assert batch[..|batch|] == batch;
    }

    method ListFills(address: string, limit: int) returns (out: seq<Fill>)
      requires BookKeyed(fills)
      ensures NewestOf(out, Of(fills, ToLower(TrimSpace(address))), if 1 <= limit <= 2000 then limit else 100)
    {
      OwnerKeyIs(address);
      hide TrimSpace;
      hide FillKey;
      hide OwnerKey;
      hide NewestOf;
      hide Collected;
      var k := if limit <= 0 || limit > MAX_FILLS then DEFAULT_FILLS else limit;
      var owned := if OwnerKey(address) in fills then fills[OwnerKey(address)] else map[];
      out := [];
      var left := owned.Keys;
      CollectNone(owned);
      while left != {}
        invariant left <= owned.Keys
        invariant Collected(out, owned, owned.Keys - left)
      {
        var key :| key in left;
        CollectOne(out, owned, owned.Keys - left, key);
        out := out + [owned[key]];
        assert owned.Keys - left + {key} == owned.Keys - (left - {key});
        left := left - {key};
      }
      assert owned.Keys - {} == owned.Keys;
      CollectSorted(out, owned, owned.Keys);
      out := SortNewest(out);
      CutNewest(out, owned, k);
      if |out| > k {
        out := out[..k];
      }
    }

    method SaveAgentWallet(wallet: Wallet, freshId: string, now: Time) returns (saved: Wallet)
      modifies this`agentWallets
      ensures agentWallets == AfterSave(old(agentWallets), wallet, freshId, now)
      ensures saved == Saved(wallet, freshId, now)
    {
      hide WalletKey;
      saved := wallet;
      if saved.id == "" {
        saved := saved.(id := freshId);
      }
      if saved.createdAt == ZERO_TIME {
        saved := saved.(createdAt := now);
      }
      saved := saved.(updatedAt := now);
      if saved.status == "" {
        saved := saved.(status := PENDING_APPROVAL);
      }
      if saved.policy.maxLeverage == 0 {
        saved := saved.(policy := saved.policy.(maxLeverage := DEFAULT_LEVERAGE));
      }
      agentWallets := agentWallets[WalletKey(saved.userAddress, saved.agentAddress) := saved];
    }

    // The latest active wallet; NotFound exactly when the user has none. The zero wallet,
    // with its blank id, stands for "none so far".
    method GetActiveAgentWallet(user: string) returns (found: Result<Wallet, StoreError>)
      requires forall k | k in agentWallets :: agentWallets[k].id != ""
      ensures found.Ok? ==> LatestActive(agentWallets, user, found.value)
      ensures found.Err? <==> forall k | k in agentWallets :: !ActiveFor(agentWallets[k], user)
    {
      hide ActiveFor;
      var latest := NO_WALLET;
      var left := agentWallets.Keys;
      while left != {}
        invariant left <= agentWallets.Keys
        invariant latest.id == "" ==> latest == NO_WALLET
        invariant latest.id == "" ==>
                    forall k | k in agentWallets.Keys - left :: !ActiveFor(agentWallets[k], user)
        invariant latest.id != "" ==>
                    exists k | k in agentWallets :: agentWallets[k] == latest && ActiveFor(latest, user)
        invariant latest.id != "" ==>
                    forall k | k in agentWallets.Keys - left && ActiveFor(agentWallets[k], user) ::
                      agentWallets[k].updatedAt <= latest.updatedAt
      {
        var k :| k in left;
        var wallet := agentWallets[k];
        left := left - {k};
        if !ActiveFor(wallet, user) {
          continue;
        }
        if latest.id == "" || wallet.updatedAt > latest.updatedAt {
          latest := wallet;
        }
      }
      found := if latest.id == "" then Err(NotFound) else Ok(latest);
    }

    method UpdateAgentWalletStatus(user: string, agent: string, status: string, now: Time)
      returns (updated: Result<Wallet, StoreError>)
      modifies this`agentWallets
      ensures agentWallets == AfterStatus(old(agentWallets), user, agent, status, now)
      ensures var key := WalletKey(user, agent);
              updated == if key in old(agentWallets) then Ok(Restatused(old(agentWallets)[key], status, now))
                         else Err(NotFound)
    {
      hide WalletKey;
      hide TrimSpace;
      var key := WalletKey(user, agent);
      if key !in agentWallets {
        return Err(NotFound);
      }
      var wallet := agentWallets[key].(status := TrimSpace(status));
      if wallet.status == "" {
        wallet := wallet.(status := ACTIVE);
      }
      wallet := wallet.(updatedAt := now);
      if wallet.status == ACTIVE && wallet.approvedAt.None? {
        wallet := wallet.(approvedAt := Some(now));
      }
      agentWallets := agentWallets[key := wallet];
      updated := Ok(wallet);
    }

    method NextAgentNonce(agent: string, at: int) returns (nonce: int)
      modifies this`agentNonces
      ensures agentNonces == AfterNonce(old(agentNonces), agent, at)
      ensures nonce == NextNonce(LastNonce(old(agentNonces), AgentKey(agent)), at)
      ensures var owner := ToLower(TrimSpace(agent));
              var last := if owner in old(agentNonces) then old(agentNonces)[owner] else 0;
              && nonce == (if at <= last then last + 1 else at) && agentNonces == old(agentNonces)[owner := nonce]
    {
      assert AgentKey(agent) == ToLower(TrimSpace(agent));
      hide TrimSpace;
      hide ToLower;
      hide AgentKey;
      var key := AgentKey(agent);
      nonce := at;
      var last := if key in agentNonces then agentNonces[key] else 0;
      if nonce <= last {
        nonce := last + 1;
      }
      agentNonces := agentNonces[key := nonce];
    }
  }
}

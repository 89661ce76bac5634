/**
 * How the requests that reach the admin application and the creator pool
 * (contracts/utility.py: set_admin_local_txn, increase_asset_pool_creator,
 * increase_algo_pool_creator) are served by the programs they are
 * addressed to.  An inner group runs the callee's approval program on its
 * application call, with the submitting application as
 * Global.caller_app_id.
 */
module PoolDelivery {
  import opened Avm
  import opened Constants
  import opened Checkers
  import opened Utility
  import Admin
  import CreatorPool

  /** The callee's view of transaction i of an inner group submitted by application `caller`. */
  function InnerGroupCall(g: seq<Txn>, i: nat, caller: U64, now: U64, ledger: Ledger): (d: Call)
    requires i < |g|
    ensures d.Current() == g[i] && d.group == g && d.callerApp == caller && d.ledger == ledger
  {
    CallContext(g, i, caller, now, ledger)
  }

  // ---------------------------------------------------------------- the creator counter request

  /**
   * As written, the admin program routes the counter update that a pool
   * withdrawal submits to change_ownership: it is rejected unless the pool's
   * own address is the platform OWNER, and then it hands OWNER to the
   * creator instead of storing the counter.
   */
  lemma CounterRequestRunsChangeOwnership(c: Call, adminId: U64, s: Address, name: Value, next: U64,
                                          adminSt: AppState, now: U64)
    requires adminId != 0
    ensures var d := InnerGroupCall([SetAdminLocalCall(c, adminId, s, name, Int(next), Int(1))], 0, c.Current().appId, now, c.ledger);
      var pool := SelfAddress(c);
      Admin.Route(d) == Some(Admin.ChangeOwnership) &&
      Admin.Approval(adminSt, d) ==
        (if Admin.IsOwner(adminSt, pool) && pool != s
         then Some(Step(adminSt.(global := adminSt.global[OWNER := Bytes(s)]), []))
         else None)
  {
  }

  /**
   * Under the intended dispatch the same request reaches set_local, which
   * stores the creator's new counter, once the admin registers the pool
   * under CREATOR_POOL and the creator has opted in to the admin program;
   * otherwise it is rejected.
   */
  lemma IntendedCounterRequestStored(c: Call, adminId: U64, s: Address, name: Value, next: U64,
                                     adminSt: AppState, now: U64)
    requires adminId != 0
    ensures var d := InnerGroupCall([SetAdminLocalCall(c, adminId, s, name, Int(next), Int(1))], 0, c.Current().appId, now, c.ledger);
      Admin.RouteIntended(d) == Some(Admin.SetLocal) &&
      Admin.ApprovalIntended(adminSt, d) ==
        (if c.Current().appId != 0 && Get(adminSt.global, CREATOR_POOL) == Int(c.Current().appId) && s in adminSt.local
         then Some(Step(adminSt.(local := adminSt.local[s := adminSt.local[s][name := Int(next)]]), []))
         else None)
  {
    var d := InnerGroupCall([SetAdminLocalCall(c, adminId, s, name, Int(next), Int(1))], 0, c.Current().appId, now, c.ledger);
    Admin.IntendedSetLocalReached(d);
  }

  /** withdraw_reward: the counter request it submits second is the one above, for WITHDRAW_ALGO_COUNTER and the creator's counter plus one. */
  lemma WithdrawRewardRequestsCounter(st: AppState, c: Call)
    requires CreatorPool.WithdrawRewardSpec(st, c).Some?
    ensures var adminId := AdminIdOf(st.global).value;
      var mine := LocalEx(c.ledger, st.local, Sender(c), adminId, WITHDRAW_ALGO_COUNTER);
      mine.Int? && mine.n + 1 <= MaxUInt &&
      CreatorPool.WithdrawRewardSpec(st, c).value.outbox ==
        [[InnerPayment(c, Sender(c), Get(st.global, CreatorPool.AMOUNT_ALGO).n)],
         [SetAdminLocalCall(c, adminId, Sender(c), WITHDRAW_ALGO_COUNTER, Int(mine.n + 1), Int(1))]]
  {
  }

  // ---------------------------------------------------------------- the pool deposits

  /**
   * As written, the asset deposit's INCREASE_ASSET_POOL_REWARDS call is
   * addressed to the admin application, which has no branch for that tag:
   * the admin program rejects it, and with it the whole transfer.
   */
  lemma AssetDepositRejectedByAdmin(c: Call, global: Store, poolAddress: Address, asset: U64, amount: U64,
                                    adminSt: AppState, now: U64)
    requires IncreaseAssetPoolCreator(c, global, poolAddress, asset, amount).Some?
    requires AdminIdOf(global).value != 0
    ensures var g := IncreaseAssetPoolCreator(c, global, poolAddress, asset, amount).value;
      var d := InnerGroupCall(g, 1, c.Current().appId, now, c.ledger);
      g[1].appId == AdminIdOf(global).value && Admin.Route(d).None? && Admin.Approval(adminSt, d).None?
  {
    var g := IncreaseAssetPoolCreator(c, global, poolAddress, asset, amount).value;
    var d := InnerGroupCall(g, 1, c.Current().appId, now, c.ledger);
    FirstMatchNoneHolds(Admin.NoOpBranches(d));
  }

  /**
   * The asset deposit as evidently intended reaches the creator pool's
   * increase_asset_pool_rewards, which adds the amount to that asset's
   * pooled balance when the caller is the registered subscription module's
   * application and the sum fits; otherwise it is rejected.
   */
  lemma IntendedAssetDepositCredited(c: Call, global: Store, poolAddress: Address, asset: U64, amount: U64,
                                     poolSt: AppState, now: U64)
    requires IncreaseAssetPoolCreatorIntended(c, global, poolAddress, asset, amount).Some?
    requires var pool := GlobalEx(c.ledger, global, AdminIdOf(global).value, CREATOR_POOL).n;
      pool != 0 && c.ledger.appAddress(pool) == poolAddress
    ensures var g := IncreaseAssetPoolCreatorIntended(c, global, poolAddress, asset, amount).value;
      var d := InnerGroupCall(g, 1, c.Current().appId, now, c.ledger);
      var balance := Get(poolSt.global, CreatorPool.AssetKey(asset));
      g[1].appId == GlobalEx(c.ledger, global, AdminIdOf(global).value, CREATOR_POOL).n &&
      CreatorPool.Route(d) == Some(CreatorPool.IncreaseAssetPool) &&
      CreatorPool.Approval(poolSt, d) ==
        (if CreatorPool.FromSubscriptionModule(d, poolSt.global) && balance.Int? && balance.n + amount <= MaxUInt
         then Some(Step(poolSt.(global := poolSt.global[CreatorPool.AssetKey(asset) := Int(balance.n + amount)]), []))
         else None)
  {
    var g := IncreaseAssetPoolCreatorIntended(c, global, poolAddress, asset, amount).value;
    var d := InnerGroupCall(g, 1, c.Current().appId, now, c.ledger);
    DepositRouted(d, false);
    assert CreatorPool.Approval(poolSt, d) == CreatorPool.IncreaseAssetPoolRewardsSpec(poolSt, d);
  }

  /** A deposit group as the pool sees it: the payment or asset transfer to the pool, then a lone-tagged call from the same account. */
  lemma DepositRouted(d: Call, algo: bool)
    requires |d.group| == 2 && d.index == 1 && d.Current().appId != 0 && d.Current().onCompletion == NoOp && NoRekey(d)
    requires d.group[0].sender == d.group[1].sender
    requires algo ==> d.group[0].txnType == Payment && d.group[0].receiver == SelfAddress(d) && d.Current().args == [INCREASE_ALGO_POOL]
    requires !algo ==> d.group[0].txnType == AssetTransfer && d.group[0].assetReceiver == SelfAddress(d) &&
                       d.Current().args == [INCREASE_ASSET_POOL_REWARDS]
    ensures CreatorPool.Route(d) == Some(if algo then CreatorPool.IncreasePool else CreatorPool.IncreaseAssetPool)
  {
    FirstMatchAt(CreatorPool.NoOpBranches(d), if algo then 5 else 6);
  }

  /** The Algo deposit, as written, reaches the creator pool's increase_pool_rewards, which adds the amount to ALGO_BALANCE. */
  lemma AlgoDepositCredited(c: Call, global: Store, poolAddress: Address, amount: U64, poolSt: AppState, now: U64)
    requires IncreaseAlgoPoolCreator(c, global, poolAddress, amount).Some?
    requires var pool := GlobalEx(c.ledger, global, AdminIdOf(global).value, CREATOR_POOL).n;
      pool != 0 && c.ledger.appAddress(pool) == poolAddress
    ensures var g := IncreaseAlgoPoolCreator(c, global, poolAddress, amount).value;
      var d := InnerGroupCall(g, 1, c.Current().appId, now, c.ledger);
      var balance := Get(poolSt.global, ALGO_BALANCE);
      g[1].appId == GlobalEx(c.ledger, global, AdminIdOf(global).value, CREATOR_POOL).n &&
      CreatorPool.Route(d) == Some(CreatorPool.IncreasePool) &&
      CreatorPool.Approval(poolSt, d) ==
        (if CreatorPool.FromSubscriptionModule(d, poolSt.global) && balance.Int? && balance.n + amount <= MaxUInt
         then Some(Step(poolSt.(global := poolSt.global[ALGO_BALANCE := Int(balance.n + amount)]), []))
         else None)
  {
    var g := IncreaseAlgoPoolCreator(c, global, poolAddress, amount).value;
    var d := InnerGroupCall(g, 1, c.Current().appId, now, c.ledger);
    DepositRouted(d, true);
    assert CreatorPool.Approval(poolSt, d) == CreatorPool.IncreasePoolRewardsSpec(poolSt, d);
  }
}

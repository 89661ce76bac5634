/**
 * contracts/creator_pool/creator_pool.py: the creator pool.  Subscription
 * programs deposit part of every payment here, in Algo or in an asset; an
 * admin closes an epoch by fixing each verified creator's share (the
 * pooled balance divided by the number of verified creators) and moving
 * the epoch counter on; a verified creator whose own counter (kept by the
 * admin program) differs from the epoch counter withdraws the share, and
 * the pool asks the admin program to advance that creator's counter.
 */
module CreatorPool {
  import opened Avm
  import opened Constants
  import opened Checkers
  import opened Utility

  /** AMOUNT_ALGO: the Algo share of the current epoch. */
  const AMOUNT_ALGO: Value := Bytes("AMOUNT_ALGO")

  /** Itob(asset): the pooled balance of an asset. */
  function AssetKey(asset: U64): Value
  {
    Bytes(Itob(asset))
  }

  /** "AMOUNT_" + Itob(asset): the asset share of the current epoch. */
  function AmountKey(asset: U64): Value
  {
    Bytes("AMOUNT_" + Itob(asset))
  }

  /** WITHDRAW_ASSET_COUNTER + Itob(asset): the per-asset epoch counter the withdrawals compare with. */
  function AssetCounterKey(asset: U64): Value
  {
    Cat(WITHDRAW_ASSET_COUNTER, Itob(asset))
  }

  /** The handlers of creator_pool_approval. */
  datatype Op = Deploy | WithdrawAlgo | WithdrawAsset | CalculateAlgo | CalculateAsset
              | AssetOptin | IncreasePool | IncreaseAssetPool

  /** handle_noop: the checkers in source order. */
  function NoOpBranches(c: Call): seq<(Option<bool>, Op)>
  {
    [ (WithdrawAlgoRewardChecker(c), WithdrawAlgo),
      (WithdrawAssetRewardChecker(c), WithdrawAsset),
      (CalculateAlgoRewardsChecker(c), CalculateAlgo),
      (CalculateAssetRewardsChecker(c), CalculateAsset),
      (AssetOptinChecker(c), AssetOptin),
      (IncreasePoolRewardsChecker(c), IncreasePool),
      (IncreaseAssetPoolRewardsChecker(c), IncreaseAssetPool) ]
  }

  /** The program's Cond: creation, then ordinary calls; nothing else is approved. */
  function Route(c: Call): Option<Op>
  {
    var t := c.Current();
    if t.appId == 0 && |c.group| == 1 && NoRekey(c) then Some(Deploy)
    else if t.onCompletion == NoOp then FirstMatch(NoOpBranches(c))
    else None
  }

  // ---------------------------------------------------------------- handlers

  function DeploySpec(st: AppState, c: Call): Run
  {
    var adminId :- App(c.Current(), 1);
    Some(Step(st.(global := st.global[ADMIN_ID := Int(adminId)]), []))
  }

  /** asset_optin: an admin opts the pool in to an asset and starts its balance at 0. */
  function AssetOptinSpec(st: AppState, c: Call): Run
  {
    var asset :- Asset(c.Current(), 0);
    var _ :- Assert(AdminRole(c, st, Sender(c)));
    Some(Step(st.(global := st.global[AssetKey(asset) := Int(0)]),
              [[InnerAssetTransfer(c, SelfAddress(c), asset, 0)]]))
  }

  /**
   * The caller test of the pool increases and check_subscription_id: the
   * call comes from an application (caller id not 0) that was created by
   * the account of the application the admin program registers as
   * SUBSCRIPTION_MODULE.
   */
  predicate FromSubscriptionModule(c: Call, global: Store)
  {
    var adminId := AdminIdOf(global);
    adminId.Some? && c.callerApp != 0 &&
    var sub := AsUInt(GlobalEx(c.ledger, global, adminId.value, SUBSCRIPTION_MODULE));
    sub.Some? && c.ledger.appCreator(c.callerApp) == AppAddressEx(c, sub.value)
  }

  /** increase_asset_pool_rewards: the asset sent in the first leg is added to that asset's pooled balance. */
  function IncreaseAssetPoolRewardsSpec(st: AppState, c: Call): Run
  {
    var g0 :- c.Gtxn(0);
    var _ :- Assert(FromSubscriptionModule(c, st.global));
    var balance :- AsUInt(Get(st.global, AssetKey(g0.xferAsset)));
    var total :- Add(balance, g0.assetAmount);
    Some(Step(st.(global := st.global[AssetKey(g0.xferAsset) := Int(total)]), []))
  }

  /** increase_pool_rewards: the Algo sent in the first leg is added to ALGO_BALANCE. */
  function IncreasePoolRewardsSpec(st: AppState, c: Call): Run
  {
    var g0 :- c.Gtxn(0);
    var _ :- Assert(FromSubscriptionModule(c, st.global));
    var balance :- AsUInt(Get(st.global, ALGO_BALANCE));
    var total :- Add(balance, g0.amount);
    Some(Step(st.(global := st.global[ALGO_BALANCE := Int(total)]), []))
  }

  /** _calculate_amount: each verified creator's share; no verified creator aborts the division. */
  function Share(verified: U64, amount: U64): Option<U64>
  {
    Div(amount, verified)
  }

  /**
   * calculate_asset_rewards as written: the share goes to AMOUNT_<asset>,
   * and the plain WITHDRAW_ASSET_COUNTER key receives the per-asset counter
   * plus one.
   */
  function CalculateAssetRewardsSpec(st: AppState, c: Call): Run
  {
    var asset :- Asset(c.Current(), 0);
    var adminId :- AdminIdOf(st.global);
    var _ :- Assert(AdminRole(c, st, Sender(c)));
    var verified :- AsUInt(GlobalEx(c.ledger, st.global, adminId, VERIFIED_CREATORS));
    var balance :- AsUInt(Get(st.global, AssetKey(asset)));
    var counter :- AsUInt(Get(st.global, AssetCounterKey(asset)));
    var share :- Share(verified, balance);
    var next :- Add(counter, 1);
    Some(Step(st.(global := st.global[AmountKey(asset) := Int(share)][WITHDRAW_ASSET_COUNTER := Int(next)]), []))
  }

  /** calculate_asset_rewards as evidently intended: the per-asset counter it reads is the one it advances. */
  function CalculateAssetRewardsIntendedSpec(st: AppState, c: Call): Run
  {
    var asset :- Asset(c.Current(), 0);
    var adminId :- AdminIdOf(st.global);
    var _ :- Assert(AdminRole(c, st, Sender(c)));
    var verified :- AsUInt(GlobalEx(c.ledger, st.global, adminId, VERIFIED_CREATORS));
    var balance :- AsUInt(Get(st.global, AssetKey(asset)));
    var counter :- AsUInt(Get(st.global, AssetCounterKey(asset)));
    var share :- Share(verified, balance);
    var next :- Add(counter, 1);
    Some(Step(st.(global := st.global[AmountKey(asset) := Int(share)][AssetCounterKey(asset) := Int(next)]), []))
  }

  /** calculate_algo_rewards: the Algo share goes to AMOUNT_ALGO and the epoch counter moves on by one. */
  function CalculateAlgoRewardsSpec(st: AppState, c: Call): Run
  {
    var adminId :- AdminIdOf(st.global);
    var _ :- Assert(AdminRole(c, st, Sender(c)));
    var verified :- AsUInt(GlobalEx(c.ledger, st.global, adminId, VERIFIED_CREATORS));
    var balance :- AsUInt(Get(st.global, ALGO_BALANCE));
    var counter :- AsUInt(Get(st.global, WITHDRAW_ALGO_COUNTER));
    var share :- Share(verified, balance);
    var next :- Add(counter, 1);
    Some(Step(st.(global := st.global[AMOUNT_ALGO := Int(share)][WITHDRAW_ALGO_COUNTER := Int(next)]), []))
  }

  /** calculate_algo_rewards as evidently intended: the shares handed out leave the pooled balance, which keeps only the undivided remainder. */
  function CalculateAlgoRewardsIntendedSpec(st: AppState, c: Call): Run
  {
    var adminId :- AdminIdOf(st.global);
    var _ :- Assert(AdminRole(c, st, Sender(c)));
    var verified :- AsUInt(GlobalEx(c.ledger, st.global, adminId, VERIFIED_CREATORS));
    var balance :- AsUInt(Get(st.global, ALGO_BALANCE));
    var counter :- AsUInt(Get(st.global, WITHDRAW_ALGO_COUNTER));
    var share :- Share(verified, balance);
    var next :- Add(counter, 1);
    Some(Step(st.(global := st.global[AMOUNT_ALGO := Int(share)][WITHDRAW_ALGO_COUNTER := Int(next)]
                                     [ALGO_BALANCE := Int(balance % verified)]), []))
  }

  /**
   * withdraw_asset_reward as written: the checks and the share transfer of
   * WithdrawAssetRewardIntendedSpec, but set_admin_local_txn is handed the
   * uint Int(1) as its flag and places it among the application arguments,
   * which hold byte strings only; itxn_field aborts the run, so no call
   * that reaches the transfer is approved.
   */
  function WithdrawAssetRewardSpec(st: AppState, c: Call): Run
  {
    var _ :- WithdrawAssetRewardIntendedSpec(st, c);
    None
  }

  /**
   * withdraw_asset_reward with the flag passed as Itob(Int(1)), as
   * withdraw_reward passes it: a verified creator whose per-asset counter
   * in the admin program differs from the pool's receives AMOUNT_<asset>,
   * and the pool asks the admin program to set that counter to its old
   * value plus one.
   */
  function WithdrawAssetRewardIntendedSpec(st: AppState, c: Call): Run
  {
    var s := Sender(c);
    var asset :- Asset(c.Current(), 0);
    var adminId :- AdminIdOf(st.global);
    var amount :- AsUInt(Get(st.global, AmountKey(asset)));
    var counter :- AsUInt(Get(st.global, AssetCounterKey(asset)));
    var _ :- Assert(LocalEx(c.ledger, st.local, s, adminId, STATUS) == Const(VERIFIED_STATUS));
    var mine :- AsUInt(LocalEx(c.ledger, st.local, s, adminId, AssetCounterKey(asset)));
    var _ :- Assert(mine != counter);
    var next :- Add(mine, 1);
    Some(Step(st, [[InnerAssetTransfer(c, s, asset, amount)],
                   [SetAdminLocalCall(c, adminId, s, AssetCounterKey(asset), Int(next), Int(1))]]))
  }

  /** withdraw_reward: the Algo counterpart, paying AMOUNT_ALGO against WITHDRAW_ALGO_COUNTER. */
  function WithdrawRewardSpec(st: AppState, c: Call): Run
  {
    var s := Sender(c);
    var adminId :- AdminIdOf(st.global);
    var amount :- AsUInt(Get(st.global, AMOUNT_ALGO));
    var counter :- AsUInt(Get(st.global, WITHDRAW_ALGO_COUNTER));
    var _ :- Assert(LocalEx(c.ledger, st.local, s, adminId, STATUS) == Const(VERIFIED_STATUS));
    var mine :- AsUInt(LocalEx(c.ledger, st.local, s, adminId, WITHDRAW_ALGO_COUNTER));
    var _ :- Assert(mine != counter);
    var next :- Add(mine, 1);
    Some(Step(st, [[InnerPayment(c, s, amount)],
                   [SetAdminLocalCall(c, adminId, s, WITHDRAW_ALGO_COUNTER, Int(next), Int(1))]]))
  }

  function Perform(op: Op, st: AppState, c: Call): Run
  {
    match op
    case Deploy => DeploySpec(st, c)
    case WithdrawAlgo => WithdrawRewardSpec(st, c)
    case WithdrawAsset => WithdrawAssetRewardSpec(st, c)
    case CalculateAlgo => CalculateAlgoRewardsSpec(st, c)
    case CalculateAsset => CalculateAssetRewardsSpec(st, c)
    case AssetOptin => AssetOptinSpec(st, c)
    case IncreasePool => IncreasePoolRewardsSpec(st, c)
    case IncreaseAssetPool => IncreaseAssetPoolRewardsSpec(st, c)
  }

  /** creator_pool_approval. */
  function Approval(st: AppState, c: Call): Run
  {
    var op :- Route(c);
    Perform(op, st, c)
  }

  // ---------------------------------------------------------------- the program object

  /** The pool keeps only global state. */
  class CreatorPoolApp {
    var global: Store

    constructor ()
      ensures global == map[]
    {
      global := map[];
    }

    function State(): AppState
      reads this
    {
      AppState(global, map[])
    }

    method Deploy(c: Call) returns (r: Outcome)
      modifies this
      ensures Commits(old(State()), DeploySpec(old(State()), c), State(), r)
    {
      var t := c.Current();
      if |t.apps| < 1 {
        return Reject;
      }
      global := global[ADMIN_ID := Int(t.apps[0])];
      return Accept([]);
    }

    method AssetOptin(c: Call) returns (r: Outcome)
      modifies this
      ensures Commits(old(State()), AssetOptinSpec(old(State()), c), State(), r)
    {
      var t := c.Current();
      if |t.assets| < 1 || !AdminRole(c, State(), Sender(c)) {
        return Reject;
      }
      var outbox := [[InnerAssetTransfer(c, SelfAddress(c), t.assets[0], 0)]];
      global := global[AssetKey(t.assets[0]) := Int(0)];
      return Accept(outbox);
    }

    method IncreaseAssetPoolRewards(c: Call) returns (r: Outcome)
      modifies this
      ensures Commits(old(State()), IncreaseAssetPoolRewardsSpec(old(State()), c), State(), r)
    {
      if |c.group| < 1 || !FromSubscriptionModule(c, global) {
        return Reject;
      }
      var g0 := c.group[0];
      var balance := Get(global, AssetKey(g0.xferAsset));
      if !balance.Int? || balance.n + g0.assetAmount > MaxUInt {
        return Reject;
      }
      global := global[AssetKey(g0.xferAsset) := Int(balance.n + g0.assetAmount)];
      return Accept([]);
    }

    method IncreasePoolRewards(c: Call) returns (r: Outcome)
      modifies this
      ensures Commits(old(State()), IncreasePoolRewardsSpec(old(State()), c), State(), r)
    {
      if |c.group| < 1 || !FromSubscriptionModule(c, global) {
        return Reject;
      }
      var balance := Get(global, ALGO_BALANCE);
      if !balance.Int? || balance.n + c.group[0].amount > MaxUInt {
        return Reject;
      }
      global := global[ALGO_BALANCE := Int(balance.n + c.group[0].amount)];
      return Accept([]);
    }

    method CalculateAssetRewards(c: Call) returns (r: Outcome)
      modifies this
      ensures Commits(old(State()), CalculateAssetRewardsSpec(old(State()), c), State(), r)
    {
      var t := c.Current();
      var adminId := AdminIdOf(global);
      if |t.assets| < 1 || adminId.None? || !AdminRole(c, State(), Sender(c)) {
        return Reject;
      }
      var asset := t.assets[0];
      var verified := GlobalEx(c.ledger, global, adminId.value, VERIFIED_CREATORS);
      var balance := Get(global, AssetKey(asset));
      var counter := Get(global, AssetCounterKey(asset));
      if !verified.Int? || !balance.Int? || !counter.Int? || verified.n == 0 || counter.n == MaxUInt {
        return Reject;
      }
      global := global[AmountKey(asset) := Int(balance.n / verified.n)];
      global := global[WITHDRAW_ASSET_COUNTER := Int(counter.n + 1)];
      return Accept([]);
    }

    method CalculateAlgoRewards(c: Call) returns (r: Outcome)
      modifies this
      ensures Commits(old(State()), CalculateAlgoRewardsSpec(old(State()), c), State(), r)
    {
      var adminId := AdminIdOf(global);
      if adminId.None? || !AdminRole(c, State(), Sender(c)) {
        return Reject;
      }
      var verified := GlobalEx(c.ledger, global, adminId.value, VERIFIED_CREATORS);
      var balance := Get(global, ALGO_BALANCE);
      var counter := Get(global, WITHDRAW_ALGO_COUNTER);
      if !verified.Int? || !balance.Int? || !counter.Int? || verified.n == 0 || counter.n == MaxUInt {
        return Reject;
      }
      global := global[AMOUNT_ALGO := Int(balance.n / verified.n)];
      global := global[WITHDRAW_ALGO_COUNTER := Int(counter.n + 1)];
      return Accept([]);
    }

    /**
     * Every path aborts: either one of the checks fails, or the counter
     * update is built with the uint 1 among its application arguments,
     * which itxn_field refuses.
     */
    method WithdrawAssetReward(c: Call) returns (r: Outcome)
      ensures r == OutcomeOf(WithdrawAssetRewardSpec(State(), c))
    {
      return Reject;
    }

    method WithdrawReward(c: Call) returns (r: Outcome)
      ensures r == OutcomeOf(WithdrawRewardSpec(State(), c))
    {
      var s := Sender(c);
      var adminId := AdminIdOf(global);
      if adminId.None? {
        return Reject;
      }
      var amount := Get(global, AMOUNT_ALGO);
      var counter := Get(global, WITHDRAW_ALGO_COUNTER);
      var mine := LocalEx(c.ledger, State().local, s, adminId.value, WITHDRAW_ALGO_COUNTER);
      if !amount.Int? || !counter.Int? || LocalEx(c.ledger, State().local, s, adminId.value, STATUS) != Const(VERIFIED_STATUS) {
        return Reject;
      }
      if !mine.Int? || mine.n == counter.n || mine.n == MaxUInt {
        return Reject;
      }
      var outbox := [[InnerPayment(c, s, amount.n)]];
      outbox := outbox + [[SetAdminLocalCall(c, adminId.value, s, WITHDRAW_ALGO_COUNTER, Int(mine.n + 1), Int(1))]];
      return Accept(outbox);
    }

    /** creator_pool_approval: route the call, then run the selected handler. */
    method Approve(c: Call) returns (r: Outcome)
      modifies this
      ensures Commits(old(State()), Approval(old(State()), c), State(), r)
    {
      var op := Route(c);
      if op.None? {
        return Reject;
      }
      match op.value {
        case Deploy => r := Deploy(c);
        case WithdrawAlgo => r := WithdrawReward(c);
        case WithdrawAsset => r := WithdrawAssetReward(c);
        case CalculateAlgo => r := CalculateAlgoRewards(c);
        case CalculateAsset => r := CalculateAssetRewards(c);
        case AssetOptin => r := AssetOptin(c);
        case IncreasePool => r := IncreasePoolRewards(c);
        case IncreaseAssetPool => r := IncreaseAssetPoolRewards(c);
      }
    }
  }

  // ---------------------------------------------------------------- properties

  /** The per-asset counter key is none of the keys the pool writes. */
  lemma CounterKeyDistinct(a: U64, b: U64)
    ensures AssetCounterKey(a) != AssetKey(b) && AssetCounterKey(a) != AmountKey(b)
    ensures AssetCounterKey(a) !in {WITHDRAW_ASSET_COUNTER, WITHDRAW_ALGO_COUNTER, AMOUNT_ALGO, ALGO_BALANCE, ADMIN_ID}
  {
    assert |AssetCounterKey(a).s| == 30;
  }

  /** Only an admin opts the pool in to an asset; the asset's pooled balance starts (or restarts) at 0. */
  lemma AssetOptinRecords(st: AppState, c: Call)
    ensures AssetOptinSpec(st, c).Some? <==> |c.Current().assets| >= 1 && AdminRole(c, st, Sender(c))
    ensures AssetOptinSpec(st, c).Some? ==>
      var asset := c.Current().assets[0];
      AssetOptinSpec(st, c).value ==
        Step(st.(global := st.global[AssetKey(asset) := Int(0)]), [[InnerAssetTransfer(c, SelfAddress(c), asset, 0)]])
  {
  }

  /** A pool deposit is accepted only from an application created by the subscription module, and adds the first leg's Algo to ALGO_BALANCE and nothing else. */
  lemma IncreasePoolCredits(st: AppState, c: Call)
    requires IncreasePoolRewardsSpec(st, c).Some?
    ensures FromSubscriptionModule(c, st.global) && c.callerApp != 0
    ensures var g := IncreasePoolRewardsSpec(st, c).value.state.global;
      Get(g, ALGO_BALANCE) == Int(Get(st.global, ALGO_BALANCE).n + c.group[0].amount) &&
      forall k :: k != ALGO_BALANCE ==> Get(g, k) == Get(st.global, k)
  {
  }

  /** The asset counterpart: the first leg's asset amount is added to that asset's pooled balance and nothing else. */
  lemma IncreaseAssetPoolCredits(st: AppState, c: Call)
    requires IncreaseAssetPoolRewardsSpec(st, c).Some?
    ensures FromSubscriptionModule(c, st.global) && c.callerApp != 0
    ensures var g := IncreaseAssetPoolRewardsSpec(st, c).value.state.global;
      var key := AssetKey(c.group[0].xferAsset);
      Get(g, key) == Int(Get(st.global, key).n + c.group[0].assetAmount) &&
      forall k :: k != key ==> Get(g, k) == Get(st.global, k)
  {
  }

  /** A deposit made directly, not from another application, is refused. */
  lemma DirectDepositRefused(st: AppState, c: Call)
    requires c.callerApp == 0
    ensures IncreasePoolRewardsSpec(st, c).None? && IncreaseAssetPoolRewardsSpec(st, c).None?
  {
  }

  /**
   * An accepted Algo epoch: the sender is an admin, there is at least one
   * verified creator, AMOUNT_ALGO is the floor of ALGO_BALANCE over their
   * number, the counter moves on by one and ALGO_BALANCE stays as it was.
   */
  lemma CalculateAlgoShares(st: AppState, c: Call)
    requires CalculateAlgoRewardsSpec(st, c).Some?
    ensures var adminId := AdminIdOf(st.global).value;
      var verified := GlobalEx(c.ledger, st.global, adminId, VERIFIED_CREATORS).n;
      var balance := Get(st.global, ALGO_BALANCE).n;
      var g := CalculateAlgoRewardsSpec(st, c).value.state.global;
      AdminRole(c, st, Sender(c)) && verified > 0 &&
      Get(g, AMOUNT_ALGO) == Int(balance / verified) &&
      (balance / verified) * verified <= balance < (balance / verified + 1) * verified &&
      Get(g, WITHDRAW_ALGO_COUNTER) == Int(Get(st.global, WITHDRAW_ALGO_COUNTER).n + 1) &&
      Get(g, ALGO_BALANCE) == Get(st.global, ALGO_BALANCE)
  {
  }

  /** With no verified creator recorded, an epoch cannot be closed. */
  lemma CalculateWithoutCreatorsAborts(st: AppState, c: Call)
    requires AdminIdOf(st.global).Some? && GlobalEx(c.ledger, st.global, AdminIdOf(st.global).value, VERIFIED_CREATORS) == Int(0)
    ensures CalculateAlgoRewardsSpec(st, c).None? && CalculateAssetRewardsSpec(st, c).None?
  {
  }

  /**
   * As written, an accepted asset epoch stores the share under AMOUNT_<asset>
   * but never moves the per-asset counter: that key keeps its value, and
   * the plain WITHDRAW_ASSET_COUNTER receives it plus one.
   */
  lemma {:induction false} CalculateAssetLeavesCounter(st: AppState, c: Call)
    requires CalculateAssetRewardsSpec(st, c).Some?
    ensures var asset := c.Current().assets[0];
      var adminId := AdminIdOf(st.global).value;
      var g := CalculateAssetRewardsSpec(st, c).value.state.global;
      Get(g, AmountKey(asset)) == Int(Get(st.global, AssetKey(asset)).n / GlobalEx(c.ledger, st.global, adminId, VERIFIED_CREATORS).n) &&
      Get(g, AssetCounterKey(asset)) == Get(st.global, AssetCounterKey(asset)) &&
      Get(g, WITHDRAW_ASSET_COUNTER) == Int(Get(st.global, AssetCounterKey(asset)).n + 1)
  {
    var asset := c.Current().assets[0];
    CounterKeyDistinct(asset, asset);
  }

  /**
   * As written, a creator whose per-asset counter is 0 can never withdraw
   * an asset share, even right after an epoch has been closed for it: the
   * pool's own per-asset counter is still 0.
   */
  lemma {:induction false} AssetWithdrawRefusedAfterCalculate(st: AppState, c: Call, c': Call)
    requires |c.Current().assets| >= 1 && AssetCounterKey(c.Current().assets[0]) !in st.global
    requires CalculateAssetRewardsSpec(st, c).Some?
    requires |c'.Current().assets| >= 1 && c'.Current().assets[0] == c.Current().assets[0]
    requires LocalEx(c'.ledger, st.local, Sender(c'), AdminIdOf(st.global).value, AssetCounterKey(c.Current().assets[0])) == Int(0)
    ensures WithdrawAssetRewardIntendedSpec(CalculateAssetRewardsSpec(st, c).value.state, c').None?
  {
    CalculateAssetLeavesCounter(st, c);
  }

  /**
   * With the counter the epoch advances being the one withdrawals compare
   * with, a verified creator whose counter is 0 receives the share of the
   * epoch just closed, and the pool asks the admin program to move that
   * creator's counter to 1.
   */
  lemma {:induction false} IntendedAssetWithdrawAfterCalculate(st: AppState, c: Call, c': Call)
    requires |c.Current().assets| >= 1 && AssetCounterKey(c.Current().assets[0]) !in st.global
    requires CalculateAssetRewardsIntendedSpec(st, c).Some?
    requires |c'.Current().assets| >= 1 && c'.Current().assets[0] == c.Current().assets[0]
    requires var adminId, asset := AdminIdOf(st.global).value, c.Current().assets[0];
      LocalEx(c'.ledger, st.local, Sender(c'), adminId, STATUS) == Const(VERIFIED_STATUS) &&
      LocalEx(c'.ledger, st.local, Sender(c'), adminId, AssetCounterKey(asset)) == Int(0)
    ensures var st1 := CalculateAssetRewardsIntendedSpec(st, c).value.state;
      var adminId, asset := AdminIdOf(st.global).value, c.Current().assets[0];
      WithdrawAssetRewardIntendedSpec(st1, c').Some? &&
      WithdrawAssetRewardIntendedSpec(st1, c').value.outbox ==
        [[InnerAssetTransfer(c', Sender(c'), asset, Get(st1.global, AmountKey(asset)).n)],
         [SetAdminLocalCall(c', adminId, Sender(c'), AssetCounterKey(asset), Int(1), Int(1))]]
  {
    var asset := c.Current().assets[0];
    CounterKeyDistinct(asset, asset);
    var st1 := CalculateAssetRewardsIntendedSpec(st, c).value.state;
    assert Get(st1.global, AssetCounterKey(asset)) == Int(1);
    assert AdminIdOf(st1.global) == AdminIdOf(st.global);
    assert Get(st1.global, AmountKey(asset)).Int?;
  }

  /**
   * An accepted Algo withdrawal: the sender is a verified creator whose
   * counter differs from the epoch counter; the pool's state is unchanged
   * (the balance is not reduced), the share is paid and the admin program
   * is asked to set the creator's counter to its old value plus one.
   */
  lemma WithdrawRewardPays(st: AppState, c: Call)
    requires WithdrawRewardSpec(st, c).Some?
    ensures var adminId := AdminIdOf(st.global).value;
      var mine := LocalEx(c.ledger, st.local, Sender(c), adminId, WITHDRAW_ALGO_COUNTER);
      var res := WithdrawRewardSpec(st, c).value;
      LocalEx(c.ledger, st.local, Sender(c), adminId, STATUS) == Const(VERIFIED_STATUS) &&
      mine.Int? && mine != Get(st.global, WITHDRAW_ALGO_COUNTER) &&
      res.state == st &&
      res.outbox == [[InnerPayment(c, Sender(c), Get(st.global, AMOUNT_ALGO).n)],
                     [SetAdminLocalCall(c, adminId, Sender(c), WITHDRAW_ALGO_COUNTER, Int(mine.n + 1), Int(1))]]
  {
  }

  /** The asset counterpart of WithdrawRewardPays, for the withdrawal with its flag passed as bytes. */
  lemma IntendedAssetWithdrawPays(st: AppState, c: Call)
    requires WithdrawAssetRewardIntendedSpec(st, c).Some?
    ensures var adminId, asset := AdminIdOf(st.global).value, c.Current().assets[0];
      var mine := LocalEx(c.ledger, st.local, Sender(c), adminId, AssetCounterKey(asset));
      var res := WithdrawAssetRewardIntendedSpec(st, c).value;
      LocalEx(c.ledger, st.local, Sender(c), adminId, STATUS) == Const(VERIFIED_STATUS) &&
      mine.Int? && mine != Get(st.global, AssetCounterKey(asset)) &&
      res.state == st &&
      res.outbox == [[InnerAssetTransfer(c, Sender(c), asset, Get(st.global, AmountKey(asset)).n)],
                     [SetAdminLocalCall(c, adminId, Sender(c), AssetCounterKey(asset), Int(mine.n + 1), Int(1))]]
  {
  }

  /** As written, no asset withdrawal is ever approved: the run aborts at the latest when it builds the counter update. */
  lemma AssetWithdrawalAlwaysAborts(st: AppState, c: Call)
    ensures WithdrawAssetRewardSpec(st, c).None?
    ensures Route(c) == Some(WithdrawAsset) ==> Approval(st, c).None?
  {
  }

  /** A creator whose counter equals the epoch counter, or who is not verified, withdraws nothing. */
  lemma WithdrawRewardGate(st: AppState, c: Call)
    requires AdminIdOf(st.global).Some?
    requires var adminId := AdminIdOf(st.global).value;
      LocalEx(c.ledger, st.local, Sender(c), adminId, WITHDRAW_ALGO_COUNTER) == Get(st.global, WITHDRAW_ALGO_COUNTER) ||
      LocalEx(c.ledger, st.local, Sender(c), adminId, STATUS) != Const(VERIFIED_STATUS)
    ensures WithdrawRewardSpec(st, c).None?
  {
  }

  /**
   * As written, closing a second Algo epoch with no deposit in between
   * offers the same share again: the balance already promised is promised
   * twice.
   */
  lemma {:induction false} SecondEpochRepeatsShare(st: AppState, c: Call)
    requires CalculateAlgoRewardsSpec(st, c).Some?
    requires Get(st.global, WITHDRAW_ALGO_COUNTER).n + 2 <= MaxUInt
    ensures var st1 := CalculateAlgoRewardsSpec(st, c).value.state;
      CalculateAlgoRewardsSpec(st1, c).Some? &&
      Get(CalculateAlgoRewardsSpec(st1, c).value.state.global, AMOUNT_ALGO) == Get(st1.global, AMOUNT_ALGO) &&
      Get(st1.global, AMOUNT_ALGO) == Int(Get(st.global, ALGO_BALANCE).n / GlobalEx(c.ledger, st.global, AdminIdOf(st.global).value, VERIFIED_CREATORS).n)
  {
    CalculateAlgoShares(st, c);
  }

  /** With the shares taken out of the pool, what is promised plus what is left is exactly the old balance. */
  lemma IntendedEpochConserves(st: AppState, c: Call)
    requires CalculateAlgoRewardsIntendedSpec(st, c).Some?
    ensures var verified := GlobalEx(c.ledger, st.global, AdminIdOf(st.global).value, VERIFIED_CREATORS).n;
      var g := CalculateAlgoRewardsIntendedSpec(st, c).value.state.global;
      Get(g, AMOUNT_ALGO).Int? && Get(g, ALGO_BALANCE).Int? &&
      Get(g, ALGO_BALANCE).n + Get(g, AMOUNT_ALGO).n * verified == Get(st.global, ALGO_BALANCE).n &&
      Get(g, ALGO_BALANCE).n < verified
  {
  }

  /** An intended epoch over less than one unit per verified creator offers nothing. */
  lemma IntendedEpochOnRemainder(st: AppState, c: Call)
    requires CalculateAlgoRewardsIntendedSpec(st, c).Some?
    requires Get(st.global, ALGO_BALANCE).n < GlobalEx(c.ledger, st.global, AdminIdOf(st.global).value, VERIFIED_CREATORS).n
    ensures Get(CalculateAlgoRewardsIntendedSpec(st, c).value.state.global, AMOUNT_ALGO) == Int(0)
  {
  }

  /** With the shares taken out, a second epoch without deposits offers nothing. */
  lemma {:induction false} IntendedSecondEpochEmpty(st: AppState, c: Call)
    requires CalculateAlgoRewardsIntendedSpec(st, c).Some?
    requires Get(st.global, WITHDRAW_ALGO_COUNTER).n + 2 <= MaxUInt
    ensures var st1 := CalculateAlgoRewardsIntendedSpec(st, c).value.state;
      CalculateAlgoRewardsIntendedSpec(st1, c).Some? &&
      Get(CalculateAlgoRewardsIntendedSpec(st1, c).value.state.global, AMOUNT_ALGO) == Int(0)
  {
    IntendedEpochConserves(st, c);
    var st1 := CalculateAlgoRewardsIntendedSpec(st, c).value.state;
    assert Get(st1.global, ADMIN_ID) == Get(st.global, ADMIN_ID);
    assert Get(st1.global, WITHDRAW_ALGO_COUNTER) == Int(Get(st.global, WITHDRAW_ALGO_COUNTER).n + 1);
    assert CalculateAlgoRewardsIntendedSpec(st1, c).Some?;
    IntendedEpochOnRemainder(st1, c);
  }

  /** Only creation and ordinary calls are approved: opt-in, update, close-out and delete are rejected. */
  lemma OnlyCreationAndCalls(c: Call)
    requires c.Current().appId != 0 && c.Current().onCompletion != NoOp
    ensures Route(c).None?
  {
  }

  /**
   * deploy_contract records applications[1] as ADMIN_ID and changes
   * nothing else; a lone creation call without rekeying runs it.
   */
  lemma DeployRecords(st: AppState, c: Call)
    ensures DeploySpec(st, c).Some? <==> |c.Current().apps| >= 1
    ensures DeploySpec(st, c).Some? ==>
      var res := DeploySpec(st, c).value;
      AdminIdOf(res.state.global) == Some(c.Current().apps[0]) &&
      (forall k :: k != ADMIN_ID ==> Get(res.state.global, k) == Get(st.global, k)) &&
      res.state.local == st.local && res.outbox == []
    ensures c.Current().appId == 0 && |c.group| == 1 && NoRekey(c) ==> Approval(st, c) == DeploySpec(st, c)
  {
  }
}

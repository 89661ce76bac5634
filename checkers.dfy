/**
 * The guard predicates of contracts/checkers.py.  Each decides whether the
 * current transaction group has the shape one operation demands.  PyTeal's
 * And and Or evaluate every operand, so a guard that names Gtxn[k] past the
 * end of the group, or an application argument that is missing, aborts the
 * program instead of evaluating to false: each guard yields None for that
 * fault, and its contract says exactly when that happens and exactly which
 * groups it accepts.
 */
module Checkers {
  import opened Avm
  import opened Constants

  /** Leg t is a payment of exactly `amount` microalgos to the running application. */
  predicate PaysSelf(c: Call, t: Txn, amount: nat)
  {
    t.txnType == Payment && t.receiver == SelfAddress(c) && t.amount == amount
  }

  /** The legs are sent by the same account. */
  predicate SameSender(a: Txn, b: Txn)
  {
    a.sender == b.sender
  }

  /**
   * The shape shared by the single-transaction operations: the first
   * argument carries the tag, the group holds only this call, and the call
   * does not rekey the sender.
   */
  function SingleCall(c: Call, tag: Value): (r: Option<bool>)
    ensures r.None? <==> c.Current().args == []
    ensures r == Some(true) <==> ArgIs(c.Current(), 0, tag) && |c.group| == 1 && NoRekey(c)
  {
    var a0 :- Arg(c.Current(), 0);
    Some(a0 == tag && |c.group| == 1 && NoRekey(c))
  }

  function SetRoleChecker(c: Call): (r: Option<bool>)
    ensures r.None? <==> c.Current().args == []
    ensures r == Some(true) <==> ArgIs(c.Current(), 0, SET_ROLE) && |c.group| == 1 && NoRekey(c)
  {
    SingleCall(c, SET_ROLE)
  }

  function SetVerifiedStatusChecker(c: Call): (r: Option<bool>)
    ensures r.None? <==> c.Current().args == []
    ensures r == Some(true) <==> ArgIs(c.Current(), 0, SET_VERIFIED_STATUS) && |c.group| == 1 && NoRekey(c)
  {
    SingleCall(c, SET_VERIFIED_STATUS)
  }

  function AddModuleChecker(c: Call): (r: Option<bool>)
    ensures r.None? <==> c.Current().args == []
    ensures r == Some(true) <==> ArgIs(c.Current(), 0, ADD_MODULE) && |c.group| == 1 && NoRekey(c)
  {
    SingleCall(c, ADD_MODULE)
  }

  function RemoveModuleChecker(c: Call): (r: Option<bool>)
    ensures r.None? <==> c.Current().args == []
    ensures r == Some(true) <==> ArgIs(c.Current(), 0, REMOVE_MODULE) && |c.group| == 1 && NoRekey(c)
  {
    SingleCall(c, REMOVE_MODULE)
  }

  function ChangeAssetManagerChecker(c: Call): (r: Option<bool>)
    ensures r.None? <==> c.Current().args == []
    ensures r == Some(true) <==> ArgIs(c.Current(), 0, CHANGE_ASSET_MANAGER) && |c.group| == 1 && NoRekey(c)
  {
    SingleCall(c, CHANGE_ASSET_MANAGER)
  }

  function ClawbackAssetChecker(c: Call): (r: Option<bool>)
    ensures r.None? <==> c.Current().args == []
    ensures r == Some(true) <==> ArgIs(c.Current(), 0, CLAWBACK_ASSET) && |c.group| == 1 && NoRekey(c)
  {
    SingleCall(c, CLAWBACK_ASSET)
  }

  function FreezeAssetChecker(c: Call): (r: Option<bool>)
    ensures r.None? <==> c.Current().args == []
    ensures r == Some(true) <==> ArgIs(c.Current(), 0, FREEZE_ASSET) && |c.group| == 1 && NoRekey(c)
  {
    SingleCall(c, FREEZE_ASSET)
  }

  function ChangeAdminIdChecker(c: Call): (r: Option<bool>)
    ensures r.None? <==> c.Current().args == []
    ensures r == Some(true) <==> ArgIs(c.Current(), 0, CHANGE_ADMIN_ID) && |c.group| == 1 && NoRekey(c)
  {
    SingleCall(c, CHANGE_ADMIN_ID)
  }

  function CloseAuctionChecker(c: Call): (r: Option<bool>)
    ensures r.None? <==> c.Current().args == []
    ensures r == Some(true) <==> ArgIs(c.Current(), 0, CLOSE_AUCTION) && |c.group| == 1 && NoRekey(c)
  {
    SingleCall(c, CLOSE_AUCTION)
  }

  function RevertNftChecker(c: Call): (r: Option<bool>)
    ensures r.None? <==> c.Current().args == []
    ensures r == Some(true) <==> ArgIs(c.Current(), 0, REVERT_NFT) && |c.group| == 1 && NoRekey(c)
  {
    SingleCall(c, REVERT_NFT)
  }

  function PayAlgoChecker(c: Call): (r: Option<bool>)
    ensures r.None? <==> c.Current().args == []
    ensures r == Some(true) <==> ArgIs(c.Current(), 0, PAY_ALGO) && |c.group| == 1 && NoRekey(c)
  {
    SingleCall(c, PAY_ALGO)
  }

  function PayAssetChecker(c: Call): (r: Option<bool>)
    ensures r.None? <==> c.Current().args == []
    ensures r == Some(true) <==> ArgIs(c.Current(), 0, PAY_ASSET) && |c.group| == 1 && NoRekey(c)
  {
    SingleCall(c, PAY_ASSET)
  }

  function SetGlobalChecker(c: Call): (r: Option<bool>)
    ensures r.None? <==> c.Current().args == []
    ensures r == Some(true) <==> ArgIs(c.Current(), 0, SET_GLOBAL) && |c.group| == 1 && NoRekey(c)
  {
    SingleCall(c, SET_GLOBAL)
  }

  function DelGlobalChecker(c: Call): (r: Option<bool>)
    ensures r.None? <==> c.Current().args == []
    ensures r == Some(true) <==> ArgIs(c.Current(), 0, DEL_GLOBAL) && |c.group| == 1 && NoRekey(c)
  {
    SingleCall(c, DEL_GLOBAL)
  }

  function EmergencyWithdrawChecker(c: Call): (r: Option<bool>)
    ensures r.None? <==> c.Current().args == []
    ensures r == Some(true) <==> ArgIs(c.Current(), 0, EMERGENCY_WITHDRAW) && |c.group| == 1 && NoRekey(c)
  {
    SingleCall(c, EMERGENCY_WITHDRAW)
  }

  function IncreaseRewardsChecker(c: Call): (r: Option<bool>)
    ensures r.None? <==> c.Current().args == []
    ensures r == Some(true) <==> ArgIs(c.Current(), 0, INCREASE_REWARDS) && |c.group| == 1 && NoRekey(c)
  {
    SingleCall(c, INCREASE_REWARDS)
  }

  function DecreaseRewardsChecker(c: Call): (r: Option<bool>)
    ensures r.None? <==> c.Current().args == []
    ensures r == Some(true) <==> ArgIs(c.Current(), 0, DECREASE_REWARDS) && |c.group| == 1 && NoRekey(c)
  {
    SingleCall(c, DECREASE_REWARDS)
  }

  function AdminCancelSubscriptionChecker(c: Call): (r: Option<bool>)
    ensures r.None? <==> c.Current().args == []
    ensures r == Some(true) <==> ArgIs(c.Current(), 0, ADMIN_CANCEL_SUBSCRIPTION) && |c.group| == 1 && NoRekey(c)
  {
    SingleCall(c, ADMIN_CANCEL_SUBSCRIPTION)
  }

  function AdminCancelAndRefundSubscriptionChecker(c: Call): (r: Option<bool>)
    ensures r.None? <==> c.Current().args == []
    ensures r == Some(true) <==> ArgIs(c.Current(), 0, ADMIN_CANCEL_AND_REFUND_SUBSCRIPTION) && |c.group| == 1 && NoRekey(c)
  {
    SingleCall(c, ADMIN_CANCEL_AND_REFUND_SUBSCRIPTION)
  }

  function FreezeSubscriptionChecker(c: Call): (r: Option<bool>)
    ensures r.None? <==> c.Current().args == []
    ensures r == Some(true) <==> ArgIs(c.Current(), 0, FREEZE_SUBSCRIPTION) && |c.group| == 1 && NoRekey(c)
  {
    SingleCall(c, FREEZE_SUBSCRIPTION)
  }

  function UnfreezeSubscriptionChecker(c: Call): (r: Option<bool>)
    ensures r.None? <==> c.Current().args == []
    ensures r == Some(true) <==> ArgIs(c.Current(), 0, UNFREEZE_SUBSCRIPTION) && |c.group| == 1 && NoRekey(c)
  {
    SingleCall(c, UNFREEZE_SUBSCRIPTION)
  }

  function WithdrawAlgosChecker(c: Call): (r: Option<bool>)
    ensures r.None? <==> c.Current().args == []
    ensures r == Some(true) <==> ArgIs(c.Current(), 0, WITHDRAW_ALGOS) && |c.group| == 1 && NoRekey(c)
  {
    SingleCall(c, WITHDRAW_ALGOS)
  }

  function WithdrawTokensChecker(c: Call): (r: Option<bool>)
    ensures r.None? <==> c.Current().args == []
    ensures r == Some(true) <==> ArgIs(c.Current(), 0, WITHDRAW_TOKENS) && |c.group| == 1 && NoRekey(c)
  {
    SingleCall(c, WITHDRAW_TOKENS)
  }

  function CalculateAssetRewardsChecker(c: Call): (r: Option<bool>)
    ensures r.None? <==> c.Current().args == []
    ensures r == Some(true) <==> ArgIs(c.Current(), 0, CALCULATE_ASSET_REWARDS) && |c.group| == 1 && NoRekey(c)
  {
    SingleCall(c, CALCULATE_ASSET_REWARDS)
  }

  function CalculateAlgoRewardsChecker(c: Call): (r: Option<bool>)
    ensures r.None? <==> c.Current().args == []
    ensures r == Some(true) <==> ArgIs(c.Current(), 0, CALCULATE_ALGO_REWARDS) && |c.group| == 1 && NoRekey(c)
  {
    SingleCall(c, CALCULATE_ALGO_REWARDS)
  }

  function WithdrawAssetRewardChecker(c: Call): (r: Option<bool>)
    ensures r.None? <==> c.Current().args == []
    ensures r == Some(true) <==> ArgIs(c.Current(), 0, WITHDRAW_ASSET) && |c.group| == 1 && NoRekey(c)
  {
    SingleCall(c, WITHDRAW_ASSET)
  }

  function WithdrawAlgoRewardChecker(c: Call): (r: Option<bool>)
    ensures r.None? <==> c.Current().args == []
    ensures r == Some(true) <==> ArgIs(c.Current(), 0, WITHDRAW_ALGO) && |c.group| == 1 && NoRekey(c)
  {
    SingleCall(c, WITHDRAW_ALGO)
  }

  function SetLocalChecker(c: Call): (r: Option<bool>)
    ensures r.None? <==> c.Current().args == []
    ensures r == Some(true) <==> ArgIs(c.Current(), 0, SET_LOCAL) && |c.group| == 1 && NoRekey(c)
  {
    SingleCall(c, SET_LOCAL)
  }

  function ChangeOwnershipChecker(c: Call): (r: Option<bool>)
    ensures r.None? <==> c.Current().args == []
    ensures r == Some(true) <==> ArgIs(c.Current(), 0, CHANGE_OWNERSHIP) && |c.group| == 1 && NoRekey(c)
  {
    SingleCall(c, CHANGE_OWNERSHIP)
  }
  /** asset_optin_checker: a 0.1 Algo payment to this application followed by a call tagged ASSET_OPTIN. */
  function AssetOptinChecker(c: Call): (r: Option<bool>)
    ensures r.None? <==> |c.group| < 2 || c.group[1].args == []
    ensures r == Some(true) <==>
      |c.group| == 2 && PaysSelf(c, c.group[0], 100_000) && SameSender(c.group[0], c.group[1]) &&
      c.group[1].txnType == ApplicationCall && ArgIs(c.group[1], 0, ASSET_OPTIN) && NoRekey(c)
  {
    var g0 := c.group[0];
    var g1 :- c.Gtxn(1);
    var g1a0 :- Arg(g1, 0);
    Some(|c.group| == 2 && g0.txnType == Payment && g0.receiver == SelfAddress(c) && g0.amount == 100_000 &&
         g0.sender == g1.sender && g1.txnType == ApplicationCall && g1a0 == ASSET_OPTIN && NoRekey(c))
  }

  /** assets_optin_checker: as asset_optin_checker with a 0.2 Algo payment. */
  function AssetsOptinChecker(c: Call): (r: Option<bool>)
    ensures r.None? <==> |c.group| < 2 || c.group[1].args == []
    ensures r == Some(true) <==>
      |c.group| == 2 && PaysSelf(c, c.group[0], 200_000) && SameSender(c.group[0], c.group[1]) &&
      c.group[1].txnType == ApplicationCall && ArgIs(c.group[1], 0, ASSET_OPTIN) && NoRekey(c)
  {
    var g0 := c.group[0];
    var g1 :- c.Gtxn(1);
    var g1a0 :- Arg(g1, 0);
    Some(|c.group| == 2 && g0.txnType == Payment && g0.receiver == SelfAddress(c) && g0.amount == 200_000 &&
         g0.sender == g1.sender && g1.txnType == ApplicationCall && g1a0 == ASSET_OPTIN && NoRekey(c))
  }

  /** The shape of a paid deployment: a payment of `amount` to this application, then this call (group index 1) tagged `tag`. */
  function PaidCall(c: Call, tag: Value, amount: nat): (r: Option<bool>)
    ensures r.None? <==> c.Current().args == [] || |c.group| < 2
    ensures r == Some(true) <==>
      ArgIs(c.Current(), 0, tag) && |c.group| == 2 && PaysSelf(c, c.group[0], amount) &&
      SameSender(c.group[0], c.group[1]) && c.group[1].txnType == ApplicationCall && c.index == 1 && NoRekey(c)
  {
    var a0 :- Arg(c.Current(), 0);
    var g0 := c.group[0];
    var g1 :- c.Gtxn(1);
    Some(a0 == tag && |c.group| == 2 && g0.txnType == Payment && g0.receiver == SelfAddress(c) && g0.amount == amount &&
         g0.sender == g1.sender && g1.txnType == ApplicationCall && c.index == 1 && NoRekey(c))
  }

  /** create_asset_app_checker: 1.4 Algo paid to this application before the CREATE_ASSET_APP call. */
  function CreateAssetAppChecker(c: Call): (r: Option<bool>)
    ensures r.None? <==> c.Current().args == [] || |c.group| < 2
    ensures r == Some(true) <==>
      ArgIs(c.Current(), 0, CREATE_ASSET_APP) && |c.group| == 2 && PaysSelf(c, c.group[0], 1_400_000) &&
      SameSender(c.group[0], c.group[1]) && c.group[1].txnType == ApplicationCall && c.index == 1 && NoRekey(c)
  {
    PaidCall(c, CREATE_ASSET_APP, 1_400_000)
  }

  /** opt_in_assets_checker: 0.2 Algo paid to this application before the OPT_IN_ASSETS call. */
  function OptInAssetsChecker(c: Call): (r: Option<bool>)
    ensures r.None? <==> c.Current().args == [] || |c.group| < 2
    ensures r == Some(true) <==>
      ArgIs(c.Current(), 0, OPT_IN_ASSETS) && |c.group| == 2 && PaysSelf(c, c.group[0], 200_000) &&
      SameSender(c.group[0], c.group[1]) && c.group[1].txnType == ApplicationCall && c.index == 1 && NoRekey(c)
  {
    PaidCall(c, OPT_IN_ASSETS, 200_000)
  }

  /** deploy_creator_app_checker: 3.44 Algo paid to this application before the DEPLOY_CREATOR_APP call. */
  function DeployCreatorAppChecker(c: Call): (r: Option<bool>)
    ensures r.None? <==> c.Current().args == [] || |c.group| < 2
    ensures r == Some(true) <==>
      ArgIs(c.Current(), 0, DEPLOY_CREATOR_APP) && |c.group| == 2 && PaysSelf(c, c.group[0], 3_440_000) &&
      SameSender(c.group[0], c.group[1]) && c.group[1].txnType == ApplicationCall && c.index == 1 && NoRekey(c)
  {
    PaidCall(c, DEPLOY_CREATOR_APP, 3_440_000)
  }

  /**
   * optin_admin_checker: 0.9 Algo paid to this application with an
   * OPTIN_ADMIN call from the same sender; the second leg's type and this
   * call's group index are not checked.
   */
  function OptinAdminChecker(c: Call): (r: Option<bool>)
    ensures r.None? <==> |c.group| < 2 || c.Current().args == []
    ensures r == Some(true) <==>
      |c.group| == 2 && PaysSelf(c, c.group[0], 900_000) && SameSender(c.group[0], c.group[1]) &&
      NoRekey(c) && ArgIs(c.Current(), 0, OPTIN_ADMIN)
  {
    var g0 := c.group[0];
    var g1 :- c.Gtxn(1);
    var a0 :- Arg(c.Current(), 0);
    Some(|c.group| == 2 && g0.txnType == Payment && g0.receiver == SelfAddress(c) && g0.amount == 900_000 &&
         g0.sender == g1.sender && NoRekey(c) && a0 == OPTIN_ADMIN)
  }

  /** deploy_subscription_app_checker: 0.66 Algo paid to this application with a DEPLOY_SUBSCRIPTION_APP call from the same sender. */
  function DeploySubscriptionAppChecker(c: Call): (r: Option<bool>)
    ensures r.None? <==> |c.group| < 2 || c.Current().args == []
    ensures r == Some(true) <==>
      |c.group| == 2 && PaysSelf(c, c.group[0], 660_000) && SameSender(c.group[0], c.group[1]) &&
      NoRekey(c) && ArgIs(c.Current(), 0, DEPLOY_SUBSCRIPTION_APP)
  {
    var g0 := c.group[0];
    var g1 :- c.Gtxn(1);
    var a0 :- Arg(c.Current(), 0);
    Some(|c.group| == 2 && g0.txnType == Payment && g0.receiver == SelfAddress(c) && g0.amount == 660_000 &&
         g0.sender == g1.sender && NoRekey(c) && a0 == DEPLOY_SUBSCRIPTION_APP)
  }

  /** optin_niftgen_asset_checker: 0.1 Algo paid to this application before a call tagged ASSET_OPTIN. */
  function OptinNiftgenAssetChecker(c: Call): (r: Option<bool>)
    ensures r.None? <==> |c.group| < 2 || c.group[1].args == []
    ensures r == Some(true) <==>
      |c.group| == 2 && PaysSelf(c, c.group[0], 100_000) && SameSender(c.group[0], c.group[1]) &&
      c.group[1].txnType == ApplicationCall && ArgIs(c.group[1], 0, ASSET_OPTIN) && NoRekey(c)
  {
    AssetOptinChecker(c)
  }

  /** The shape of a deposit: one unit of an asset sent by the caller, then this call (group index 1) tagged `tag`. */
  function NftDeposit(c: Call, tag: Value): (r: Option<bool>)
    ensures r.None? <==> c.Current().args == [] || |c.group| < 2
    ensures r == Some(true) <==>
      ArgIs(c.Current(), 0, tag) && |c.group| == 2 && c.group[0].txnType == AssetTransfer &&
      c.group[0].assetAmount == 1 && SameSender(c.group[0], c.group[1]) &&
      c.group[1].txnType == ApplicationCall && c.index == 1 && NoRekey(c)
  {
    var a0 :- Arg(c.Current(), 0);
    var g0 := c.group[0];
    var g1 :- c.Gtxn(1);
    Some(a0 == tag && |c.group| == 2 && g0.txnType == AssetTransfer && g0.assetAmount == 1 &&
         g0.sender == g1.sender && g1.txnType == ApplicationCall && c.index == 1 && NoRekey(c))
  }

  /** create_auction_checker: the NFT is deposited alongside the START_AUCTION call. */
  function CreateAuctionChecker(c: Call): (r: Option<bool>)
    ensures r.None? <==> c.Current().args == [] || |c.group| < 2
    ensures r == Some(true) <==>
      ArgIs(c.Current(), 0, START_AUCTION) && |c.group| == 2 && c.group[0].txnType == AssetTransfer &&
      c.group[0].assetAmount == 1 && SameSender(c.group[0], c.group[1]) &&
      c.group[1].txnType == ApplicationCall && c.index == 1 && NoRekey(c)
  {
    NftDeposit(c, START_AUCTION)
  }

  /** start_sell_checker: the NFT is deposited alongside the START_SELL call. */
  function StartSellChecker(c: Call): (r: Option<bool>)
    ensures r.None? <==> c.Current().args == [] || |c.group| < 2
    ensures r == Some(true) <==>
      ArgIs(c.Current(), 0, START_SELL) && |c.group| == 2 && c.group[0].txnType == AssetTransfer &&
      c.group[0].assetAmount == 1 && SameSender(c.group[0], c.group[1]) &&
      c.group[1].txnType == ApplicationCall && c.index == 1 && NoRekey(c)
  {
    NftDeposit(c, START_SELL)
  }

  /** The shape of a payment in either currency: an Algo payment or an asset transfer, then this call (group index 1) tagged `tag`. */
  function CurrencyPayment(c: Call, tag: Value): (r: Option<bool>)
    ensures r.None? <==> c.Current().args == [] || |c.group| < 2
    ensures r == Some(true) <==>
      ArgIs(c.Current(), 0, tag) && |c.group| == 2 &&
      (c.group[0].txnType == Payment || c.group[0].txnType == AssetTransfer) &&
      SameSender(c.group[0], c.group[1]) && c.group[1].txnType == ApplicationCall && c.index == 1 && NoRekey(c)
  {
    var a0 :- Arg(c.Current(), 0);
    var g0 := c.group[0];
    var g1 :- c.Gtxn(1);
    Some(a0 == tag && |c.group| == 2 && (g0.txnType == Payment || g0.txnType == AssetTransfer) &&
         g0.sender == g1.sender && g1.txnType == ApplicationCall && c.index == 1 && NoRekey(c))
  }

  /** on_bid_auction_checker: the bid is paid in Algo or in an asset alongside the ON_BID call. */
  function OnBidAuctionChecker(c: Call): (r: Option<bool>)
    ensures r.None? <==> c.Current().args == [] || |c.group| < 2
    ensures r == Some(true) <==>
      ArgIs(c.Current(), 0, ON_BID) && |c.group| == 2 &&
      (c.group[0].txnType == Payment || c.group[0].txnType == AssetTransfer) &&
      SameSender(c.group[0], c.group[1]) && c.group[1].txnType == ApplicationCall && c.index == 1 && NoRekey(c)
  {
    CurrencyPayment(c, ON_BID)
  }

  /** purchase_nft_checker: the price is paid in Algo or in an asset alongside the PURCHASE_NFT call. */
  function PurchaseNftChecker(c: Call): (r: Option<bool>)
    ensures r.None? <==> c.Current().args == [] || |c.group| < 2
    ensures r == Some(true) <==>
      ArgIs(c.Current(), 0, PURCHASE_NFT) && |c.group| == 2 &&
      (c.group[0].txnType == Payment || c.group[0].txnType == AssetTransfer) &&
      SameSender(c.group[0], c.group[1]) && c.group[1].txnType == ApplicationCall && c.index == 1 && NoRekey(c)
  {
    CurrencyPayment(c, PURCHASE_NFT)
  }

  /** get_pending_rewards_checker: an Algo payment (to anyone, of any amount) from the claimant with the GET_PENDING_REWARDS call. */
  function GetPendingRewardsChecker(c: Call): (r: Option<bool>)
    ensures r.None? <==> |c.group| < 2 || c.Current().args == []
    ensures r == Some(true) <==>
      |c.group| == 2 && c.group[0].txnType == Payment && SameSender(c.group[0], c.group[1]) &&
      c.group[1].txnType == ApplicationCall && ArgIs(c.Current(), 0, GET_PENDING_REWARDS) && NoRekey(c)
  {
    var g0 := c.group[0];
    var g1 :- c.Gtxn(1);
    var a0 :- Arg(c.Current(), 0);
    Some(|c.group| == 2 && g0.txnType == Payment && g0.sender == g1.sender && g1.txnType == ApplicationCall &&
         a0 == GET_PENDING_REWARDS && NoRekey(c))
  }

  /** create_subscription_checker: a lone application call tagged CREATE_SUBSCRIPTION. */
  function CreateSubscriptionChecker(c: Call): (r: Option<bool>)
    ensures r.None? <==> c.Current().args == []
    ensures r == Some(true) <==>
      |c.group| == 1 && c.Current().txnType == ApplicationCall && ArgIs(c.Current(), 0, CREATE_SUBSCRIPTION) && NoRekey(c)
  {
    var a0 :- Arg(c.Current(), 0);
    Some(|c.group| == 1 && c.Current().txnType == ApplicationCall && a0 == CREATE_SUBSCRIPTION && NoRekey(c))
  }

  /** subscribe_checker: the middle call of three, tagged SUBSCRIBE, followed by a call tagged UTILITY. */
  function SubscribeChecker(c: Call): (r: Option<bool>)
    ensures r.None? <==> c.Current().args == [] || |c.group| < 3 || c.group[2].args == []
    ensures r == Some(true) <==>
      |c.group| == 3 && c.index == 1 && ArgIs(c.Current(), 0, SUBSCRIBE) && NoRekey(c) && ArgIs(c.group[2], 0, UTILITY)
  {
    var a0 :- Arg(c.Current(), 0);
    var g2 :- c.Gtxn(2);
    var g2a0 :- Arg(g2, 0);
    Some(|c.group| == 3 && c.index == 1 && a0 == SUBSCRIBE && NoRekey(c) && g2a0 == UTILITY)
  }

  /** renew_checker: the middle call of three, tagged RENEW_SUBSCRIPTION; the third leg is not inspected. */
  function RenewChecker(c: Call): (r: Option<bool>)
    ensures r.None? <==> c.Current().args == []
    ensures r == Some(true) <==>
      |c.group| == 3 && c.index == 1 && ArgIs(c.Current(), 0, RENEW_SUBSCRIPTION) && NoRekey(c)
  {
    var a0 :- Arg(c.Current(), 0);
    Some(|c.group| == 3 && c.index == 1 && a0 == RENEW_SUBSCRIPTION && NoRekey(c))
  }

  /** The shape of a cancellation: this call first, tagged `tag`, and a CloseOut call second. */
  function CancelCall(c: Call, tag: Value): (r: Option<bool>)
    ensures r.None? <==> |c.group| < 2 || c.Current().args == []
    ensures r == Some(true) <==>
      |c.group| == 2 && ArgIs(c.Current(), 0, tag) && NoRekey(c) && c.index == 0 && c.group[1].onCompletion == CloseOut
  {
    var a0 :- Arg(c.Current(), 0);
    var g1 :- c.Gtxn(1);
    Some(|c.group| == 2 && a0 == tag && NoRekey(c) && c.index == 0 && g1.onCompletion == CloseOut)
  }

  function CancelSubscriptionChecker(c: Call): (r: Option<bool>)
    ensures r.None? <==> |c.group| < 2 || c.Current().args == []
    ensures r == Some(true) <==>
      |c.group| == 2 && ArgIs(c.Current(), 0, CANCEL_SUBSCRIPTION) && NoRekey(c) && c.index == 0 &&
      c.group[1].onCompletion == CloseOut
  {
    CancelCall(c, CANCEL_SUBSCRIPTION)
  }

  function CancelAndRefundSubscriptionChecker(c: Call): (r: Option<bool>)
    ensures r.None? <==> |c.group| < 2 || c.Current().args == []
    ensures r == Some(true) <==>
      |c.group| == 2 && ArgIs(c.Current(), 0, CANCEL_AND_REFUND_SUBSCRIPTION) && NoRekey(c) && c.index == 0 &&
      c.group[1].onCompletion == CloseOut
  {
    CancelCall(c, CANCEL_AND_REFUND_SUBSCRIPTION)
  }

  /** utility_checker: only the tag and the rekey field; any group size and position is accepted. */
  function UtilityChecker(c: Call): (r: Option<bool>)
    ensures r.None? <==> c.Current().args == []
    ensures r == Some(true) <==> ArgIs(c.Current(), 0, UTILITY) && NoRekey(c)
  {
    var a0 :- Arg(c.Current(), 0);
    Some(a0 == UTILITY && NoRekey(c))
  }

  /** increase_asset_pool_rewards_checker: an asset transfer to this application with the INCREASE_ASSET_POOL_REWARDS call. */
  function IncreaseAssetPoolRewardsChecker(c: Call): (r: Option<bool>)
    ensures r.None? <==> |c.group| < 2 || c.Current().args == []
    ensures r == Some(true) <==>
      |c.group| == 2 && c.group[0].txnType == AssetTransfer && c.group[0].assetReceiver == SelfAddress(c) &&
      SameSender(c.group[0], c.group[1]) && NoRekey(c) && ArgIs(c.Current(), 0, INCREASE_ASSET_POOL_REWARDS)
  {
    var g0 := c.group[0];
    var g1 :- c.Gtxn(1);
    var a0 :- Arg(c.Current(), 0);
    Some(|c.group| == 2 && g0.txnType == AssetTransfer && g0.assetReceiver == SelfAddress(c) &&
         g0.sender == g1.sender && NoRekey(c) && a0 == INCREASE_ASSET_POOL_REWARDS)
  }

  /** increase_pool_rewards_checker: an Algo payment to this application with the INCREASE_ALGO_POOL call. */
  function IncreasePoolRewardsChecker(c: Call): (r: Option<bool>)
    ensures r.None? <==> |c.group| < 2 || c.Current().args == []
    ensures r == Some(true) <==>
      |c.group| == 2 && c.group[0].txnType == Payment && c.group[0].receiver == SelfAddress(c) &&
      SameSender(c.group[0], c.group[1]) && NoRekey(c) && ArgIs(c.Current(), 0, INCREASE_ALGO_POOL)
  {
    var g0 := c.group[0];
    var g1 :- c.Gtxn(1);
    var a0 :- Arg(c.Current(), 0);
    Some(|c.group| == 2 && g0.txnType == Payment && g0.receiver == SelfAddress(c) &&
         g0.sender == g1.sender && NoRekey(c) && a0 == INCREASE_ALGO_POOL)
  }
}

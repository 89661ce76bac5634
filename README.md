# Niftgen on-chain programs, modelled in Dafny

This project models the approval programs of the Niftgen NFT platform on Algorand, written in
PyTeal. The programs are:

- the **admin** program: the platform registry of owner, fee, roles, verified creators, registered
  modules and per-account locals;
- the **NFT application**: one per NFT, holding the NFT and paying out on request of a registered
  module;
- the **auction**, **list** (fixed-price sale), **subscription**, **rewards** and **creator**
  modules;
- the **creator pool**, which collects a share of subscriptions and divides it among verified
  creators per epoch.

It also models the group-shape **checkers** and the **utility** builders of inner transactions.

Files:

- `avm.dfy` (module `Avm`) is the execution model shared by every program:
  - uint64 arithmetic that aborts on overflow, underflow and division by zero;
  - `Itob`/`Btoi` on byte strings;
  - stored values `Bytes | Int | Const`, with a missing key reading as `Int(0)`;
  - reads of another program's state (`App.globalGetEx`, `App.localGetEx`), where the application
    id 0 names the running program itself (`GlobalEx`, `HasGlobalEx`, `LocalEx`);
  - transactions, the group and the ledger snapshot a call sees;
  - PyTeal's `Cond`, as the first branch whose condition holds (`FirstMatch`). A condition that
    faults, or no condition holding, rejects.
- `constants.dfy` (module `Constants`) holds the byte-string constants. The integer constants
  (payment options, roles, statuses, subscription kinds) are distinct symbols. Their numeric values
  are not part of this model, and a symbol never equals a literal uint here.
- `checkers.dfy` (module `Checkers`) holds one function per checker.
- `utility.dfy` (module `Utility`) holds the builders of inner payments, asset transfers and calls.
- One file per program: `admin.dfy`, `nft_app.dfy`, `auction.dfy`, `list.dfy`, `subscription.dfy`,
  `rewards.dfy`, `creator_app.dfy` and `creator_pool.dfy`.

Each program has the same parts:

- an `Op` datatype of its handlers;
- `Route`, which is the program's `Cond` dispatch;
- one specification function `XSpec(st, c)` per handler. It returns the new state of the program
  and the inner transaction groups it submits, or `None` when the TEAL aborts or returns 0;
- `Approval`, which routes and then runs the selected handler;
- a class holding the program's global and local stores. Its methods perform each handler's
  writes step by step, and each method is proved to commit exactly what its specification
  function returns. Handlers that only submit inner transactions are methods that change
  nothing.

Two modules connect the programs to each other:

- `delivery.dfy` (module `Delivery`) serves a module's requests through `Nft.Approval`. The NFT
  application accepts a request only from an application registered with the admin program
  under the module's name. The lemmas there state what the NFT application ends up holding and
  paying after an auction, sale or bid.
- `pool_delivery.dfy` (module `PoolDelivery`) delivers the creator pool's and the subscription
  module's inner calls to the admin program and to the pool.

`sale.dfy` (module `Sale`) is the price split that the list and auction modules share: platform
fee, royalty and the seller's remainder.

Where the source has a bug, the model follows the code as written. Each bug in the Findings table
also has a corrected definition, named `...Intended...`, with the intended property proved about
it.

## Model

| member | source | states |
|---|---|---|
| Avm.BtoiItob | contracts/utility.py:191-219 | Btoi of an Itob-encoded argument returns the encoded number, so an `Int(n)` argument is read back as n |
| Avm.ItobInjective | contracts/creator_pool/creator_pool.py:109-132 | Itob is injective, so keys built from distinct numbers (per-asset keys) are distinct |
| Avm.BigEndianItobN | contracts/utility.py:191-219 | decoding the k-byte big-endian encoding of n gives n modulo 256^k |
| Avm.FirstMatchAt | contracts/admin.py:272-318 | Cond runs branch i when its condition holds and every earlier condition evaluated to false |
| Avm.FirstMatchFaultsAt | contracts/admin.py:272-318 | Cond aborts at a faulting condition once every earlier condition evaluated to false |
| Avm.FirstMatchNoneHolds | contracts/admin.py:272-318 | Cond rejects when no condition holds |
| Avm.FirstMatchAvoids | contracts/admin.py:272-318 | Cond never selects a handler that no branch names |
| Avm.FirstMatchSelects | contracts/admin.py:272-318 | Cond selects a handler if and only if it belongs to the first condition that holds, with every earlier condition false |
| Checkers.SetRoleChecker | contracts/checkers.py:6-12 | faults exactly when there is no argument; holds iff args[0] is SET_ROLE, the group is this one call and nothing is rekeyed |
| Checkers.SetVerifiedStatusChecker | contracts/checkers.py:16-22 | the same single-call shape with tag SET_VERIFIED_STATUS |
| Checkers.AddModuleChecker | contracts/checkers.py:26-32 | the single-call shape with tag ADD_MODULE |
| Checkers.RemoveModuleChecker | contracts/checkers.py:36-42 | the single-call shape with tag REMOVE_MODULE |
| Checkers.AssetOptinChecker | contracts/checkers.py:46-57 | faults when there is no second leg or it has no argument; holds iff two legs from one sender, leg 0 pays this program 0.1 Algo, and leg 1 is an application call tagged ASSET_OPTIN without rekeying |
| Checkers.AssetsOptinChecker | contracts/checkers.py:61-72 | as asset_optin_checker, with a 0.2 Algo payment |
| Checkers.ChangeAssetManagerChecker | contracts/checkers.py:76-82 | the single-call shape with tag CHANGE_ASSET_MANAGER |
| Checkers.ClawbackAssetChecker | contracts/checkers.py:86-92 | the single-call shape with tag CLAWBACK_ASSET |
| Checkers.FreezeAssetChecker | contracts/checkers.py:96-102 | the single-call shape with tag FREEZE_ASSET |
| Checkers.CreateAssetAppChecker | contracts/checkers.py:106-118 | holds iff 1.4 Algo is paid to this program by the same sender before this call (group index 1), tagged CREATE_ASSET_APP, without rekeying |
| Checkers.ChangeAdminIdChecker | contracts/checkers.py:122-128 | the single-call shape with tag CHANGE_ADMIN_ID |
| Checkers.OptinAdminChecker | contracts/checkers.py:132-142 | holds iff 0.9 Algo is paid to this program with an OPTIN_ADMIN call from the same sender; the second leg's type and the group index are not checked |
| Checkers.CreateAuctionChecker | contracts/checkers.py:146-157 | holds iff leg 0 is a one-unit asset transfer from the caller and this call (index 1) is tagged START_AUCTION, without rekeying |
| Checkers.OnBidAuctionChecker | contracts/checkers.py:161-174 | holds iff leg 0 is a payment or an asset transfer from the caller and this call (index 1) is tagged ON_BID |
| Checkers.CloseAuctionChecker | contracts/checkers.py:178-184 | the single-call shape with tag CLOSE_AUCTION; the sender is not inspected |
| Checkers.RevertNftChecker | contracts/checkers.py:188-194 | the single-call shape with tag REVERT_NFT |
| Checkers.StartSellChecker | contracts/checkers.py:198-209 | holds iff the NFT is deposited (one unit) alongside the START_SELL call at index 1 |
| Checkers.PurchaseNftChecker | contracts/checkers.py:213-226 | holds iff the price is paid in Algo or an asset alongside the PURCHASE_NFT call at index 1 |
| Checkers.PayAlgoChecker | contracts/checkers.py:230-236 | the single-call shape with tag PAY_ALGO |
| Checkers.PayAssetChecker | contracts/checkers.py:240-246 | the single-call shape with tag PAY_ASSET |
| Checkers.SetGlobalChecker | contracts/checkers.py:250-256 | the single-call shape with tag SET_GLOBAL |
| Checkers.DelGlobalChecker | contracts/checkers.py:260-266 | the single-call shape with tag DEL_GLOBAL |
| Checkers.OptInAssetsChecker | contracts/checkers.py:270-282 | holds iff 0.2 Algo is paid to this program before the OPT_IN_ASSETS call at index 1 |
| Checkers.OptinNiftgenAssetChecker | contracts/checkers.py:286-297 | holds iff 0.1 Algo is paid to this program before a leg tagged ASSET_OPTIN |
| Checkers.EmergencyWithdrawChecker | contracts/checkers.py:301-307 | the single-call shape with tag EMERGENCY_WITHDRAW |
| Checkers.IncreaseRewardsChecker | contracts/checkers.py:311-317 | the single-call shape with tag INCREASE_REWARDS |
| Checkers.DecreaseRewardsChecker | contracts/checkers.py:321-327 | the single-call shape with tag DECREASE_REWARDS |
| Checkers.GetPendingRewardsChecker | contracts/checkers.py:331-340 | holds iff leg 0 is an Algo payment (to anyone, any amount) from the claimant and this call is tagged GET_PENDING_REWARDS |
| Checkers.CreateSubscriptionChecker | contracts/checkers.py:344-355 | holds iff the group is one application call tagged CREATE_SUBSCRIPTION |
| Checkers.SubscribeChecker | contracts/checkers.py:359-367 | holds iff this is the middle call of three, tagged SUBSCRIBE, and the third leg is tagged UTILITY |
| Checkers.RenewChecker | contracts/checkers.py:371-378 | holds iff this is the middle call of three, tagged RENEW_SUBSCRIPTION; the third leg is not inspected |
| Checkers.CancelSubscriptionChecker | contracts/checkers.py:382-390 | holds iff this call comes first, tagged CANCEL_SUBSCRIPTION, and a CloseOut comes second |
| Checkers.CancelAndRefundSubscriptionChecker | contracts/checkers.py:394-402 | the same with tag CANCEL_AND_REFUND_SUBSCRIPTION |
| Checkers.AdminCancelSubscriptionChecker | contracts/checkers.py:406-412 | the single-call shape with tag ADMIN_CANCEL_SUBSCRIPTION |
| Checkers.AdminCancelAndRefundSubscriptionChecker | contracts/checkers.py:416-422 | the single-call shape with tag ADMIN_CANCEL_AND_REFUND_SUBSCRIPTION |
| Checkers.FreezeSubscriptionChecker | contracts/checkers.py:426-432 | the single-call shape with tag FREEZE_SUBSCRIPTION |
| Checkers.UnfreezeSubscriptionChecker | contracts/checkers.py:436-442 | the single-call shape with tag UNFREEZE_SUBSCRIPTION |
| Checkers.DeployCreatorAppChecker | contracts/checkers.py:446-458 | holds iff 3.44 Algo is paid to this program before the DEPLOY_CREATOR_APP call at index 1 |
| Checkers.WithdrawAlgosChecker | contracts/checkers.py:462-468 | the single-call shape with tag WITHDRAW_ALGOS |
| Checkers.WithdrawTokensChecker | contracts/checkers.py:472-478 | the single-call shape with tag WITHDRAW_TOKENS |
| Checkers.UtilityChecker | contracts/checkers.py:482-487 | holds iff args[0] is UTILITY and nothing is rekeyed, in any group size and position |
| Checkers.DeploySubscriptionAppChecker | contracts/checkers.py:491-501 | holds iff 0.66 Algo is paid to this program with a DEPLOY_SUBSCRIPTION_APP call from the same sender |
| Checkers.IncreaseAssetPoolRewardsChecker | contracts/checkers.py:505-514 | holds iff leg 0 is an asset transfer to this program from the caller, with the INCREASE_ASSET_POOL_REWARDS call |
| Checkers.IncreasePoolRewardsChecker | contracts/checkers.py:518-527 | holds iff leg 0 is an Algo payment to this program from the caller, with the INCREASE_ALGO_POOL call |
| Checkers.CalculateAssetRewardsChecker | contracts/checkers.py:531-537 | the single-call shape with tag CALCULATE_ASSET_REWARDS |
| Checkers.CalculateAlgoRewardsChecker | contracts/checkers.py:541-547 | the single-call shape with tag CALCULATE_ALGO_REWARDS |
| Checkers.WithdrawAssetRewardChecker | contracts/checkers.py:551-557 | the single-call shape with tag WITHDRAW_ASSET |
| Checkers.WithdrawAlgoRewardChecker | contracts/checkers.py:561-567 | the single-call shape with tag WITHDRAW_ALGO |
| Checkers.SetLocalChecker | contracts/checkers.py:571-577 | the single-call shape with tag SET_LOCAL |
| Checkers.ChangeOwnershipChecker | contracts/checkers.py:581-587 | the single-call shape with tag CHANGE_OWNERSHIP |
| Utility.SetGlobalGroups | contracts/utility.py:191-219 | one set_global_txn inner group per write, in order, each naming the admin program, the NFT application and the module name |
| Utility.SubmitSetGlobals | contracts/utility.py:191-219 | submitting the writes one after another appends exactly SetGlobalGroups to the outbox |
| Admin.AdminApp.Deploy | contracts/admin.py:40-55 | commits exactly what deploy_contract specifies |
| Admin.AdminApp.ChangeOwnership | contracts/admin.py:59-70 | commits exactly what change_ownership specifies |
| Admin.AdminApp.AssetsOptin | contracts/admin.py:74-109 | commits exactly what assets_optin specifies |
| Admin.AdminApp.OptinAdmin | contracts/admin.py:113-137 | commits exactly what optin_admin specifies |
| Admin.AdminApp.SetRole | contracts/admin.py:141-154 | commits exactly what set_role specifies |
| Admin.AdminApp.AddModule | contracts/admin.py:158-169 | commits exactly what add_module specifies |
| Admin.AdminApp.RemoveModule | contracts/admin.py:173-183 | commits exactly what remove_module specifies |
| Admin.AdminApp.WithdrawAlgos | contracts/admin.py:187-198 | commits exactly what withdraw_algos specifies |
| Admin.AdminApp.WithdrawTokens | contracts/admin.py:202-214 | commits exactly what withdraw_tokens specifies |
| Admin.AdminApp.UpdateApp | contracts/admin.py:218-220 | commits exactly what update_app specifies |
| Admin.UpdateOnlyOwner | contracts/admin.py:218-220 | update calls run update_app; with ADMIN_ID unset the id read is 0, the admin program itself, so an update is approved iff the sender is its own OWNER, and it changes nothing |
| Admin.AdminApp.SetVerifiedStatus | contracts/admin.py:224-243 | commits exactly what set_verified_status specifies |
| Admin.AdminApp.SetLocal | contracts/admin.py:247-269 | commits exactly what set_local specifies |
| Admin.AdminApp.Approve | contracts/admin.py:272-318 | runs the dispatch and commits exactly what Approval specifies |
| Admin.DeployRecords | contracts/admin.py:40-55 | creation records OWNER = sender, the fee, FIRST_ADMIN, VERIFIED_CREATORS = 0 and the NIFTGEN and USDC asset ids, touches no local and submits nothing |
| Admin.ChangeOwnershipOnlyOwner | contracts/admin.py:59-70 | approved iff the owner signs and names a different new owner; afterwards that account is the owner and nothing but OWNER changed |
| Admin.AssetsOptinNeedsRoleOne | contracts/admin.py:74-109 | assets_optin is approved only when the sender's ROLE is the literal 1; so, provided neither role constant is the uint 1, never while every stored role is one of the two role constants |
| Admin.OptinAdminRoles | contracts/admin.py:113-137 | FIRST_ADMIN and OWNER opt in as admins and everyone else as a user; the first admin's opt-in clears FIRST_ADMIN; no other account changes |
| Admin.FirstAdminBootstrapsOnce | contracts/admin.py:113-137 | after the first admin has opted in, any later account other than the owner opts in as a user |
| Admin.SetRoleRules | contracts/admin.py:141-154 | set_role is approved only for the owner or an admin, never on oneself, only to one of the two roles, and only the target's ROLE changes |
| Admin.AddModuleCanOverwriteOwner | contracts/admin.py:158-169 | add_module writes whatever key is named; naming OWNER leaves no account as the owner |
| Admin.RemoveModuleKeepsRegistration | contracts/admin.py:173-183 | remove_module deletes the key equal to the registered id, so after add_module(name, id) the name is still registered to id |
| Admin.WithdrawsPayBeneficiary | contracts/admin.py:187-214 | withdraw_algos and withdraw_tokens are approved iff the owner signs with a beneficiary and a uint amount (and an asset); the state is untouched and the one inner transaction pays that amount to the beneficiary |
| Admin.OnlyOwnerWithdraws | contracts/admin.py:272-318 | every approved call that submits inner transactions is a withdrawal signed by the owner or the zero-amount assets_optin |
| Admin.VerifiedCounterMovesByOne | contracts/admin.py:224-243 | set_verified_status moves VERIFIED_CREATORS by exactly one towards the new status, whatever the old status, and stores the status |
| Admin.UnverifyAtZeroAborts | contracts/admin.py:224-243 | un-verifying while VERIFIED_CREATORS is 0 aborts |
| Admin.SetLocalStores | contracts/admin.py:247-269 | when reached, set_local accepts only the module application registered under args[1], writes one local of an opted-in account (raw bytes for flag 0, Btoi otherwise) and nothing else |
| Admin.ApprovalPreservesRoles | contracts/admin.py:272-318 | every approved admin call keeps every stored ROLE one of the two roles |
| Admin.LocalPutKeepsRoles | contracts/admin.py:141-154 | a local write keeps roles well formed when a ROLE write stores a valid role |
| Admin.SetLocalRequestRunsChangeOwnership | contracts/admin.py:275-282 | a lone NoOp call tagged SET_LOCAL is dispatched to change_ownership |
| Admin.SetLocalUnreachable | contracts/admin.py:275-282 | the dispatch never selects set_local |
| Admin.ChangeOwnershipTagRejected | contracts/admin.py:275-282 | a lone call tagged CHANGE_OWNERSHIP is rejected by the dispatch |
| Admin.IntendedSetLocalReached | contracts/admin.py:275-282 | under the intended dispatch a lone SET_LOCAL call reaches set_local |
| Admin.IntendedChangeOwnershipRouted | contracts/admin.py:275-282 | under the intended dispatch a lone CHANGE_OWNERSHIP call reaches change_ownership, and only that tag does |
| Nft.NftApp.CheckModule | contracts/modules/nft_app.py:151-168 | the registration guard: true iff the calling application is the one the admin program registers under the module name given |
| Nft.NftApp.Deploy | contracts/modules/nft_app.py:32-76 | commits exactly what deploy_contract specifies |
| Nft.NftApp.OptInAssets | contracts/modules/nft_app.py:80-116 | returns exactly what opt_in_assets specifies |
| Nft.NftApp.DeleteApp | contracts/modules/nft_app.py:120-147 | returns exactly what delete_app specifies |
| Nft.NftApp.PayAlgo | contracts/modules/nft_app.py:151-168 | returns exactly what pay_algo specifies |
| Nft.NftApp.PayAsset | contracts/modules/nft_app.py:172-187 | returns exactly what pay_asset specifies |
| Nft.NftApp.SetGlobal | contracts/modules/nft_app.py:191-216 | commits exactly what set_global specifies |
| Nft.NftApp.RemoveGlobal | contracts/modules/nft_app.py:220-236 | commits exactly what remove_global specifies |
| Nft.NftApp.ChangeAdminId | contracts/modules/nft_app.py:240-252 | commits exactly what change_admin_id specifies |
| Nft.NftApp.UpdateApp | contracts/modules/nft_app.py:256-258 | returns exactly what update_app specifies |
| Nft.NftApp.Approve | contracts/modules/nft_app.py:261-305 | runs the dispatch and commits exactly what Approval specifies |
| Nft.DeployAcceptsOnlyPlatformNft | contracts/modules/nft_app.py:32-76 | deploy_contract succeeds iff the NFT is a platform NFT whose owner is the calling creator application's CREATOR_ADDRESS |
| Nft.SetGlobalStores | contracts/modules/nft_app.py:191-216 | after set_global the name holds the stored value and nothing else changes |
| Nft.RemoveGlobalDeletes | contracts/modules/nft_app.py:220-236 | remove_global removes the name, which reads as 0 again, and nothing else changes |
| Nft.PayoutsNeedAuthority | contracts/modules/nft_app.py:261-305 | every approved run that submits inner transactions is a pay request from a registered module, an admin's delete_app refunding the bid, or the zero-amount asset opt-in |
| Nft.GlobalWriters | contracts/modules/nft_app.py:261-305 | only deploy_contract, set_global, remove_global and change_admin_id change globals; no handler touches locals |
| Nft.ChangeAdminIdWithoutNewIdLocksOut | contracts/modules/nft_app.py:240-252 | while NEW_ADMIN_ID is unset, change_admin_id sets ADMIN_ID to 0, the program's own id; a later sender that is not the program's own OWNER global and holds no ADMIN_ROLE in its own locals then passes neither the admin nor the owner check |
| Nft.UpdateOnlyOwner | contracts/modules/nft_app.py:256-258 | an update call is approved iff the sender is the OWNER of the application ADMIN_ID names (its own OWNER when ADMIN_ID is 0), and changes nothing |
| Nft.OptInAssetsRecords | contracts/modules/nft_app.py:80-117 | opt_in_assets is approved for any sender iff assets[0], applications[1] and assets[1] are the stored NFT_ID, ADMIN_ID and USDC_ASSET_ID; it changes no state and opts the program into both assets |
| Nft.DeployThenOptInAssets | contracts/modules/nft_app.py:32-117 | after deploy_contract, opt_in_assets passes for a call naming the same NFT, admin and USDC ids |
| Delivery.InnerCall | contracts/utility.py:191-219 | the callee's view of an inner call: that transaction alone, from the calling application, on the same ledger |
| Delivery.SetGlobalServed | contracts/utility.py:191-219 | a set_global_txn request from a registered module is routed to set_global and stores the value, submitting nothing |
| Delivery.PayAlgoServed | contracts/utility.py:150-166 | a pay_algo_txn request is routed to pay_algo, and the NFT application pays the beneficiary from its own address |
| Delivery.PayAssetServed | contracts/utility.py:170-187 | a pay_asset_txn request is routed to pay_asset, and the NFT application transfers the asset from its own address |
| Delivery.DelGlobalServed | contracts/utility.py:223-238 | a del_global_txn request is routed to remove_global and deletes exactly the named global |
| Delivery.UnregisteredCallerRejected | contracts/modules/nft_app.py:191-216 | a request from an application not registered under the module name is rejected |
| Delivery.SetGlobalGroupsServed | contracts/utility.py:191-219 | a run of set_global_txn requests that do not name ADMIN_ID leaves the NFT globals as ApplyWrites describes |
| Delivery.ApplyWritesUntouched | contracts/utility.py:191-219 | a key that no write names keeps its value and its presence |
| Delivery.ApplyWritesLast | contracts/utility.py:191-219 | the last write to a key decides what the key holds |
| Delivery.DeliverAppend | contracts/utility.py:191-219 | serving two outboxes one after the other is serving their concatenation |
| Delivery.PayAlgoGroupServed | contracts/utility.py:150-166 | one served pay_algo_txn group yields one payment from the NFT application |
| Delivery.PayAssetGroupServed | contracts/utility.py:170-187 | one served pay_asset_txn group yields one transfer from the NFT application |
| Delivery.DelGlobalGroupServed | contracts/utility.py:223-238 | one served del_global_txn group deletes the named global |
| Delivery.AlgoPayoutsServed | contracts/modules/list.py:196-237 | the four Algo payout requests of a sale yield the three payments and the NFT transfer |
| Delivery.UsdcPayoutsServed | contracts/modules/list.py:196-237 | the four USDC payout requests of a sale yield the three transfers and the NFT transfer |
| Delivery.SalePayoutsServed | contracts/modules/list.py:196-237 | in the sale currency the NFT application pays the platform fee, royalty and seller's share from its own account, hands one NFT unit to the buyer, and its state is unchanged |
| Delivery.SaleServed | contracts/modules/list.py:196-252 | a sale's payouts, then its writes, then the deletion of PAYMENT_OPTION, yield the payouts with the writes applied and PAYMENT_OPTION gone |
| Delivery.NftPayment | contracts/utility.py:71-85 | a payment sent from the NFT application's address to the receiver, for the amount |
| Delivery.NftTransfer | contracts/utility.py:129-146 | an asset transfer from the NFT application's address to the receiver, for the asset and amount |
| Sale.SplitSumsToPrice | contracts/modules/list.py:168-175 | when defined, the split's parts are the floored royalty, the floored fee and the remainder, and they add up to the price |
| Sale.SplitAbortsOnOverdraw | contracts/modules/list.py:168-175 | the split aborts iff royalty and fee together exceed the price |
| Sale.PercentAtMost | contracts/modules/list.py:168-175 | x·p/100 rounded down is at most x when p ≤ 100 |
| Sale.PercentSum | contracts/modules/list.py:168-175 | the two floored percentages add up to at most the floor of their sum |
| Sale.SplitDefinedWhenPercentagesFit | contracts/modules/list.py:168-175 | with royalty and fee at most 100 percent together, the split never aborts |
| Sale.PayoutsDeliverSplit | contracts/modules/list.py:196-237 | the payouts carry the split in the sale currency, and the NFT goes last, exactly one unit, to the buyer |
| Auction.ReadBid | contracts/modules/auction.py:150-161 | the bid is leg 0's amount in the auction's currency; a byte-string option aborts |
| Auction.RequestRefund | contracts/modules/auction.py:167-187 | returns the refund request on_bid builds, and submits one only for a positive standing bid |
| Auction.AuctionApp.Deploy | contracts/modules/auction.py:41-48 | commits exactly what deploy_contract specifies |
| Auction.AuctionApp.CreateAuction | contracts/modules/auction.py:52-110 | returns exactly what create_auction specifies |
| Auction.AuctionApp.OnBid | contracts/modules/auction.py:114-199 | returns exactly what on_bid specifies |
| Auction.AuctionApp.CloseUnsold | contracts/modules/auction.py:203-267 | returns exactly what the unsold closes specify |
| Auction.AuctionApp.CloseWinner | contracts/modules/auction.py:271-384 | returns exactly what close_auction_winner specifies |
| Auction.AuctionApp.CloseAuction | contracts/modules/auction.py:388-413 | returns exactly what close_auction specifies |
| Auction.AuctionApp.ChangeAdminId | contracts/modules/auction.py:417-429 | commits exactly what change_admin_id specifies |
| Auction.AuctionApp.UpdateApp | contracts/modules/auction.py:433-435 | returns exactly what update_app specifies |
| Auction.AuctionApp.Approve | contracts/modules/auction.py:438-473 | runs the dispatch and commits exactly what Approval specifies |
| Auction.CreateWritesEffect | contracts/modules/auction.py:52-110 | create_auction's writes set the start, end, increment, option and start price, zero CURRENT_BID, and leave owner, NFT, winner, ADMIN_ID and price |
| Auction.CreateWritesSet | contracts/modules/auction.py:52-110 | the six written fields hold what was written |
| Auction.CreateWritesKeep | contracts/modules/auction.py:52-110 | the unwritten fields keep their values |
| Auction.CreateAuctionOpens | contracts/modules/auction.py:52-110 | once served, the auction starts after now and ends after it starts, with the requested terms in ALGO or USDC and no bid; the owner (the caller), NFT and price are unchanged and nothing is paid |
| Auction.OnBidRules | contracts/modules/auction.py:114-199 | a bid is accepted only in ALGO or USDC, within [START, END), paid to the NFT application, positive, at least START_PRICE and at least CURRENT_BID + MIN_BID_INCREMENT |
| Auction.BidWritesEffect | contracts/modules/auction.py:114-199 | the two bid writes make the caller BIDDER_WINNER with its bid as CURRENT_BID, leaving owner, window and currency |
| Auction.OnBidDelivered | contracts/modules/auction.py:114-199 | once served, the caller is the winner with its bid, and the previous bidder was refunded in the auction currency exactly when the previous bid was positive |
| Auction.RefundServed | contracts/modules/auction.py:167-187 | the refund request, served, pays the standing bid back to BIDDER_WINNER in the auction currency |
| Auction.BidAndCloseExclusive | contracts/modules/auction.py:388-413 | no single instant admits both a bid and a close of the same auction |
| Auction.EndInstantStalls | contracts/modules/auction.py:388-413 | at END_AUCTION itself a started auction can neither take a bid nor be closed |
| Auction.UnsoldWritesEffect | contracts/modules/auction.py:203-267 | the unsold close zeroes the auction fields and clears BIDDER_WINNER, leaving owner, currency and price |
| Auction.CloseUnsoldDelivered | contracts/modules/auction.py:203-267 | only the NFT owner closes an unsold auction; the NFT returns to the owner and the auction fields are zeroed |
| Auction.WinnerWritesEffect | contracts/modules/auction.py:271-384 | the winner close zeroes the auction fields and makes the winner NFT_OWNER |
| Auction.WinnerOutboxServed | contracts/modules/auction.py:271-384 | the winner close's requests, served, make the payouts, zero the auction, transfer ownership and delete PAYMENT_OPTION |
| Auction.CloseWinnerShape | contracts/modules/auction.py:271-384 | an accepted winner close checked the creator, winner, admin account and NFT, that the end has passed and the split exists, and sends exactly the winner outbox |
| Auction.CloseWinnerDelivered | contracts/modules/auction.py:271-384 | once served, the bid is split into fee, royalty and the rest, which add up to the bid, and paid to the admin account, the creator and the caller; the winner gets the NFT and becomes owner |
| Auction.WithSender | contracts/modules/auction.py:271-384 | the same call made by another account |
| Auction.AnyCallerTakesSellerShare | contracts/modules/auction.py:271-384 | an accepted winner close resent by any account x is accepted too and pays the seller's Algo share to x |
| Auction.CloseWinnerToPaysSeller | contracts/modules/auction.py:271-384 | the seller-share request names the given seller and carries the seller's part of the split |
| Auction.CloseWinnerToIgnoresSender | contracts/modules/auction.py:271-384 | the requests of a winner close do not depend on who sends it |
| Auction.IntendedPaysOwner | contracts/modules/auction.py:271-384 | the corrected close pays the seller's share to the recorded NFT_OWNER, whoever sends it |
| Auction.AuctionStateWriters | contracts/modules/auction.py:438-473 | apart from creation, the module's own state changes only when an admin repoints ADMIN_ID |
| Auction.DeployRecords | contracts/modules/auction.py:41-49 | deploy_contract is approved iff applications[1] is given; it records it as ADMIN_ID and AUCTION_MODULE as MODULE_NAME, changes nothing else and is what a lone creation call without rekeying runs |
| Auction.UpdateOnlyOwner | contracts/modules/auction.py:433-435 | an update call is approved iff the sender is the OWNER of the application ADMIN_ID names (its own OWNER when ADMIN_ID is 0), and changes nothing |
| Auction.ChangeAdminIdRecords | contracts/modules/auction.py:417-430 | change_admin_id is approved iff applications[1] is given and the sender holds ADMIN_ROLE; ADMIN_ID then names applications[1] and nothing else changes |
| List.ListApp.Deploy | contracts/modules/list.py:36-43 | commits exactly what deploy_contract specifies |
| List.ListApp.StartSell | contracts/modules/list.py:47-98 | returns exactly what start_sell specifies |
| List.ListApp.RevertNft | contracts/modules/list.py:102-126 | returns exactly what revert_nft specifies |
| List.ListApp.PurchaseNft | contracts/modules/list.py:130-254 | returns exactly what purchase_nft specifies, with the admin account read as AppParam.address(ADMIN_ID), id 0 being this program |
| List.ListApp.ChangeAdminId | contracts/modules/list.py:258-270 | commits exactly what change_admin_id specifies |
| List.ListApp.UpdateApp | contracts/modules/list.py:274-276 | returns exactly what update_app specifies |
| List.ListApp.Approve | contracts/modules/list.py:279-314 | runs the dispatch and commits exactly what Approval specifies |
| List.ListingWritesEffect | contracts/modules/list.py:47-98 | start_sell's writes set price, fee and currency and leave the rest |
| List.StartSellLists | contracts/modules/list.py:47-98 | once served, the owner (the caller) has the NFT listed at the requested price in ALGO or USDC with the platform fee; nothing is paid |
| List.RevertReturnsNft | contracts/modules/list.py:102-126 | only the owner reverts; the NFT returns to the owner and NFT_PRICE becomes 0 |
| List.RevertWritesEffect | contracts/modules/list.py:102-126 | revert's one write zeroes NFT_PRICE and leaves the rest |
| List.PurchaseWritesEffect | contracts/modules/list.py:130-254 | a purchase's writes make the buyer NFT_OWNER and zero the price |
| List.PurchaseOutboxServed | contracts/modules/list.py:130-254 | a purchase's requests, served, make the payouts and apply the writes |
| List.PurchaseShape | contracts/modules/list.py:130-254 | an accepted purchase checked leg 0, the accounts and the split, and sends exactly the purchase outbox; accounts[2] is the admin program's account, or this program's own account when ADMIN_ID is 0 |
| List.PurchaseWithoutAdminNamesSelf | contracts/modules/list.py:138-178 | with ADMIN_ID 0, an accepted purchase names this program's own account as the admin account accounts[2] |
| List.PurchaseDelivered | contracts/modules/list.py:130-254 | once served, leg 0 paid exactly NFT_PRICE in the listing currency, the price split adds up and is paid out, and the buyer owns the NFT |
| List.AnyoneTakesUnpricedNft | contracts/modules/list.py:130-254 | once NFT_PRICE is 0 and the currency ALGO, anyone's zero-Algo purchase is approved and served: 0 paid out, the NFT's transfer to the caller requested, the caller made NFT_OWNER |
| List.UnpricedPurchaseAccepted | contracts/modules/list.py:130-254 | such a purchase passes every check and splits nothing |
| List.AuctionedNftTakenForFree | contracts/modules/list.py:130-254 | while an Algo auction runs, anyone can take the escrowed NFT through the list module for nothing |
| List.IntendedPurchaseNeedsPrice | contracts/modules/list.py:130-254 | the corrected purchase is accepted iff the one as written is and the price is positive, and then does the same |
| List.NewAdminIdNeverWritten | contracts/modules/list.py:279-314 | no handler of the list module writes NEW_ADMIN_ID |
| List.ChangeAdminIdDropsAdmin | contracts/modules/list.py:258-270 | change_admin_id always sets ADMIN_ID to 0 |
| List.IntendedChangeAdminIdRepoints | contracts/modules/list.py:258-270 | the corrected change_admin_id repoints ADMIN_ID at the named admin application, and only an admin can |
| List.DeployRecords | contracts/modules/list.py:36-43 | deploy_contract is approved iff applications[1] is given; it records it as ADMIN_ID and LIST_MODULE as MODULE_NAME, changes nothing else and is what a lone creation call without rekeying runs |
| List.UpdateOnlyOwner | contracts/modules/list.py:274-276 | an update call is approved iff the sender is the OWNER of the application ADMIN_ID names (its own OWNER when ADMIN_ID is 0), and changes nothing |
| Subscription.SubscribeTerms | contracts/modules/subscription_app.py:90-135 | the checks before a payout: an admin signed the terms, the subscriber is BASIC with its expiry passed, the new expiry lies ahead, the option is ALGO or USDC and leg 0 pays the amount |
| Subscription.SubscriptionApp.Deploy | contracts/modules/subscription_app.py:21-32 | commits exactly what deploy_contract specifies |
| Subscription.SubscriptionApp.UsdcAssetOptin | contracts/modules/subscription_app.py:36-56 | returns exactly what usdc_asset_optin specifies |
| Subscription.SubscriptionApp.ChangeAdminId | contracts/modules/subscription_app.py:60-72 | commits exactly what change_admin_id specifies |
| Subscription.SubscriptionApp.Optin | contracts/modules/subscription_app.py:76-86 | commits exactly what optin specifies |
| Subscription.SubscriptionApp.CheckTerms | contracts/modules/subscription_app.py:90-135 | returns exactly the terms SubscribeTerms approves |
| Subscription.SubscriptionApp.SubscribeAs | contracts/modules/subscription_app.py:90-149 | commits exactly what the plan's subscribe routine specifies (creator 90-149, referral 208-277, platform 346-405) |
| Subscription.SubscriptionApp.RenewAs | contracts/modules/subscription_app.py:153-204 | commits exactly what the plan's renew routine specifies (creator 153-204, referral 281-342, platform 409-460) |
| Subscription.SubscriptionApp.Subscribe | contracts/modules/subscription_app.py:464-481 | commits exactly what subscribe, dispatching on the mode, specifies |
| Subscription.SubscriptionApp.Renew | contracts/modules/subscription_app.py:485-500 | commits exactly what renew, dispatching on the mode, specifies |
| Subscription.SubscriptionApp.UpdateApp | contracts/modules/subscription_app.py:504-506 | returns exactly what update_app specifies |
| Subscription.SubscriptionApp.CloseOut | contracts/modules/subscription_app.py:531-538 | commits exactly what the close-out branch specifies |
| Subscription.SubscriptionApp.Approve | contracts/modules/subscription_app.py:509-538 | runs the dispatch and commits exactly what Approval specifies |
| Subscription.ShareTotalBounds | contracts/modules/subscription_app.py:107-108 | each floored share loses less than one unit |
| Subscription.SplitShortfall | contracts/modules/subscription_app.py:107-108 | shares that make up 100 percent pay out at most the amount, and less than one unit per share stays behind |
| Subscription.PoliciesAreWhole | contracts/modules/subscription_app.py:226-228 | each of the three policies (30/70, 50/10/40 and the platform's) distributes 100 percent |
| Subscription.PoolDepositMoves | contracts/utility.py:361-430 | a pool deposit moves exactly its amount |
| Subscription.PayoutsMoveShares | contracts/modules/subscription_app.py:90-405 | the inner groups of a policy move exactly its shares of the amount, in total |
| Subscription.MulPercentFits | contracts/modules/subscription_app.py:107-108 | a percentage share of a uint never exceeds it, so WideRatio is defined |
| Subscription.PayoutsDefined | contracts/modules/subscription_app.py:90-405 | the payouts never abort on arithmetic |
| Subscription.SubscribeForwardsPayment | contracts/modules/subscription_app.py:464-481 | an approved subscription forwards what leg 0 paid, less at most one unit per share |
| Subscription.RenewForwardsPayment | contracts/modules/subscription_app.py:485-500 | the same for a renewal |
| Subscription.UnknownModeRejected | contracts/modules/subscription_app.py:464-500 | a mode other than the three policies rejects both subscribe and renew |
| Subscription.SubscribeRules | contracts/modules/subscription_app.py:90-149 | a successful subscription demanded the terms and replaced exactly the subscriber's status, option, amount, duration and expiry |
| Subscription.RenewRules | contracts/modules/subscription_app.py:153-204 | a successful renewal changes only the subscriber's expiry, to the requested date |
| Subscription.RenewIgnoresExpiry | contracts/modules/subscription_app.py:153-204 | a renewal's outcome does not depend on the current expiry, so it may move the expiry earlier |
| Subscription.SubscribeOnce | contracts/modules/subscription_app.py:90-149 | an account that has subscribed can never subscribe again |
| Subscription.RenewKeepsPremium | contracts/modules/subscription_app.py:153-204 | a renewal keeps the subscriber PREMIUM |
| Subscription.OptinRecords | contracts/modules/subscription_app.py:76-86 | optin starts a subscriber as BASIC with expiry 0 and the creator's address, touching no other account |
| Subscription.OptinThenSubscribeStatus | contracts/modules/subscription_app.py:76-149 | a fresh subscriber can subscribe straight away |
| Subscription.OrdinaryUsdcPaymentRefused | contracts/modules/subscription_app.py:133 | a USDC payment made by an ordinary asset transfer (asset_sender is the zero address) is rejected |
| Subscription.IntendedUsdcPaymentAccepted | contracts/modules/subscription_app.py:133 | comparing the sender instead accepts that transfer when it moves the requested USDC to this program |
| Subscription.IntendedAgreesOnAlgo | contracts/modules/subscription_app.py:133 | the correction changes nothing for Algo payments |
| Subscription.UtilityAlwaysApproved | contracts/modules/subscription_app.py:511 | a UTILITY call is approved in any group and changes nothing |
| Subscription.ChangeAdminIdZeroes | contracts/modules/subscription_app.py:60-72 | change_admin_id sets ADMIN_ID to 0, since NEW_ADMIN_ID is never written |
| Subscription.NewAdminIdNeverWritten | contracts/modules/subscription_app.py:509-538 | every approved run leaves NEW_ADMIN_ID as it was |
| Subscription.DeployRecords | contracts/modules/subscription_app.py:21-32 | deploy_contract is approved iff applications[1], accounts[1] and assets[0] are given; it records them as ADMIN_ID, CREATOR_ADDRESS and USDC_ASSET_ID with SUBSCRIPTION_APP as MODULE_NAME, changes nothing else and runs for every creation call |
| Subscription.UsdcAssetOptinOnlyCreator | contracts/modules/subscription_app.py:36-57 | usdc_asset_optin is approved iff the sender is the program's creator and USDC_ASSET_ID holds a uint; it changes no state and opts the program into that asset |
| Subscription.DeployThenUsdcOptin | contracts/modules/subscription_app.py:21-57 | after deploy_contract, the creator's usdc_asset_optin opts the program into the asset the deployment named |
| Subscription.CloseOutDropsLocal | contracts/modules/subscription_app.py:536 | a close-out is approved iff the sender is opted in; its local state goes and nothing else changes |
| Subscription.UpdateOnlyOwner | contracts/modules/subscription_app.py:504-506 | an update call is approved iff the sender is the OWNER of the application ADMIN_ID names (its own OWNER when ADMIN_ID is 0), and changes nothing |
| Rewards.CheckDailyMax | contracts/modules/rewards_module.py:32-57 | returns the account entry _check_daily_max leaves, writing in source order |
| Rewards.RewardsApp.Deploy | contracts/modules/rewards_module.py:61-68 | commits exactly what deploy_contract specifies |
| Rewards.RewardsApp.Optin | contracts/modules/rewards_module.py:72-81 | commits exactly what optin specifies |
| Rewards.RewardsApp.ChangeAdminId | contracts/modules/rewards_module.py:85-97 | commits exactly what change_admin_id specifies |
| Rewards.RewardsApp.OptinNiftgenAsset | contracts/modules/rewards_module.py:101-118 | returns exactly what optin_niftgen_asset specifies |
| Rewards.RewardsApp.EmergencyWithdraw | contracts/modules/rewards_module.py:122-139 | returns exactly what emergency_withdraw specifies |
| Rewards.RewardsApp.IncreaseRewards | contracts/modules/rewards_module.py:143-162 | commits exactly what increase_rewards specifies |
| Rewards.RewardsApp.DecreaseRewards | contracts/modules/rewards_module.py:166-182 | commits exactly what decrease_rewards specifies |
| Rewards.RewardsApp.GetPendingRewards | contracts/modules/rewards_module.py:186-212 | commits exactly what get_pending_rewards specifies, requests in submission order; the fee receiver is AppParam.address(ADMIN_ID), id 0 being this program |
| Rewards.RewardsApp.UpdateApp | contracts/modules/rewards_module.py:216-218 | returns exactly what update_app specifies |
| Rewards.RewardsApp.Approve | contracts/modules/rewards_module.py:221-262 | runs the dispatch and commits exactly what Approval specifies |
| Rewards.WindowAccepts | contracts/modules/rewards_module.py:32-57 | the check accepts iff the tally is below the cap, the credit is at most the cap, and a credit past the cap does not come before DAILY_DATE |
| Rewards.WindowTally | contracts/modules/rewards_module.py:32-57 | after an accepted check the tally is at most the cap; the window restarts or the tally grows, and DAILY_DATE becomes the later of itself and now |
| Rewards.WindowNeverBinds | contracts/modules/rewards_module.py:32-57 | once DAILY_DATE is not in the future, every credit up to the cap is accepted, whatever came before |
| Rewards.SameSecondCredits | contracts/modules/rewards_module.py:32-57 | n credits of 20_000_000 in one second are all accepted |
| Rewards.CapExceededInOneSecond | contracts/modules/rewards_module.py:143-162 | from a fresh opt-in, three credits in one second add 60_000_000, two and a half times the cap |
| Rewards.WindowLocksAtCap | contracts/modules/rewards_module.py:32-57 | a tally exactly at the cap refuses every later credit, at any time |
| Rewards.FullCreditLocks | contracts/modules/rewards_module.py:32-57 | one credit of the whole cap after DAILY_DATE reaches that lock |
| Rewards.IntendedWithinCap | contracts/modules/rewards_module.py:32-57 | the intended one-day window keeps the tally within the cap |
| Rewards.IntendedAccumulates | contracts/modules/rewards_module.py:32-57 | inside an open window a credit adds to the tally, and is refused past the cap |
| Rewards.IntendedNeverLocks | contracts/modules/rewards_module.py:32-57 | an ended window never blocks: any credit up to the cap opens a new window |
| Rewards.IntendedWindowBounded | contracts/modules/rewards_module.py:32-57 | everything credited while one window is open adds up, with the old tally, to at most the cap |
| Rewards.IntendedRefusesSameSecond | contracts/modules/rewards_module.py:32-57 | the same three same-second credits are refused at the second under the intended window |
| Rewards.OptinRecords | contracts/modules/rewards_module.py:72-81 | opting in succeeds iff the account is new, and records zero rewards, fees and tally and the opt-in time |
| Rewards.IncreaseRewardsCredits | contracts/modules/rewards_module.py:143-162 | an accepted credit passed the window, added the amount to REWARDS_AMOUNT and CHANGE_FEE to FEES_TO_PAY, and touched only the beneficiary |
| Rewards.IncreaseRewardsKeepsCap | contracts/modules/rewards_module.py:143-162 | an accepted credit leaves the tally within the cap |
| Rewards.DecreaseRewardsDebits | contracts/modules/rewards_module.py:166-182 | an accepted debit subtracted the amount, added CHANGE_FEE and left the window alone |
| Rewards.DecreaseUnderflowAborts | contracts/modules/rewards_module.py:166-182 | a debit of more than the rewards aborts |
| Rewards.DecreaseUndoesIncrease | contracts/modules/rewards_module.py:143-182 | a debit of a credit restores REWARDS_AMOUNT; fees grow by two charges |
| Rewards.ClaimWithoutAdminPaysSelf | contracts/modules/rewards_module.py:193-206 | with ADMIN_ID 0, an accepted claim paid the owed fees to this program's own account |
| Rewards.ClaimSettles | contracts/modules/rewards_module.py:186-212 | an accepted claim paid exactly the owed fees to the admin account (this program's own account when ADMIN_ID is 0), claimed at most the rewards, leaves rewards minus the claim and no fees, and thaws, sends and refreezes |
| Rewards.ClaimOutboxShape | contracts/modules/rewards_module.py:186-212 | a thaw first exactly when the holding is frozen, then the transfer, always a freeze last |
| Rewards.ClaimNeedsFees | contracts/modules/rewards_module.py:186-212 | a claim whose leg 0 does not pay the owed fees is refused |
| Rewards.ClaimsNeverExceedRewards | contracts/modules/rewards_module.py:186-212 | two claims in a row take at most the rewards together |
| Rewards.EmergencyWithdrawAll | contracts/modules/rewards_module.py:122-139 | an emergency withdrawal changes nothing here and sends the whole holding |
| Rewards.OptinNiftgenAssetOnlyNiftgen | contracts/modules/rewards_module.py:101-118 | the opt-in is a zero transfer to itself of the admin's NIFTGEN_ASSET |
| Rewards.DeployNeedsLoneCall | contracts/modules/rewards_module.py:221-262 | creation needs a lone call without rekeying |
| Rewards.DeployRecords | contracts/modules/rewards_module.py:61-68 | deploy_contract is approved iff applications[1] is given; it records it as ADMIN_ID and REWARD_MODULE as MODULE_NAME, changes nothing else and is what a lone creation call without rekeying runs |
| Rewards.UpdateOnlyOwner | contracts/modules/rewards_module.py:216-218 | an update call is approved exactly for the OWNER of the admin program (its own OWNER when ADMIN_ID is 0), and changes nothing |
| Rewards.ChangeAdminIdZeroes | contracts/modules/rewards_module.py:85-97 | change_admin_id sets ADMIN_ID to 0, since NEW_ADMIN_ID is never written |
| Rewards.NewAdminIdNeverWritten | contracts/modules/rewards_module.py:221-262 | no handler writes NEW_ADMIN_ID |
| CreatorApp.CreatorAppProgram.Deploy | contracts/modules/creator_app.py:16-26 | commits exactly what deploy_contract specifies |
| CreatorApp.CreatorAppProgram.CreateAssetApp | contracts/modules/creator_app.py:30-69 | returns exactly what create_asset_app specifies |
| CreatorApp.CreateAssetAppWithOwnAdmin | contracts/modules/creator_app.py:30-69 | with ADMIN_ID 0 the admin id names this program: the spawn is approved iff the royalty is 1 to 50, an NFT is given, the sender is CREATOR_ADDRESS and this program's own USDC_ASSET_ID holds a uint, and it passes on admin id 0 and that USDC id |
| CreatorApp.CreatorAppProgram.UsdcAssetOptin | contracts/modules/creator_app.py:73-94 | commits exactly what usdc_asset_optin specifies |
| CreatorApp.CreatorAppProgram.ChangeAdminId | contracts/modules/creator_app.py:98-110 | commits exactly what change_admin_id specifies |
| CreatorApp.CreatorAppProgram.Optin | contracts/modules/creator_app.py:114-122 | commits exactly what optin specifies |
| CreatorApp.CreatorAppProgram.UpdateApp | contracts/modules/creator_app.py:126-128 | returns exactly what update_app specifies |
| CreatorApp.CreatorAppProgram.CloseOut | contracts/modules/creator_app.py:159 | commits exactly what the close-out branch specifies |
| CreatorApp.CreatorAppProgram.Approve | contracts/modules/creator_app.py:131-162 | runs the dispatch and commits exactly what Approval specifies |
| CreatorApp.DeployRecords | contracts/modules/creator_app.py:16-26 | creation succeeds iff an app and an account are given, and records the admin program, module name, creator and SUBSCRIPTION 0 |
| CreatorApp.OptinRecords | contracts/modules/creator_app.py:114-122 | opt-in succeeds iff the account is new, and records BASIC, expiry 0 and the creator |
| CreatorApp.UsdcAssetOptinOnlyCreator | contracts/modules/creator_app.py:73-94 | approved iff the recorded creator signs; USDC_ASSET_ID becomes the asset, opted in with a zero transfer |
| CreatorApp.CreateAssetAppGuards | contracts/modules/creator_app.py:30-69 | accepted only from the creator with royalty in [1, 50] and a USDC id in the admin program; it changes no state and requests the creation, then the funding |
| CreatorApp.CreateAssetAppAccepted | contracts/modules/creator_app.py:30-69 | a spawn is approved iff args[1] is a royalty from 1 to 50, an NFT is given, ADMIN_ID holds a uint, the sender is CREATOR_ADDRESS and the program ADMIN_ID names (this one for 0) holds a uint USDC_ASSET_ID |
| CreatorApp.RoyaltyOutOfRangeRefused | contracts/modules/creator_app.py:30-69 | a royalty of 0 or above 50 is refused |
| CreatorApp.SpawnDeploysNft | contracts/modules/creator_app.py:30-69 | the spawned NFT program's deploy_contract records exactly the royalty, owner, NFT, admin program and USDC id the creation call carries |
| CreatorApp.AnyoneMayUpdate | contracts/modules/creator_app.py:158 | every update call is approved and changes nothing |
| CreatorApp.IntendedUpdateOnlyOwner | contracts/modules/creator_app.py:126-128 | the corrected dispatch approves an update iff the sender is the admin program's OWNER |
| CreatorApp.IntendedDiffersOnlyOnUpdate | contracts/modules/creator_app.py:154-161 | the two dispatches agree on everything but updates |
| CreatorApp.CloseOutDropsLocal | contracts/modules/creator_app.py:159 | a close-out is approved iff the account is opted in, and removes exactly its local state |
| CreatorApp.ChangeAdminIdZeroes | contracts/modules/creator_app.py:98-110 | change_admin_id sets ADMIN_ID to 0, since NEW_ADMIN_ID is never written |
| CreatorPool.CreatorPoolApp.Deploy | contracts/creator_pool/creator_pool.py:31-34 | commits exactly what deploy_contract specifies |
| CreatorPool.CreatorPoolApp.AssetOptin | contracts/creator_pool/creator_pool.py:38-52 | commits exactly what asset_optin specifies |
| CreatorPool.CreatorPoolApp.IncreaseAssetPoolRewards | contracts/creator_pool/creator_pool.py:56-74 | commits exactly what increase_asset_pool_rewards specifies |
| CreatorPool.CreatorPoolApp.IncreasePoolRewards | contracts/creator_pool/creator_pool.py:78-95 | commits exactly what increase_pool_rewards specifies |
| CreatorPool.CreatorPoolApp.CalculateAssetRewards | contracts/creator_pool/creator_pool.py:109-132 | commits exactly what calculate_asset_rewards specifies |
| CreatorPool.CreatorPoolApp.CalculateAlgoRewards | contracts/creator_pool/creator_pool.py:136-156 | commits exactly what calculate_algo_rewards specifies |
| CreatorPool.CreatorPoolApp.WithdrawAssetReward | contracts/creator_pool/creator_pool.py:167-195 | returns exactly what withdraw_asset_reward specifies: a rejection, for every call |
| CreatorPool.CreatorPoolApp.WithdrawReward | contracts/creator_pool/creator_pool.py:199-222 | returns exactly what withdraw_reward specifies |
| CreatorPool.CreatorPoolApp.Approve | contracts/creator_pool/creator_pool.py:225-250 | runs the dispatch and commits exactly what Approval specifies |
| CreatorPool.CounterKeyDistinct | contracts/creator_pool/creator_pool.py:109-132 | the per-asset counter key differs from every other key the pool writes |
| CreatorPool.AssetOptinRecords | contracts/creator_pool/creator_pool.py:38-52 | approved iff an admin signs with an asset; its pooled balance becomes 0, opted in with a zero transfer |
| CreatorPool.IncreasePoolCredits | contracts/creator_pool/creator_pool.py:78-95 | a deposit is accepted only from an application created by the subscription module, and adds leg 0's Algo to ALGO_BALANCE and nothing else |
| CreatorPool.IncreaseAssetPoolCredits | contracts/creator_pool/creator_pool.py:56-74 | the asset deposit adds leg 0's amount to that asset's balance and nothing else |
| CreatorPool.DirectDepositRefused | contracts/creator_pool/creator_pool.py:56-95 | a deposit not made from an application is refused |
| CreatorPool.CalculateAlgoShares | contracts/creator_pool/creator_pool.py:136-163 | an accepted epoch: an admin signed, there is a verified creator, AMOUNT_ALGO is the floor of ALGO_BALANCE over their number, the counter moves by one, ALGO_BALANCE stays |
| CreatorPool.CalculateWithoutCreatorsAborts | contracts/creator_pool/creator_pool.py:109-163 | with no verified creator no epoch can be closed |
| CreatorPool.CalculateAssetLeavesCounter | contracts/creator_pool/creator_pool.py:109-132 | an asset epoch stores AMOUNT_<asset> but leaves the per-asset counter; WITHDRAW_ASSET_COUNTER gets it plus one |
| CreatorPool.AssetWithdrawRefusedAfterCalculate | contracts/creator_pool/creator_pool.py:167-195 | a creator whose per-asset counter is 0 cannot withdraw an asset share right after an epoch is closed, even with the counter update's flag passed as bytes |
| CreatorPool.IntendedAssetWithdrawAfterCalculate | contracts/creator_pool/creator_pool.py:109-195 | with the corrected counter and the flag passed as bytes, that creator receives the share and the pool asks the admin program to move its counter to 1 |
| CreatorPool.WithdrawRewardPays | contracts/creator_pool/creator_pool.py:199-222 | an accepted withdrawal: a verified creator whose counter differs from the epoch's; the state is unchanged, the share is paid and a counter update to old + 1 is requested |
| CreatorPool.IntendedAssetWithdrawPays | contracts/creator_pool/creator_pool.py:167-195 | with the flag passed as bytes, an accepted asset withdrawal comes from a verified creator whose counter differs from the pool's, changes no pool state, pays AMOUNT_<asset> and asks the admin program for counter + 1 |
| CreatorPool.AssetWithdrawalAlwaysAborts | contracts/creator_pool/creator_pool.py:186-192 | as written, no asset withdrawal is approved: the counter update carries the uint 1 among its application arguments |
| CreatorPool.DeployRecords | contracts/creator_pool/creator_pool.py:31-34 | deploy_contract is approved iff applications[1] is given; it records it as ADMIN_ID, changes nothing else and is what a lone creation call without rekeying runs |
| CreatorPool.WithdrawRewardGate | contracts/creator_pool/creator_pool.py:199-222 | a creator whose counter equals the epoch counter, or who is not verified, withdraws nothing |
| CreatorPool.SecondEpochRepeatsShare | contracts/creator_pool/creator_pool.py:136-156 | a second epoch with no deposit in between offers the same share again |
| CreatorPool.IntendedEpochConserves | contracts/creator_pool/creator_pool.py:136-156 | with the shares taken out, what is promised plus what is left is exactly the old balance |
| CreatorPool.IntendedEpochOnRemainder | contracts/creator_pool/creator_pool.py:136-156 | an intended epoch over less than one unit per creator offers nothing |
| CreatorPool.IntendedSecondEpochEmpty | contracts/creator_pool/creator_pool.py:136-156 | with the shares taken out, a second epoch with no deposits offers nothing |
| CreatorPool.OnlyCreationAndCalls | contracts/creator_pool/creator_pool.py:238-248 | opt-in, update, close-out and delete are all rejected |
| PoolDelivery.InnerGroupCall | contracts/utility.py:330-357 | the callee's view of transaction i of an inner group from the calling application |
| PoolDelivery.WithdrawRewardRequestsCounter | contracts/creator_pool/creator_pool.py:199-222 | withdraw_reward's second group is the SET_LOCAL request for WITHDRAW_ALGO_COUNTER at the creator's counter plus one |
| PoolDelivery.CounterRequestRunsChangeOwnership | contracts/utility.py:330-357 | the admin program routes the pool's counter request to change_ownership: rejected unless the pool's address is the OWNER, and then it hands OWNER to the creator |
| PoolDelivery.IntendedCounterRequestStored | contracts/utility.py:330-357 | under the intended dispatch the request reaches set_local and stores the counter iff the pool is registered under CREATOR_POOL and the creator has opted in |
| PoolDelivery.AssetDepositRejectedByAdmin | contracts/utility.py:379-390 | the asset deposit's INCREASE_ASSET_POOL_REWARDS call is addressed to the admin application, which rejects it |
| PoolDelivery.IntendedAssetDepositCredited | contracts/utility.py:361-394 | the corrected call reaches the pool's increase_asset_pool_rewards, which credits the amount iff the caller is the subscription module's application and the balance fits |
| PoolDelivery.DepositRouted | contracts/creator_pool/creator_pool.py:225-236 | a deposit group (payment or transfer to the pool, then a lone-tagged call from the same account) is routed to the matching pool handler |
| PoolDelivery.AlgoDepositCredited | contracts/utility.py:398-430 | the Algo deposit reaches increase_pool_rewards, which credits ALGO_BALANCE under the same conditions |

## Left out

- Logging: the `Log` calls and logger helpers in the source have no counterpart; they change no state.
- Clear-state programs, state schemas and compilation (`compile_contracts.py`) are not part of this model.
- `contracts/modules/subscription_module.py` and `contracts/modules/nft_hub.py` are not part of this model.
- TEAL's runtime type checks are not modelled: a stored value of the wrong type is read with the
  operation's meaning (for example, remove_module deletes the key equal to the stored id), where the
  AVM would abort. An argument built with `Itob(n)` and the uint `n` are both written `Int(n)`. The one
  exception is the uint flag of withdraw_asset_reward's counter update, which is in the Findings.
- An application id taken from the foreign-application array or from an argument is looked up on the
  ledger as given. The AVM reads the running program for id 0 and takes an id no larger than the
  array's length as an offset into it. Only ids read from ADMIN_ID or from the admin's module
  registry, and Global.caller_app_id(), are resolved to the running program when they are 0. This
  covers both the global reads and `AppParam.address` (`Avm.AppAddressEx`).
- Delivery: the delivery lemmas take an admin application other than 0. With ADMIN_ID 0 the NFT
  application would look up the module registration in its own globals.
- Account holdings are not modelled. A requested transfer of the NFT goes through on the ledger only if
  the sending account holds the unit. List.AnyoneTakesUnpricedNft shows the approval, and the NFT
  application holds the unit while an auction escrows it (List.AuctionedNftTakenForFree).
- AssetsOptinNeedsRoleOne: the numeric values of ADMIN_ROLE and USER_ROLE are in a constants file
  that is not part of this model. Its second half is stated for role constants other than the uint 1.
  If either role is 1, only the first half applies.
- The ledger outside each program is a parameter of the call: balances, holdings, asset parameters,
  other programs' globals and locals, application addresses and creators, and the id the next created
  application receives (`ledger.nextAppId`).
- Transaction fees, minimum balances, fee pooling and the availability of foreign accounts, assets and
  applications are not modelled.
- An amount given as a symbolic integer constant (`Const`) aborts where the source uses it in arithmetic.
  The numeric values of these constants are not fixed here.
- Inner transactions are collected in an outbox, group by group. Only the deliveries that the lemmas in
  `Delivery` and `PoolDelivery` name are composed with the receiving program. The rest of the effect on
  the ledger happens outside this model.
- The auction, list and subscription modules' `update_app`, like every other `update_app`, is modelled
  only as its approval check. The installed program is not.
- The NFT application's `delete_app` is modelled as its admin check and the refund of a standing bid.
  The deletion of the program and of its state is not.
- Cancel, refund and freeze subscription checkers are modelled as checkers. Their handlers live in
  `subscription_module.py`, which is not part of this model.
- The `...Intended...` definitions are side definitions used only by the corrected lemmas. Every
  program's `Approval` stays the code as written.

## Findings

| source | as written | input that shows it | evidently intended | confidence | as-written member | corrected member |
|---|---|---|---|---|---|---|
| contracts/modules/auction.py:271-384 | close_auction_winner pays the seller's share to Txn.sender, and close_auction_checker does not check the sender | any account sends the close of an auction that has a winner, once END_AUCTION has passed | the seller's share goes to the recorded NFT_OWNER | not executed | Auction.AnyCallerTakesSellerShare | Auction.IntendedPaysOwner |
| contracts/modules/list.py:130-254 | purchase_nft accepts leg 0 paying exactly NFT_PRICE, even when NFT_PRICE is 0 | an NFT under a running Algo auction, which create_auction escrows with its NFT application without setting NFT_PRICE, bought through the list module with a 0-Algo payment | a purchase needs a positive listed price | not executed | List.AuctionedNftTakenForFree | List.IntendedPurchaseNeedsPrice |
| contracts/modules/list.py:258-270 | change_admin_id copies NEW_ADMIN_ID, which no handler writes | an admin calls change_admin_id on a fresh module | ADMIN_ID becomes the admin application the call names | not executed | List.ChangeAdminIdDropsAdmin | List.IntendedChangeAdminIdRepoints |
| contracts/modules/subscription_app.py:133 | the USDC payment check compares Gtxn[0].asset_sender with the sender | an ordinary USDC transfer, whose asset_sender is the zero address | compare Gtxn[0].sender with the sender | not executed | Subscription.OrdinaryUsdcPaymentRefused | Subscription.IntendedUsdcPaymentAccepted |
| contracts/modules/rewards_module.py:32-57 | the daily window compares now with DAILY_DATE and adds no day length | three credits of 20_000_000 in one second after opt-in | a one-day window, so the tally stays within 24_000_000 per day | not executed | Rewards.CapExceededInOneSecond | Rewards.IntendedRefusesSameSecond |
| contracts/modules/rewards_module.py:32-57 | a tally equal to the cap fails `daily_amount < cap` forever | one credit of 24_000_000 after DAILY_DATE, then any later credit | a day-old tally restarts the window | not executed | Rewards.WindowLocksAtCap | Rewards.IntendedNeverLocks |
| contracts/creator_pool/creator_pool.py:109-132 | calculate_asset_rewards increments WITHDRAW_ASSET_COUNTER but withdrawals compare the per-asset counter | close an asset epoch, then a verified creator with counter 0 withdraws | the epoch advances the counter withdrawals compare with | not executed | CreatorPool.AssetWithdrawRefusedAfterCalculate | CreatorPool.IntendedAssetWithdrawAfterCalculate |
| contracts/creator_pool/creator_pool.py:186-192 | withdraw_asset_reward passes the uint Int(1) as set_admin_local_txn's flag, which goes into application_args | any verified creator whose per-asset counter differs from the pool's asks to withdraw | pass Itob(Int(1)), as withdraw_reward does at creator_pool.py:219 | not executed | CreatorPool.AssetWithdrawalAlwaysAborts | CreatorPool.IntendedAssetWithdrawPays |
| contracts/creator_pool/creator_pool.py:136-156 | calculate_algo_rewards never reduces ALGO_BALANCE by the shares it promises | two epochs closed with no deposit in between | the promised shares are taken out of the pooled balance | not executed | CreatorPool.SecondEpochRepeatsShare | CreatorPool.IntendedSecondEpochEmpty |
| contracts/modules/creator_app.py:158 | the UpdateApplication branch returns 1 before the update_app branch | any account sends an update call | only the admin program's OWNER may update | not executed | CreatorApp.AnyoneMayUpdate | CreatorApp.IntendedUpdateOnlyOwner |
| contracts/admin.py:275-282 | the change_ownership branch is guarded by set_local_checker, and set_local is never dispatched | a lone call tagged SET_LOCAL, or a lone call tagged CHANGE_OWNERSHIP | each handler is guarded by its own checker | not executed | Admin.SetLocalRequestRunsChangeOwnership | Admin.IntendedSetLocalReached |
| contracts/utility.py:379-390 | increase_asset_pool_creator sends INCREASE_ASSET_POOL_REWARDS to admin_id, not to the creator pool | a subscription paid in USDC, with referral | the call goes to the creator pool application | not executed | PoolDelivery.AssetDepositRejectedByAdmin | PoolDelivery.IntendedAssetDepositCredited |

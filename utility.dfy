/**
 * contracts/utility.py: the inner transactions the programs submit and the
 * two role checks they share.  A builder yields the inner group it submits,
 * or None when one of the values it reads faults (a stored admin id that is
 * not a uint, a foreign-array index past the end).
 */
module Utility {
  import opened Avm
  import opened Constants

  /** inner_payment_transaction: a payment from this application's account. */
  function InnerPayment(c: Call, receiver: Address, amount: U64): Txn
  {
    BlankTxn(Payment, SelfAddress(c)).(receiver := receiver, amount := amount)
  }

  /** inner_asset_transaction: an asset transfer from this application's account. */
  function InnerAssetTransfer(c: Call, receiver: Address, asset: U64, amount: U64): Txn
  {
    BlankTxn(AssetTransfer, SelfAddress(c)).(assetReceiver := receiver, xferAsset := asset, assetAmount := amount)
  }

  /** inner_freeze_subscription / inner_unfreeze_subscription. */
  function InnerFreeze(c: Call, account: Address, asset: U64, frozen: bool): Txn
  {
    BlankTxn(AssetFreeze, SelfAddress(c)).(freezeAsset := asset, freezeAccount := account, frozen := frozen)
  }

  /** An application call from this application's account. */
  function InnerAppCall(c: Call, app: U64, args: seq<Value>, accounts: seq<Address>, assets: seq<U64>, apps: seq<U64>): Txn
  {
    BlankTxn(ApplicationCall, SelfAddress(c)).(appId := app, args := args, accounts := accounts, assets := assets, apps := apps)
  }

  /** A global of another application, here an NFT application, read with App.globalGetEx(nftApp, key). */
  function Field(c: Call, nftApp: U64, key: Value): Value
  {
    GlobalOf(c.ledger, nftApp, key)
  }

  /** App.globalGet(ADMIN_ID) used as an application id. */
  function AdminIdOf(global: Store): Option<U64>
  {
    AsUInt(Get(global, ADMIN_ID))
  }

  /** pay_algo_txn once ADMIN_ID has been read: a PAY_ALGO request to NFT application `app`. */
  function PayAlgoCall(c: Call, adminId: U64, app: U64, beneficiary: Address, amount: U64, moduleName: Value): Txn
  {
    InnerAppCall(c, app, [PAY_ALGO, moduleName, Int(amount)], [beneficiary], [], [adminId])
  }

  /** pay_algo_txn: asks NFT application `app` to pay `amount` microalgos to `beneficiary` on behalf of `moduleName`. */
  function PayAlgoTxn(c: Call, global: Store, app: U64, beneficiary: Address, amount: U64, moduleName: Value): Option<Txn>
  {
    var adminId :- AdminIdOf(global);
    Some(PayAlgoCall(c, adminId, app, beneficiary, amount, moduleName))
  }

  /** pay_asset_txn once ADMIN_ID has been read. */
  function PayAssetCall(c: Call, adminId: U64, app: U64, beneficiary: Address, asset: U64, amount: U64, moduleName: Value): Txn
  {
    InnerAppCall(c, app, [PAY_ASSET, moduleName, Int(amount)], [beneficiary], [asset], [adminId])
  }

  /** pay_asset_txn: asks NFT application `app` to transfer `amount` of `asset` to `beneficiary`. */
  function PayAssetTxn(c: Call, global: Store, app: U64, beneficiary: Address, asset: U64, amount: U64, moduleName: Value): Option<Txn>
  {
    var adminId :- AdminIdOf(global);
    Some(PayAssetCall(c, adminId, app, beneficiary, asset, amount, moduleName))
  }

  /** One global write requested through set_global_txn: key, value and flag (0 for bytes, otherwise Btoi). */
  datatype GlobalWrite = GlobalWrite(name: Value, value: Value, flag: Value)

  /** set_global_txn once ADMIN_ID has been read. */
  function SetGlobalCall(c: Call, adminId: U64, app: U64, moduleName: Value, w: GlobalWrite): Txn
  {
    InnerAppCall(c, app, [SET_GLOBAL, moduleName, w.name, w.value, w.flag], [], [], [adminId])
  }

  /** set_global_txn: asks NFT application `app` to store `value` under `name`; `flag` 0 means bytes, otherwise Btoi. */
  function SetGlobalTxn(c: Call, global: Store, app: U64, moduleName: Value, name: Value, value: Value, flag: Value): Option<Txn>
  {
    var adminId :- AdminIdOf(global);
    Some(SetGlobalCall(c, adminId, app, moduleName, GlobalWrite(name, value, flag)))
  }

  /** Consecutive set_global_txn calls, each submitted as its own inner group. */
  function SetGlobalGroups(c: Call, adminId: U64, app: U64, moduleName: Value, ws: seq<GlobalWrite>): (o: Outbox)
    ensures |o| == |ws|
    ensures forall i :: 0 <= i < |ws| ==> o[i] == [SetGlobalCall(c, adminId, app, moduleName, ws[i])]
  {
    seq(|ws|, i requires 0 <= i < |ws| => [SetGlobalCall(c, adminId, app, moduleName, ws[i])])
  }

  /** Submits the set_global_txn calls for ws one after another, after the groups already in `outbox`. */
  method SubmitSetGlobals(c: Call, adminId: U64, app: U64, moduleName: Value, ws: seq<GlobalWrite>, outbox: Outbox)
    returns (o: Outbox)
    ensures o == outbox + SetGlobalGroups(c, adminId, app, moduleName, ws)
  {
    o := outbox;
    var i := 0;
    while i < |ws|
      invariant 0 <= i <= |ws|
      invariant o == outbox + SetGlobalGroups(c, adminId, app, moduleName, ws[..i])
    {
      o := o + [[SetGlobalCall(c, adminId, app, moduleName, ws[i])]];
      i := i + 1;
    }
    assert ws[..i] == ws;
  }

  /** del_global_txn once ADMIN_ID has been read. */
  function DelGlobalCall(c: Call, adminId: U64, app: U64, moduleName: Value, name: Value): Txn
  {
    InnerAppCall(c, app, [DEL_GLOBAL, moduleName, name], [], [], [adminId])
  }

  /** del_global_txn: asks NFT application `app` to delete its global `name`. */
  function DelGlobalTxn(c: Call, global: Store, app: U64, moduleName: Value, name: Value): Option<Txn>
  {
    var adminId :- AdminIdOf(global);
    Some(DelGlobalCall(c, adminId, app, moduleName, name))
  }

  /** set_admin_local_txn once ADMIN_ID has been read: a SET_LOCAL request to the admin application, tagged CREATOR_POOL. */
  function SetAdminLocalCall(c: Call, adminId: U64, beneficiary: Address, name: Value, value: Value, flag: Value): Txn
  {
    InnerAppCall(c, adminId, [SET_LOCAL, CREATOR_POOL, name, value, flag], [beneficiary], [], [])
  }

  /** set_admin_local_txn: a SET_LOCAL request to the admin application for `beneficiary`'s local `name`. */
  function SetAdminLocalTxn(c: Call, global: Store, beneficiary: Address, name: Value, value: Value, flag: Value): Option<Txn>
  {
    var adminId :- AdminIdOf(global);
    Some(SetAdminLocalCall(c, adminId, beneficiary, name, value, flag))
  }

  /**
   * increase_asset_pool_creator: one inner group of an asset transfer to
   * the creator pool's address and an INCREASE_ASSET_POOL_REWARDS call that
   * is addressed to the admin application (not to the creator pool).
   */
  function IncreaseAssetPoolCreator(c: Call, global: Store, poolAddress: Address, asset: U64, amount: U64): Option<seq<Txn>>
  {
    var adminId :- AdminIdOf(global);
    var app3 :- App(c.Current(), 3);
    var app4 :- App(c.Current(), 4);
    Some([InnerAssetTransfer(c, poolAddress, asset, amount),
          InnerAppCall(c, adminId, [INCREASE_ASSET_POOL_REWARDS], [], [], [adminId, app3, app4])])
  }

  /**
   * increase_asset_pool_creator as evidently intended: the same inner group,
   * with the INCREASE_ASSET_POOL_REWARDS call addressed, as in the Algo
   * counterpart, to the application the admin registered under CREATOR_POOL.
   */
  function IncreaseAssetPoolCreatorIntended(c: Call, global: Store, poolAddress: Address, asset: U64, amount: U64): Option<seq<Txn>>
  {
    var adminId :- AdminIdOf(global);
    var pool :- AsUInt(GlobalEx(c.ledger, global, adminId, CREATOR_POOL));
    var app3 :- App(c.Current(), 3);
    var app4 :- App(c.Current(), 4);
    Some([InnerAssetTransfer(c, poolAddress, asset, amount),
          InnerAppCall(c, pool, [INCREASE_ASSET_POOL_REWARDS], [], [], [adminId, app3, app4])])
  }

  /**
   * increase_algo_pool_creator: one inner group of a payment to the creator
   * pool's address and an INCREASE_ALGO_POOL call to the application the
   * admin registered under CREATOR_POOL.
   */
  function IncreaseAlgoPoolCreator(c: Call, global: Store, poolAddress: Address, amount: U64): Option<seq<Txn>>
  {
    var adminId :- AdminIdOf(global);
    var pool :- AsUInt(GlobalEx(c.ledger, global, adminId, CREATOR_POOL));
    var app3 :- App(c.Current(), 3);
    var app4 :- App(c.Current(), 4);
    Some([InnerPayment(c, poolAddress, amount),
          InnerAppCall(c, pool, [INCREASE_ALGO_POOL], [], [], [adminId, app3, app4])])
  }

  /**
   * _check_admin_role, run by the program in state `st`: `account` holds
   * ADMIN_ROLE in the local state the application named by ADMIN_ID keeps
   * for it (with ADMIN_ID 0 or missing, the running program's own).
   */
  predicate AdminRole(c: Call, st: AppState, account: Address)
  {
    var adminId := AdminIdOf(st.global);
    adminId.Some? && LocalEx(c.ledger, st.local, account, adminId.value, ROLE) == Const(ADMIN_ROLE)
  }

  /**
   * _check_owner_role: the sender is the OWNER recorded by the application
   * named by ADMIN_ID (with ADMIN_ID 0 or missing, the running program's own).
   */
  predicate OwnerRole(c: Call, global: Store)
  {
    var adminId := AdminIdOf(global);
    adminId.Some? && GlobalEx(c.ledger, global, adminId.value, OWNER) == Bytes(Sender(c))
  }
}

/**
 * contracts/modules/nft_app.py: the per-NFT application.  It records the
 * NFT, its owner and creator, the royalty and the admin application, holds
 * the NFT and the bid currency, and serves the modules registered with the
 * admin: they write and delete its globals and make it pay out.
 */
module Nft {
  import opened Avm
  import opened Constants
  import opened Checkers
  import opened Utility

  datatype Op = Deploy | SetGlobal | PayAlgo | PayAsset | RemoveGlobal | ChangeAdminId | OptInAssets | DeleteApp | UpdateApp

  /** handle_noop: the checkers in source order. */
  function NoOpBranches(c: Call): seq<(Option<bool>, Op)>
  {
    [ (SetGlobalChecker(c), SetGlobal),
      (PayAlgoChecker(c), PayAlgo),
      (PayAssetChecker(c), PayAsset),
      (DelGlobalChecker(c), RemoveGlobal),
      (ChangeAdminIdChecker(c), ChangeAdminId),
      (OptInAssetsChecker(c), OptInAssets) ]
  }

  /** The handler nft_app_approval runs, or None when the dispatch rejects. */
  function Route(c: Call): Option<Op>
  {
    var t := c.Current();
    if t.appId == 0 && |c.group| == 1 && NoRekey(c) then Some(Deploy)
    else if t.onCompletion == NoOp then FirstMatch(NoOpBranches(c))
    else if t.onCompletion == DeleteApplication then Some(DeleteApp)
    else if t.onCompletion == UpdateApplication then Some(UpdateApp)
    else None
  }

  // ---------------------------------------------------------------- handler specifications

  /**
   * The asset deploy_contract accepts: a non-default-frozen single unit
   * with no decimals, no clawback and no freeze address, managed by the
   * admin application's account.
   */
  predicate IsPlatformNft(c: Call, nft: U64, admin: U64)
  {
    var p := c.ledger.assetParams(nft);
    !p.defaultFrozen && p.clawback == ZeroAddress && p.freeze == ZeroAddress &&
    p.manager == c.ledger.appAddress(admin) && p.decimals == 0 && p.total == 1
  }

  /**
   * deploy_contract: created by a creator application whose CREATOR_ADDRESS
   * is the NFT owner accounts[1]; records ADMIN_ID, NFT_ID, NFT_OWNER,
   * NFT_CREATOR (the asset's creator), ROYALTY and USDC_ASSET_ID.
   */
  function DeploySpec(st: AppState, c: Call): Run
  {
    var t := c.Current();
    var royalty :- ArgUInt(t, 0);
    var admin :- App(t, 1);
    var owner :- Account(t, 1);
    var nft :- Asset(t, 0);
    var usdc :- Asset(t, 1);
    var _ :- Assert(GlobalEx(c.ledger, st.global, c.callerApp, CREATOR_ADDRESS) == Bytes(owner));
    var _ :- Assert(IsPlatformNft(c, nft, admin));
    var g := st.global[ADMIN_ID := Int(admin)][NFT_ID := Int(nft)][NFT_OWNER := Bytes(owner)]
               [NFT_CREATOR := Bytes(c.ledger.assetParams(nft).creator)][ROYALTY := royalty][USDC_ASSET_ID := Int(usdc)];
    Some(Step(st.(global := g), []))
  }

  /** opt_in_assets: with the stored NFT, admin and USDC ids confirmed, the program opts into the NFT and USDC. */
  function OptInAssetsSpec(st: AppState, c: Call): Run
  {
    var t := c.Current();
    var nft :- Asset(t, 0);
    var usdc :- Asset(t, 1);
    var admin :- App(t, 1);
    var _ :- Assert(Get(st.global, NFT_ID) == Int(nft));
    var _ :- Assert(Int(admin) == Get(st.global, ADMIN_ID));
    var _ :- Assert(Int(usdc) == Get(st.global, USDC_ASSET_ID));
    Some(Step(st, [[InnerAssetTransfer(c, SelfAddress(c), nft, 0), InnerAssetTransfer(c, SelfAddress(c), usdc, 0)]]))
  }

  /** delete_app: an admin deletes the program; a standing bid CURRENT_BID is refunded to BIDDER_WINNER. */
  function DeleteAppSpec(st: AppState, c: Call): Run
  {
    var _ :- Assert(AdminRole(c, st, Sender(c)));
    var bid :- AsUInt(Get(st.global, CURRENT_BID));
    if bid > 0 then
      var winner :- AsAddress(Get(st.global, BIDDER_WINNER));
      Some(Step(st, [[InnerPayment(c, winner, bid)]]))
    else
      Some(Step(st, []))
  }

  /**
   * The guard of the module-facing handlers: applications[1] is the stored
   * ADMIN_ID and the calling application is the one that admin registered
   * under the module name args[1].
   */
  predicate FromRegisteredModule(st: AppState, c: Call, moduleName: Value)
  {
    var t := c.Current();
    |t.apps| >= 1 && Get(st.global, ADMIN_ID) == Int(t.apps[0]) &&
    c.callerApp != 0 && GlobalEx(c.ledger, st.global, t.apps[0], moduleName) == Int(c.callerApp)
  }

  /** pay_algo: a registered module has the program pay Btoi(args[2]) microalgos to accounts[1]. */
  function PayAlgoSpec(st: AppState, c: Call): Run
  {
    var t := c.Current();
    var moduleName :- Arg(t, 1);
    var beneficiary :- Account(t, 1);
    var amountV :- ArgUInt(t, 2);
    var amount :- AsUInt(amountV);
    var _ :- Assert(FromRegisteredModule(st, c, moduleName));
    Some(Step(st, [[InnerPayment(c, beneficiary, amount)]]))
  }

  /** pay_asset: a registered module has the program transfer Btoi(args[2]) of assets[0] to accounts[1]. */
  function PayAssetSpec(st: AppState, c: Call): Run
  {
    var t := c.Current();
    var moduleName :- Arg(t, 1);
    var amountV :- ArgUInt(t, 2);
    var amount :- AsUInt(amountV);
    var asset :- Asset(t, 0);
    var receiver :- Account(t, 1);
    var _ :- Assert(FromRegisteredModule(st, c, moduleName));
    Some(Step(st, [[InnerAssetTransfer(c, receiver, asset, amount)]]))
  }

  /** What set_global stores for a value and flag: the bytes as given when the flag is 0, otherwise Btoi of them. */
  function StoredValue(value: Value, flag: Value): Option<Value>
  {
    if flag == Int(0) then Some(value) else BtoiArg(value)
  }

  /** set_global: a registered module stores args[3] under args[2]; flag args[4] 0 keeps the bytes, any other flag stores Btoi. */
  function SetGlobalSpec(st: AppState, c: Call): Run
  {
    var t := c.Current();
    var moduleName :- Arg(t, 1);
    var name :- Arg(t, 2);
    var value :- Arg(t, 3);
    var flag :- ArgUInt(t, 4);
    var _ :- Assert(FromRegisteredModule(st, c, moduleName));
    var stored :- StoredValue(value, flag);
    Some(Step(st.(global := st.global[name := stored]), []))
  }

  /** remove_global: a registered module deletes the global args[2]. */
  function RemoveGlobalSpec(st: AppState, c: Call): Run
  {
    var t := c.Current();
    var moduleName :- Arg(t, 1);
    var name :- Arg(t, 2);
    var _ :- Assert(FromRegisteredModule(st, c, moduleName));
    Some(Step(st.(global := st.global - {name}), []))
  }

  /** change_admin_id: an admin replaces ADMIN_ID by the global NEW_ADMIN_ID (the uint 0 while unset). */
  function ChangeAdminIdSpec(st: AppState, c: Call): Run
  {
    var _ :- Assert(AdminRole(c, st, Sender(c)));
    Some(Step(st.(global := st.global[ADMIN_ID := Get(st.global, NEW_ADMIN_ID)]), []))
  }

  /** update_app: approved for the OWNER of the admin application. */
  function UpdateAppSpec(st: AppState, c: Call): Run
  {
    var _ :- Assert(OwnerRole(c, st.global));
    Some(Step(st, []))
  }

  function Perform(op: Op, st: AppState, c: Call): Run
  {
    match op
    case Deploy => DeploySpec(st, c)
    case SetGlobal => SetGlobalSpec(st, c)
    case PayAlgo => PayAlgoSpec(st, c)
    case PayAsset => PayAssetSpec(st, c)
    case RemoveGlobal => RemoveGlobalSpec(st, c)
    case ChangeAdminId => ChangeAdminIdSpec(st, c)
    case OptInAssets => OptInAssetsSpec(st, c)
    case DeleteApp => DeleteAppSpec(st, c)
    case UpdateApp => UpdateAppSpec(st, c)
  }

  /** One run of nft_app_approval. */
  function Approval(st: AppState, c: Call): Run
  {
    var op :- Route(c);
    Perform(op, st, c)
  }

  // ---------------------------------------------------------------- the program object

  class NftApp {
    var global: Store
    var local: map<Address, Store>

    constructor ()
      ensures global == map[] && local == map[]
    {
      global := map[];
      local := map[];
    }

    function State(): AppState
      reads this
    {
      AppState(global, local)
    }

    /** The module-registration guard, evaluated on the current globals. */
    method CheckModule(c: Call) returns (ok: bool)
      ensures ok == (|c.Current().args| >= 2 && FromRegisteredModule(State(), c, c.Current().args[1]))
    {
      var t := c.Current();
      if |t.args| < 2 || |t.apps| < 1 || Get(global, ADMIN_ID) != Int(t.apps[0]) || c.callerApp == 0 {
        return false;
      }
      ok := GlobalEx(c.ledger, global, t.apps[0], t.args[1]) == Int(c.callerApp);
    }

    method Deploy(c: Call) returns (r: Outcome)
      modifies this
      ensures Commits(old(State()), DeploySpec(old(State()), c), State(), r)
    {
      var t := c.Current();
      if |t.args| < 1 || |t.apps| < 1 || |t.accounts| < 1 || |t.assets| < 2 {
        return Reject;
      }
      var royalty := BtoiArg(t.args[0]);
      if royalty.None? {
        return Reject;
      }
      var admin, owner, nft := t.apps[0], t.accounts[0], t.assets[0];
      if GlobalEx(c.ledger, global, c.callerApp, CREATOR_ADDRESS) != Bytes(owner) || !IsPlatformNft(c, nft, admin) {
        return Reject;
      }
      global := global[ADMIN_ID := Int(admin)];
      global := global[NFT_ID := Int(nft)];
      global := global[NFT_OWNER := Bytes(owner)];
      global := global[NFT_CREATOR := Bytes(c.ledger.assetParams(nft).creator)];
      global := global[ROYALTY := royalty.value];
      global := global[USDC_ASSET_ID := Int(t.assets[1])];
      return Accept([]);
    }

    method OptInAssets(c: Call) returns (r: Outcome)
      modifies this
      ensures Commits(old(State()), OptInAssetsSpec(old(State()), c), State(), r)
    {
      var t := c.Current();
      if |t.assets| < 2 || |t.apps| < 1 {
        return Reject;
      }
      if Get(global, NFT_ID) != Int(t.assets[0]) || Int(t.apps[0]) != Get(global, ADMIN_ID) || Int(t.assets[1]) != Get(global, USDC_ASSET_ID) {
        return Reject;
      }
      var group := [InnerAssetTransfer(c, SelfAddress(c), t.assets[0], 0)];
      group := group + [InnerAssetTransfer(c, SelfAddress(c), t.assets[1], 0)];
      assert group == [InnerAssetTransfer(c, SelfAddress(c), t.assets[0], 0), InnerAssetTransfer(c, SelfAddress(c), t.assets[1], 0)];
      return Accept([group]);
    }

    method DeleteApp(c: Call) returns (r: Outcome)
      modifies this
      ensures Commits(old(State()), DeleteAppSpec(old(State()), c), State(), r)
    {
      if !AdminRole(c, State(), Sender(c)) {
        return Reject;
      }
      var bid := Get(global, CURRENT_BID);
      if !bid.Int? {
        return Reject;
      }
      if bid.n > 0 {
        var winner := Get(global, BIDDER_WINNER);
        if !winner.Bytes? {
          return Reject;
        }
        return Accept([[InnerPayment(c, winner.s, bid.n)]]);
      }
      return Accept([]);
    }

    method PayAlgo(c: Call) returns (r: Outcome)
      modifies this
      ensures Commits(old(State()), PayAlgoSpec(old(State()), c), State(), r)
    {
      var t := c.Current();
      if |t.args| < 3 || |t.accounts| < 1 {
        return Reject;
      }
      var amount := BtoiArg(t.args[2]);
      if amount.None? || !amount.value.Int? {
        return Reject;
      }
      var ok := CheckModule(c);
      if !ok {
        return Reject;
      }
      return Accept([[InnerPayment(c, t.accounts[0], amount.value.n)]]);
    }

    method PayAsset(c: Call) returns (r: Outcome)
      modifies this
      ensures Commits(old(State()), PayAssetSpec(old(State()), c), State(), r)
    {
      var t := c.Current();
      if |t.args| < 3 || |t.accounts| < 1 || |t.assets| < 1 {
        return Reject;
      }
      var amount := BtoiArg(t.args[2]);
      if amount.None? || !amount.value.Int? {
        return Reject;
      }
      var ok := CheckModule(c);
      if !ok {
        return Reject;
      }
      return Accept([[InnerAssetTransfer(c, t.accounts[0], t.assets[0], amount.value.n)]]);
    }

    method SetGlobal(c: Call) returns (r: Outcome)
      modifies this
      ensures Commits(old(State()), SetGlobalSpec(old(State()), c), State(), r)
    {
      var t := c.Current();
      if |t.args| < 5 {
        return Reject;
      }
      var flag := BtoiArg(t.args[4]);
      if flag.None? {
        return Reject;
      }
      var ok := CheckModule(c);
      if !ok {
        return Reject;
      }
      if flag.value == Int(0) {
        global := global[t.args[2] := t.args[3]];
      } else {
        var n := BtoiArg(t.args[3]);
        if n.None? {
          return Reject;
        }
        global := global[t.args[2] := n.value];
      }
      return Accept([]);
    }

    method RemoveGlobal(c: Call) returns (r: Outcome)
      modifies this
      ensures Commits(old(State()), RemoveGlobalSpec(old(State()), c), State(), r)
    {
      var t := c.Current();
      if |t.args| < 3 {
        return Reject;
      }
      var ok := CheckModule(c);
      if !ok {
        return Reject;
      }
      global := global - {t.args[2]};
      return Accept([]);
    }

    method ChangeAdminId(c: Call) returns (r: Outcome)
      modifies this
      ensures Commits(old(State()), ChangeAdminIdSpec(old(State()), c), State(), r)
    {
      if !AdminRole(c, State(), Sender(c)) {
        return Reject;
      }
      global := global[ADMIN_ID := Get(global, NEW_ADMIN_ID)];
      return Accept([]);
    }

    method UpdateApp(c: Call) returns (r: Outcome)
      modifies this
      ensures Commits(old(State()), UpdateAppSpec(old(State()), c), State(), r)
    {
      if !OwnerRole(c, global) {
        return Reject;
      }
      return Accept([]);
    }

    /** nft_app_approval: route the call, then run the selected handler. */
    method Approve(c: Call) returns (r: Outcome)
      modifies this
      ensures Commits(old(State()), Approval(old(State()), c), State(), r)
    {
      var op := Route(c);
      if op.None? {
        return Reject;
      }
      match op.value {
        case Deploy => r := Deploy(c);
        case SetGlobal => r := SetGlobal(c);
        case PayAlgo => r := PayAlgo(c);
        case PayAsset => r := PayAsset(c);
        case RemoveGlobal => r := RemoveGlobal(c);
        case ChangeAdminId => r := ChangeAdminId(c);
        case OptInAssets => r := OptInAssets(c);
        case DeleteApp => r := DeleteApp(c);
        case UpdateApp => r := UpdateApp(c);
      }
    }
  }

  // ---------------------------------------------------------------- properties

  /** deploy_contract succeeds exactly for a platform NFT whose owner is the calling creator application's CREATOR_ADDRESS. */
  lemma DeployAcceptsOnlyPlatformNft(st: AppState, c: Call)
    ensures var t := c.Current();
      DeploySpec(st, c).Some? <==>
        |t.args| >= 1 && ArgUInt(t, 0).Some? && |t.apps| >= 1 && |t.accounts| >= 1 && |t.assets| >= 2 &&
        GlobalEx(c.ledger, st.global, c.callerApp, CREATOR_ADDRESS) == Bytes(t.accounts[0]) && IsPlatformNft(c, t.assets[0], t.apps[0])
    ensures DeploySpec(st, c).Some? ==>
      var t := c.Current();
      var g := DeploySpec(st, c).value.state.global;
      g[NFT_OWNER] == Bytes(t.accounts[0]) && g[NFT_ID] == Int(t.assets[0]) && g[ADMIN_ID] == Int(t.apps[0]) &&
      g[NFT_CREATOR] == Bytes(c.ledger.assetParams(t.assets[0]).creator) && Some(g[ROYALTY]) == ArgUInt(t, 0)
  {
  }

  /** set_global followed by a read: the name holds the stored value; nothing else changes. */
  lemma SetGlobalStores(st: AppState, c: Call)
    requires SetGlobalSpec(st, c).Some?
    ensures var t := c.Current();
      var g := SetGlobalSpec(st, c).value.state.global;
      FromRegisteredModule(st, c, t.args[1]) &&
      (ArgUInt(t, 4) == Some(Int(0)) ==> Get(g, t.args[2]) == t.args[3]) &&
      (ArgUInt(t, 4) != Some(Int(0)) ==> Some(Get(g, t.args[2])) == BtoiArg(t.args[3])) &&
      (forall k :: k != t.args[2] ==> Get(g, k) == Get(st.global, k))
  {
  }

  /** remove_global takes the name out of the store, so it reads as 0 again; nothing else changes. */
  lemma RemoveGlobalDeletes(st: AppState, c: Call)
    requires RemoveGlobalSpec(st, c).Some?
    ensures var t := c.Current();
      var g := RemoveGlobalSpec(st, c).value.state.global;
      FromRegisteredModule(st, c, t.args[1]) && t.args[2] !in g && Get(g, t.args[2]) == Int(0) &&
      (forall k :: k != t.args[2] ==> Get(g, k) == Get(st.global, k))
  {
  }

  /**
   * Payouts: every run that submits inner transactions is pay_algo or
   * pay_asset from a registered module, an admin's delete_app refunding the
   * standing bid, or the zero-amount opt_in_assets.
   */
  lemma PayoutsNeedAuthority(st: AppState, c: Call)
    requires Approval(st, c).Some? && Approval(st, c).value.outbox != []
    ensures Route(c) == Some(PayAlgo) || Route(c) == Some(PayAsset) || Route(c) == Some(DeleteApp) || Route(c) == Some(OptInAssets)
    ensures Route(c) == Some(PayAlgo) || Route(c) == Some(PayAsset) ==> FromRegisteredModule(st, c, c.Current().args[1])
    ensures Route(c) == Some(DeleteApp) ==>
      AdminRole(c, st, Sender(c)) &&
      Approval(st, c).value.outbox == [[InnerPayment(c, Get(st.global, BIDDER_WINNER).s, Get(st.global, CURRENT_BID).n)]]
  {
  }

  /** Only deploy_contract, set_global, remove_global and change_admin_id change the globals; no handler touches local state. */
  lemma GlobalWriters(st: AppState, c: Call)
    requires Approval(st, c).Some?
    ensures Approval(st, c).value.state.local == st.local
    ensures Approval(st, c).value.state.global != st.global ==>
      Route(c) == Some(Deploy) || Route(c) == Some(SetGlobal) || Route(c) == Some(RemoveGlobal) || Route(c) == Some(ChangeAdminId)
  {
    PerformGlobalWriters(Route(c).value, st, c);
  }

  lemma PerformGlobalWriters(op: Op, st: AppState, c: Call)
    requires Perform(op, st, c).Some?
    ensures Perform(op, st, c).value.state.local == st.local
    ensures Perform(op, st, c).value.state.global != st.global ==>
      op == Deploy || op == SetGlobal || op == RemoveGlobal || op == ChangeAdminId
  {
    match op
    case Deploy =>
    case SetGlobal =>
    case PayAlgo =>
    case PayAsset =>
    case RemoveGlobal =>
    case ChangeAdminId =>
    case OptInAssets =>
    case DeleteApp =>
    case UpdateApp =>
  }

  /**
   * change_admin_id copies NEW_ADMIN_ID, which this program only ever gets
   * through a module's set_global; while unset, ADMIN_ID becomes 0, the id
   * by which a program names itself.  The admin and owner checks then read
   * this program's own ROLE local and OWNER global, which it never writes
   * itself (it is created without local state), so a later sender they do
   * not name passes neither check.
   */
  lemma ChangeAdminIdWithoutNewIdLocksOut(st: AppState, c: Call, later: Call)
    requires ChangeAdminIdSpec(st, c).Some? && NEW_ADMIN_ID !in st.global
    requires Get(st.global, OWNER) != Bytes(Sender(later)) && LocalGet(st, Sender(later), ROLE) != Const(ADMIN_ROLE)
    ensures var st' := ChangeAdminIdSpec(st, c).value.state;
      Get(st'.global, ADMIN_ID) == Int(0) &&
      DeleteAppSpec(st', later).None? && ChangeAdminIdSpec(st', later).None? && UpdateAppSpec(st', later).None?
  {
  }

  /**
   * update_app: an update call is approved exactly for the OWNER of the
   * application ADMIN_ID names (with ADMIN_ID 0, this program's own
   * OWNER), and changes nothing.
   */
  lemma UpdateOnlyOwner(st: AppState, c: Call)
    requires c.Current().appId != 0 && c.Current().onCompletion == UpdateApplication
    ensures Approval(st, c).Some? <==> OwnerRole(c, st.global)
    ensures AdminIdOf(st.global) == Some(0) ==> (Approval(st, c).Some? <==> Get(st.global, OWNER) == Bytes(Sender(c)))
    ensures Approval(st, c).Some? ==> Approval(st, c).value == Step(st, [])
  {
  }

  /**
   * opt_in_assets: any sender, provided assets[0], applications[1] and
   * assets[1] are the stored NFT_ID, ADMIN_ID and USDC_ASSET_ID; the program
   * then opts itself into the NFT and the USDC asset and changes no state.
   */
  lemma OptInAssetsRecords(st: AppState, c: Call)
    ensures var t := c.Current();
      OptInAssetsSpec(st, c).Some? <==>
        |t.assets| >= 2 && |t.apps| >= 1 && Get(st.global, NFT_ID) == Int(t.assets[0]) &&
        Get(st.global, ADMIN_ID) == Int(t.apps[0]) && Get(st.global, USDC_ASSET_ID) == Int(t.assets[1])
    ensures OptInAssetsSpec(st, c).Some? ==>
      var t, res := c.Current(), OptInAssetsSpec(st, c).value;
      res.state == st &&
      res.outbox == [[InnerAssetTransfer(c, SelfAddress(c), t.assets[0], 0), InnerAssetTransfer(c, SelfAddress(c), t.assets[1], 0)]]
  {
  }

  /** After deploy_contract, opt_in_assets passes for a call naming the same NFT, admin and USDC ids. */
  lemma DeployThenOptInAssets(st: AppState, c: Call, c': Call)
    requires DeploySpec(st, c).Some?
    requires var t, t' := c.Current(), c'.Current();
      |t'.assets| >= 2 && |t'.apps| >= 1 && t'.assets[0] == t.assets[0] && t'.assets[1] == t.assets[1] && t'.apps[0] == t.apps[0]
    ensures OptInAssetsSpec(DeploySpec(st, c).value.state, c').Some?
  {
  }
}

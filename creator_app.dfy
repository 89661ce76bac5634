/**
 * contracts/modules/creator_app.py: the program of one creator.  The
 * creator recorded at creation (CREATOR_ADDRESS) spawns NFT programs for
 * their NFTs with a royalty between 1 and 50 percent, and opts the program
 * in to USDC; accounts opt in as BASIC_SUBSCRIPTION.
 */
module CreatorApp {
  import opened Avm
  import opened Constants
  import opened Checkers
  import opened Utility
  import Nft
  import Delivery

  /** The handlers of creator_app_approval. */
  datatype Op = Deploy | Optin | UtilityCall | ChangeAdminId | UsdcAssetOptin | CreateAssetApp
              | UpdateUnchecked | CloseOutCall | UpdateApp

  /** handle_noop: the checkers in source order. */
  function NoOpBranches(c: Call): seq<(Option<bool>, Op)>
  {
    [ (UtilityChecker(c), UtilityCall),
      (ChangeAdminIdChecker(c), ChangeAdminId),
      (AssetOptinChecker(c), UsdcAssetOptin),
      (CreateAssetAppChecker(c), CreateAssetApp) ]
  }

  /**
   * The program's Cond as written: an UpdateApplication call meets the
   * unconditional branch first, so the owner-checked branch after
   * CloseOut is never reached.
   */
  function Route(c: Call): Option<Op>
  {
    var t := c.Current();
    if t.appId == 0 then Some(Deploy)
    else if t.onCompletion == OptIn then Some(Optin)
    else if t.onCompletion == NoOp then FirstMatch(NoOpBranches(c))
    else if t.onCompletion == UpdateApplication then Some(UpdateUnchecked)
    else if t.onCompletion == CloseOut then Some(CloseOutCall)
    else None
  }

  /** The Cond as evidently intended: an update runs update_app and its owner check. */
  function RouteIntended(c: Call): Option<Op>
  {
    var t := c.Current();
    if t.appId == 0 then Some(Deploy)
    else if t.onCompletion == OptIn then Some(Optin)
    else if t.onCompletion == NoOp then FirstMatch(NoOpBranches(c))
    else if t.onCompletion == CloseOut then Some(CloseOutCall)
    else if t.onCompletion == UpdateApplication then Some(UpdateApp)
    else None
  }

  // ---------------------------------------------------------------- handlers

  /** deploy_contract: ADMIN_ID applications[1], MODULE_NAME CREATOR_APP, CREATOR_ADDRESS accounts[1], SUBSCRIPTION 0. */
  function DeploySpec(st: AppState, c: Call): Run
  {
    var t := c.Current();
    var adminId :- App(t, 1);
    var creator :- Account(t, 1);
    Some(Step(st.(global := st.global[ADMIN_ID := Int(adminId)][MODULE_NAME := CREATOR_APP]
                                     [CREATOR_ADDRESS := Bytes(creator)][SUBSCRIPTION := Int(0)]), []))
  }

  /** optin: the account starts as BASIC_SUBSCRIPTION with expiry 0 and this program's creator as CREATOR_ADDRESS. */
  function OptinSpec(st: AppState, c: Call): Run
  {
    var s := Sender(c);
    var _ :- Assert(s !in st.local);
    Some(Step(st.(local := st.local[s := map[SUBSCRIPTION_STATUS := Const(BASIC_SUBSCRIPTION),
                                             SUBSCRIPTION_EXPIRES_DATE := Int(0),
                                             CREATOR_ADDRESS := Bytes(Creator(c))]]), []))
  }

  function ChangeAdminIdSpec(st: AppState, c: Call): Run
  {
    var _ :- Assert(AdminRole(c, st, Sender(c)));
    Some(Step(st.(global := st.global[ADMIN_ID := Get(st.global, NEW_ADMIN_ID)]), []))
  }

  /** usdc_asset_optin: the creator records assets[0] as USDC_ASSET_ID and opts the program in to it. */
  function UsdcAssetOptinSpec(st: AppState, c: Call): Run
  {
    var usdc :- Asset(c.Current(), 0);
    var _ :- Assert(Get(st.global, CREATOR_ADDRESS) == Bytes(Sender(c)));
    Some(Step(st.(global := st.global[USDC_ASSET_ID := Int(usdc)]),
              [[InnerAssetTransfer(c, SelfAddress(c), usdc, 0)]]))
  }

  /** The creation of an NFT program: args [Itob(royalty)], applications [admin, this], accounts [owner], assets [nft, usdc]. */
  function Spawn(c: Call, adminId: U64, royalty: U64, nft: U64, usdc: U64): Txn
  {
    InnerAppCall(c, 0, [Int(royalty)], [Sender(c)], [nft, usdc], [adminId, c.Current().appId])
  }

  /** The fixed funding sent to a spawned NFT program. */
  const SPAWN_FUNDING: U64 := 100_000

  /**
   * create_asset_app: the creator spawns an NFT program for NFT assets[0]
   * with royalty Btoi(args[1]) between 1 and 50, provided the admin program
   * has a USDC_ASSET_ID, and funds it with SPAWN_FUNDING.
   */
  function CreateAssetAppSpec(st: AppState, c: Call): Run
  {
    var t := c.Current();
    var v :- ArgUInt(t, 1);
    var royalty :- AsUInt(v);
    var nft :- Asset(t, 0);
    var adminId :- AdminIdOf(st.global);
    var _ :- Assert(Get(st.global, CREATOR_ADDRESS) == Bytes(Sender(c)));
    var _ :- Assert(1 <= royalty <= 50);
    var _ :- Assert(HasGlobalEx(c.ledger, st.global, adminId, USDC_ASSET_ID));
    var usdc :- AsUInt(GlobalEx(c.ledger, st.global, adminId, USDC_ASSET_ID));
    Some(Step(st, [[Spawn(c, adminId, royalty, nft, usdc)],
                   [InnerPayment(c, c.ledger.appAddress(c.ledger.nextAppId), SPAWN_FUNDING)]]))
  }

  /** update_app: only the admin program's OWNER. */
  function UpdateAppSpec(st: AppState, c: Call): Run
  {
    var _ :- Assert(OwnerRole(c, st.global));
    Some(Step(st, []))
  }

  /** A close-out is approved and the account's local state goes with it. */
  function CloseOutSpec(st: AppState, c: Call): Run
  {
    var _ :- Assert(Sender(c) in st.local);
    Some(Step(st.(local := st.local - {Sender(c)}), []))
  }

  function Perform(op: Op, st: AppState, c: Call): Run
  {
    match op
    case Deploy => DeploySpec(st, c)
    case Optin => OptinSpec(st, c)
    case UtilityCall => Some(Step(st, []))
    case ChangeAdminId => ChangeAdminIdSpec(st, c)
    case UsdcAssetOptin => UsdcAssetOptinSpec(st, c)
    case CreateAssetApp => CreateAssetAppSpec(st, c)
    case UpdateUnchecked => Some(Step(st, []))
    case CloseOutCall => CloseOutSpec(st, c)
    case UpdateApp => UpdateAppSpec(st, c)
  }

  /** creator_app_approval as written. */
  function Approval(st: AppState, c: Call): Run
  {
    var op :- Route(c);
    Perform(op, st, c)
  }

  /** creator_app_approval as evidently intended. */
  function ApprovalIntended(st: AppState, c: Call): Run
  {
    var op :- RouteIntended(c);
    Perform(op, st, c)
  }

  // ---------------------------------------------------------------- the program object

  class CreatorAppProgram {
    var global: Store
    var local: map<Address, Store>

    constructor ()
      ensures global == map[] && local == map[]
    {
      global := map[];
      local := map[];
    }

    function State(): AppState
      reads this
    {
      AppState(global, local)
    }

    method Deploy(c: Call) returns (r: Outcome)
      modifies this
      ensures Commits(old(State()), DeploySpec(old(State()), c), State(), r)
    {
      var t := c.Current();
      if |t.apps| < 1 || |t.accounts| < 1 {
        return Reject;
      }
      global := global[ADMIN_ID := Int(t.apps[0])];
      global := global[MODULE_NAME := CREATOR_APP];
      global := global[CREATOR_ADDRESS := Bytes(t.accounts[0])];
      global := global[SUBSCRIPTION := Int(0)];
      return Accept([]);
    }

    method Optin(c: Call) returns (r: Outcome)
      modifies this
      ensures Commits(old(State()), OptinSpec(old(State()), c), State(), r)
    {
      var s := Sender(c);
      if s in local {
        return Reject;
      }
      var entry: Store := map[];
      entry := entry[SUBSCRIPTION_STATUS := Const(BASIC_SUBSCRIPTION)];
      entry := entry[SUBSCRIPTION_EXPIRES_DATE := Int(0)];
      entry := entry[CREATOR_ADDRESS := Bytes(Creator(c))];
      local := local[s := entry];
      return Accept([]);
    }

    method ChangeAdminId(c: Call) returns (r: Outcome)
      modifies this
      ensures Commits(old(State()), ChangeAdminIdSpec(old(State()), c), State(), r)
    {
      if !AdminRole(c, State(), Sender(c)) {
        return Reject;
      }
      global := global[ADMIN_ID := Get(global, NEW_ADMIN_ID)];
      return Accept([]);
    }

    method UsdcAssetOptin(c: Call) returns (r: Outcome)
      modifies this
      ensures Commits(old(State()), UsdcAssetOptinSpec(old(State()), c), State(), r)
    {
      var t := c.Current();
      if |t.assets| < 1 || Get(global, CREATOR_ADDRESS) != Bytes(Sender(c)) {
        return Reject;
      }
      global := global[USDC_ASSET_ID := Int(t.assets[0])];
      return Accept([[InnerAssetTransfer(c, SelfAddress(c), t.assets[0], 0)]]);
    }

    /** create_asset_app: the created id is kept, as the source keeps it in a scratch slot, to fund the new program. */
    method CreateAssetApp(c: Call) returns (r: Outcome)
      ensures r == OutcomeOf(CreateAssetAppSpec(State(), c))
    {
      var t := c.Current();
      var v := ArgUInt(t, 1);
      var adminId := AdminIdOf(global);
      if v.None? || !v.value.Int? || |t.assets| < 1 || adminId.None? {
        return Reject;
      }
      var royalty := v.value.n;
      if Get(global, CREATOR_ADDRESS) != Bytes(Sender(c)) || royalty < 1 || royalty > 50 {
        return Reject;
      }
      var usdc := GlobalEx(c.ledger, global, adminId.value, USDC_ASSET_ID);
      if !HasGlobalEx(c.ledger, global, adminId.value, USDC_ASSET_ID) || !usdc.Int? {
        return Reject;
      }
      var outbox := [[Spawn(c, adminId.value, royalty, t.assets[0], usdc.n)]];
      var nftAppId := c.ledger.nextAppId;
      outbox := outbox + [[InnerPayment(c, c.ledger.appAddress(nftAppId), SPAWN_FUNDING)]];
      return Accept(outbox);
    }

    method UpdateApp(c: Call) returns (r: Outcome)
      ensures r == OutcomeOf(UpdateAppSpec(State(), c))
    {
      if !OwnerRole(c, global) {
        return Reject;
      }
      return Accept([]);
    }

    method CloseOut(c: Call) returns (r: Outcome)
      modifies this
      ensures Commits(old(State()), CloseOutSpec(old(State()), c), State(), r)
    {
      if Sender(c) !in local {
        return Reject;
      }
      local := local - {Sender(c)};
      return Accept([]);
    }

    /** creator_app_approval: route the call, then run the selected handler. */
    method Approve(c: Call) returns (r: Outcome)
      modifies this
      ensures Commits(old(State()), Approval(old(State()), c), State(), r)
    {
      var op := Route(c);
      if op.None? {
        return Reject;
      }
      match op.value {
        case Deploy => r := Deploy(c);
        case Optin => r := Optin(c);
        case UtilityCall => r := Accept([]);
        case ChangeAdminId => r := ChangeAdminId(c);
        case UsdcAssetOptin => r := UsdcAssetOptin(c);
        case CreateAssetApp => r := CreateAssetApp(c);
        case UpdateUnchecked => r := Accept([]);
        case CloseOutCall => r := CloseOut(c);
        case UpdateApp => r := UpdateApp(c);
      }
    }
  }

  // ---------------------------------------------------------------- properties

  /** Creation records the admin program, the module name, the creator and a SUBSCRIPTION of 0. */
  lemma DeployRecords(st: AppState, c: Call)
    ensures DeploySpec(st, c).Some? <==> |c.Current().apps| >= 1 && |c.Current().accounts| >= 1
    ensures DeploySpec(st, c).Some? ==>
      var g := DeploySpec(st, c).value.state.global;
      Get(g, ADMIN_ID) == Int(c.Current().apps[0]) && Get(g, MODULE_NAME) == CREATOR_APP &&
      Get(g, CREATOR_ADDRESS) == Bytes(c.Current().accounts[0]) && Get(g, SUBSCRIPTION) == Int(0)
  {
  }

  /** Opting in succeeds exactly for a new account and records BASIC_SUBSCRIPTION, expiry 0 and this program's creator. */
  lemma OptinRecords(st: AppState, c: Call)
    ensures OptinSpec(st, c).Some? <==> Sender(c) !in st.local
    ensures OptinSpec(st, c).Some? ==>
      var st' := OptinSpec(st, c).value.state;
      LocalGet(st', Sender(c), SUBSCRIPTION_STATUS) == Const(BASIC_SUBSCRIPTION) &&
      LocalGet(st', Sender(c), SUBSCRIPTION_EXPIRES_DATE) == Int(0) &&
      LocalGet(st', Sender(c), CREATOR_ADDRESS) == Bytes(Creator(c)) &&
      st'.global == st.global
  {
  }

  /** Only the recorded creator opts the program in to USDC, and the asset becomes USDC_ASSET_ID. */
  lemma UsdcAssetOptinOnlyCreator(st: AppState, c: Call)
    ensures UsdcAssetOptinSpec(st, c).Some? <==>
      |c.Current().assets| >= 1 && Get(st.global, CREATOR_ADDRESS) == Bytes(Sender(c))
    ensures UsdcAssetOptinSpec(st, c).Some? ==>
      var usdc := c.Current().assets[0];
      Get(UsdcAssetOptinSpec(st, c).value.state.global, USDC_ASSET_ID) == Int(usdc) &&
      UsdcAssetOptinSpec(st, c).value.outbox == [[InnerAssetTransfer(c, SelfAddress(c), usdc, 0)]]
  {
  }

  /**
   * A spawn is accepted only from the recorded creator, with a royalty
   * between 1 and 50 and a USDC id in the admin program; it changes no
   * state here, and requests the creation with that royalty, owner, NFT
   * and USDC id, then the funding of the created program.
   */
  lemma CreateAssetAppGuards(st: AppState, c: Call)
    requires CreateAssetAppSpec(st, c).Some?
    ensures var t := c.Current();
      var royalty := BtoiArg(t.args[1]).value.n;
      var adminId := AdminIdOf(st.global).value;
      var res := CreateAssetAppSpec(st, c).value;
      Get(st.global, CREATOR_ADDRESS) == Bytes(Sender(c)) && 1 <= royalty <= 50 &&
      HasGlobalEx(c.ledger, st.global, adminId, USDC_ASSET_ID) && res.state == st &&
      res.outbox == [[Spawn(c, adminId, royalty, t.assets[0], GlobalEx(c.ledger, st.global, adminId, USDC_ASSET_ID).n)],
                     [InnerPayment(c, c.ledger.appAddress(c.ledger.nextAppId), SPAWN_FUNDING)]]
  {
  }

  /**
   * The converse of CreateAssetAppGuards, for any ADMIN_ID: a spawn is
   * accepted exactly when args[1] decodes to a royalty between 1 and 50, an
   * NFT is given, ADMIN_ID holds a uint, the sender is the recorded creator
   * and the program ADMIN_ID names (this one, for 0) holds a uint
   * USDC_ASSET_ID.
   */
  lemma CreateAssetAppAccepted(st: AppState, c: Call)
    ensures var t := c.Current();
      var adminId := AdminIdOf(st.global);
      CreateAssetAppSpec(st, c).Some? <==>
        ArgUInt(t, 1).Some? && ArgUInt(t, 1).value.Int? && 1 <= ArgUInt(t, 1).value.n <= 50 && |t.assets| >= 1 &&
        adminId.Some? && Get(st.global, CREATOR_ADDRESS) == Bytes(Sender(c)) &&
        HasGlobalEx(c.ledger, st.global, adminId.value, USDC_ASSET_ID) &&
        GlobalEx(c.ledger, st.global, adminId.value, USDC_ASSET_ID).Int?
  {
  }

  /**
   * With ADMIN_ID 0 (as change_admin_id leaves it while NEW_ADMIN_ID is
   * unset) the id read names this program itself: the spawn then needs and
   * passes on this program's own USDC_ASSET_ID, with 0 as the admin id.
   */
  lemma CreateAssetAppWithOwnAdmin(st: AppState, c: Call)
    requires AdminIdOf(st.global) == Some(0)
    ensures var t := c.Current();
      CreateAssetAppSpec(st, c).Some? <==>
        ArgUInt(t, 1).Some? && ArgUInt(t, 1).value.Int? && 1 <= ArgUInt(t, 1).value.n <= 50 && |t.assets| >= 1 &&
        Get(st.global, CREATOR_ADDRESS) == Bytes(Sender(c)) && USDC_ASSET_ID in st.global && st.global[USDC_ASSET_ID].Int?
    ensures CreateAssetAppSpec(st, c).Some? ==>
      var t := c.Current();
      CreateAssetAppSpec(st, c).value.outbox[0] == [Spawn(c, 0, ArgUInt(t, 1).value.n, t.assets[0], st.global[USDC_ASSET_ID].n)]
  {
  }

  /** A royalty of 0 or above 50 is refused. */
  lemma RoyaltyOutOfRangeRefused(st: AppState, c: Call)
    requires ArgUInt(c.Current(), 1).Some? && ArgUInt(c.Current(), 1).value.Int?
    requires ArgUInt(c.Current(), 1).value.n == 0 || ArgUInt(c.Current(), 1).value.n > 50
    ensures CreateAssetAppSpec(st, c).None?
  {
  }

  /**
   * The spawned program's creation call carries its royalty, admin
   * program, owner, NFT and USDC id in the slots the NFT program's
   * deploy_contract reads: if the ledger shows this program's globals and
   * the NFT is a platform NFT, the NFT program records exactly those.
   */
  lemma {:induction false} SpawnDeploysNft(st: AppState, c: Call, nftSt: AppState, ledger: Ledger)
    requires CreateAssetAppSpec(st, c).Some?
    requires c.Current().appId != 0 && c.Current().appId in ledger.globals && ledger.globals[c.Current().appId] == st.global
    requires var spawn := CreateAssetAppSpec(st, c).value.outbox[0][0];
      Nft.IsPlatformNft(Delivery.InnerCall(spawn, c.Current().appId, c.now, ledger), c.Current().assets[0], AdminIdOf(st.global).value)
    ensures var spawn := CreateAssetAppSpec(st, c).value.outbox[0][0];
      var d := Nft.DeploySpec(nftSt, Delivery.InnerCall(spawn, c.Current().appId, c.now, ledger));
      var adminId := AdminIdOf(st.global).value;
      d.Some? &&
      Get(d.value.state.global, ROYALTY) == BtoiArg(c.Current().args[1]).value &&
      Get(d.value.state.global, NFT_OWNER) == Bytes(Sender(c)) &&
      Get(d.value.state.global, NFT_ID) == Int(c.Current().assets[0]) &&
      Get(d.value.state.global, ADMIN_ID) == Int(adminId) &&
      Get(d.value.state.global, USDC_ASSET_ID) == GlobalEx(c.ledger, st.global, adminId, USDC_ASSET_ID)
  {
    CreateAssetAppGuards(st, c);
    var t := c.Current();
    var adminId := AdminIdOf(st.global).value;
    var spawn := Spawn(c, adminId, BtoiArg(t.args[1]).value.n, t.assets[0], GlobalEx(c.ledger, st.global, adminId, USDC_ASSET_ID).n);
    assert spawn.args == [BtoiArg(t.args[1]).value] && ArgUInt(spawn, 0) == Some(BtoiArg(t.args[1]).value);
    assert Account(spawn, 1) == Some(Sender(c)) && App(spawn, 1) == Some(adminId);
    assert GlobalOf(ledger, c.Current().appId, CREATOR_ADDRESS) == Bytes(Sender(c));
  }

  /** As written, any account may update the program: every update call is approved and changes nothing. */
  lemma AnyoneMayUpdate(st: AppState, c: Call)
    requires c.Current().appId != 0 && c.Current().onCompletion == UpdateApplication
    ensures Approval(st, c) == Some(Step(st, []))
  {
  }

  /** As evidently intended, an update is approved exactly when the sender is the admin program's OWNER. */
  lemma IntendedUpdateOnlyOwner(st: AppState, c: Call)
    requires c.Current().appId != 0 && c.Current().onCompletion == UpdateApplication
    ensures ApprovalIntended(st, c).Some? <==> OwnerRole(c, st.global)
  {
  }

  /** The two dispatches differ only on updates. */
  lemma IntendedDiffersOnlyOnUpdate(st: AppState, c: Call)
    requires c.Current().onCompletion != UpdateApplication || c.Current().appId == 0
    ensures ApprovalIntended(st, c) == Approval(st, c)
  {
  }

  /** A close-out is approved for an opted-in account and removes exactly its local state. */
  lemma CloseOutDropsLocal(st: AppState, c: Call)
    ensures CloseOutSpec(st, c).Some? <==> Sender(c) in st.local
    ensures CloseOutSpec(st, c).Some? ==>
      CloseOutSpec(st, c).value.state.local.Keys == st.local.Keys - {Sender(c)} &&
      CloseOutSpec(st, c).value.state.global == st.global
  {
  }

  /** change_admin_id reads NEW_ADMIN_ID, which this program never writes: ADMIN_ID becomes the uint 0. */
  lemma ChangeAdminIdZeroes(st: AppState, c: Call)
    requires ChangeAdminIdSpec(st, c).Some? && NEW_ADMIN_ID !in st.global
    ensures AdminIdOf(ChangeAdminIdSpec(st, c).value.state.global) == Some(0)
  {
  }
}

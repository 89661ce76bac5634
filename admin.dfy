/**
 * contracts/admin.py: the admin registry.  It holds the platform OWNER, the
 * platform fee, the first admin to be bootstrapped, the NIFTGEN and USDC
 * asset ids, the count of verified creators and a registry mapping module
 * names to application ids; each opted-in account has a ROLE and a STATUS.
 * Other programs read this state through the ledger.
 */
module Admin {
  import opened Avm
  import opened Constants
  import opened Checkers
  import opened Utility

  /** The handlers of admin_approval. */
  datatype Op =
    | Deploy | OptinAdmin | UpdateApp
    | ChangeOwnership | SetLocal | WithdrawAlgos | WithdrawTokens
    | SetRole | SetVerifiedStatus | AddModule | RemoveModule | AssetsOptin

  /** handle_noop: the checkers in source order; SET_LOCAL's checker guards the first two branches. */
  function NoOpBranches(c: Call): seq<(Option<bool>, Op)>
  {
    [ (SetLocalChecker(c), ChangeOwnership),
      (SetLocalChecker(c), SetLocal),
      (WithdrawAlgosChecker(c), WithdrawAlgos),
      (WithdrawTokensChecker(c), WithdrawTokens),
      (SetRoleChecker(c), SetRole),
      (SetVerifiedStatusChecker(c), SetVerifiedStatus),
      (AddModuleChecker(c), AddModule),
      (RemoveModuleChecker(c), RemoveModule),
      (AssetsOptinChecker(c), AssetsOptin) ]
  }

  /** The handler admin_approval runs for a call, or None when the dispatch itself rejects. */
  function Route(c: Call): Option<Op>
  {
    var t := c.Current();
    if t.appId == 0 then Some(Deploy)
    else if t.onCompletion == OptIn then Some(OptinAdmin)
    else if t.onCompletion == NoOp then FirstMatch(NoOpBranches(c))
    else if t.onCompletion == UpdateApplication then Some(UpdateApp)
    else None
  }

  /**
   * The dispatch as evidently intended: change_ownership guarded by
   * change_ownership_checker (defined alongside set_local_checker but not
   * used), so that each of the two handlers is reached by its own tag.
   */
  function NoOpBranchesIntended(c: Call): seq<(Option<bool>, Op)>
  {
    [(ChangeOwnershipChecker(c), ChangeOwnership)] + NoOpBranches(c)[1..]
  }

  function RouteIntended(c: Call): Option<Op>
  {
    var t := c.Current();
    if t.appId == 0 then Some(Deploy)
    else if t.onCompletion == OptIn then Some(OptinAdmin)
    else if t.onCompletion == NoOp then FirstMatch(NoOpBranchesIntended(c))
    else if t.onCompletion == UpdateApplication then Some(UpdateApp)
    else None
  }

  // ---------------------------------------------------------------- handler specifications

  /** The role an opted-in account holds here (the uint 0 when it holds none). */
  function RoleOf(st: AppState, account: Address): Value
  {
    LocalGet(st, account, ROLE)
  }

  predicate IsOwner(st: AppState, account: Address)
  {
    Get(st.global, OWNER) == Bytes(account)
  }

  /** deploy_contract: records the fee, the owner (the creator), the first admin, both asset ids and a zero verified count. */
  function DeploySpec(st: AppState, c: Call): Run
  {
    var t := c.Current();
    var fee :- ArgUInt(t, 0);
    var firstAdmin :- Account(t, 1);
    var niftgen :- Asset(t, 0);
    var usdc :- Asset(t, 1);
    var g := st.global[PLATFORM_FEE := fee][OWNER := Bytes(t.sender)][FIRST_ADMIN := Bytes(firstAdmin)]
               [NIFTGEN_ASSET := Int(niftgen)][USDC_ASSET_ID := Int(usdc)][VERIFIED_CREATORS := Int(0)];
    Some(Step(st.(global := g), []))
  }

  /** change_ownership: the owner hands OWNER to accounts[1], which must differ from the owner. */
  function ChangeOwnershipSpec(st: AppState, c: Call): Run
  {
    var t := c.Current();
    var newOwner :- Account(t, 1);
    var _ :- Assert(IsOwner(st, t.sender));
    var _ :- Assert(t.sender != newOwner);
    Some(Step(st.(global := st.global[OWNER := Bytes(newOwner)]), []))
  }

  /**
   * optin_admin: an OptIn call (which creates the sender's local state)
   * grants ADMIN_ROLE to FIRST_ADMIN, clearing FIRST_ADMIN, and to OWNER,
   * and USER_ROLE to everyone else.
   */
  function OptinAdminSpec(st: AppState, c: Call): Run
  {
    var t := c.Current();
    var _ :- Assert(NoRekey(c));
    var _ :- Assert(t.sender !in st.local);
    var opted := st.(local := st.local[t.sender := map[]]);
    if Bytes(t.sender) == Get(st.global, FIRST_ADMIN) then
      var st1 :- LocalPut(opted, t.sender, ROLE, Const(ADMIN_ROLE));
      Some(Step(st1.(global := st1.global[FIRST_ADMIN := Bytes(ZeroAddress)]), []))
    else if IsOwner(st, t.sender) then
      var st1 :- LocalPut(opted, t.sender, ROLE, Const(ADMIN_ROLE));
      Some(Step(st1, []))
    else
      var st1 :- LocalPut(opted, t.sender, ROLE, Const(USER_ROLE));
      Some(Step(st1, []))
  }

  /** set_role: the owner or an admin gives another account USER_ROLE or ADMIN_ROLE. */
  function SetRoleSpec(st: AppState, c: Call): Run
  {
    var t := c.Current();
    var target :- Account(t, 1);
    var role :- ArgUInt(t, 1);
    var _ :- Assert(!IsOwner(st, t.sender) ==> RoleOf(st, t.sender) == Const(ADMIN_ROLE));
    var _ :- Assert(t.sender != target);
    var _ :- Assert(role == Const(USER_ROLE) || role == Const(ADMIN_ROLE));
    var st1 :- LocalPut(st, target, ROLE, role);
    Some(Step(st1, []))
  }

  /** add_module: an admin registers applications[1] under the module name args[1]. */
  function AddModuleSpec(st: AppState, c: Call): Run
  {
    var t := c.Current();
    var name :- Arg(t, 1);
    var id :- App(t, 1);
    var _ :- Assert(RoleOf(st, t.sender) == Const(ADMIN_ROLE));
    Some(Step(st.(global := st.global[name := Int(id)]), []))
  }

  /** remove_module: an admin deletes the key equal to the value stored under the module name. */
  function RemoveModuleSpec(st: AppState, c: Call): Run
  {
    var t := c.Current();
    var name :- Arg(t, 1);
    var _ :- Assert(RoleOf(st, t.sender) == Const(ADMIN_ROLE));
    Some(Step(st.(global := st.global - {Get(st.global, name)}), []))
  }

  /** withdraw_algos: the owner has the program pay Btoi(args[1]) microalgos to accounts[1]. */
  function WithdrawAlgosSpec(st: AppState, c: Call): Run
  {
    var t := c.Current();
    var beneficiary :- Account(t, 1);
    var amountV :- ArgUInt(t, 1);
    var amount :- AsUInt(amountV);
    var _ :- Assert(IsOwner(st, t.sender));
    Some(Step(st, [[InnerPayment(c, beneficiary, amount)]]))
  }

  /** withdraw_tokens: the owner has the program transfer Btoi(args[1]) of assets[0] to accounts[1]. */
  function WithdrawTokensSpec(st: AppState, c: Call): Run
  {
    var t := c.Current();
    var beneficiary :- Account(t, 1);
    var amountV :- ArgUInt(t, 1);
    var amount :- AsUInt(amountV);
    var asset :- Asset(t, 0);
    var _ :- Assert(IsOwner(st, t.sender));
    Some(Step(st, [[InnerAssetTransfer(c, beneficiary, asset, amount)]]))
  }

  /** update_app: approved for the owner recorded by the application ADMIN_ID names. */
  function UpdateAppSpec(st: AppState, c: Call): Run
  {
    var _ :- Assert(OwnerRole(c, st.global));
    Some(Step(st, []))
  }

  /**
   * set_verified_status: an admin sets another account's STATUS to
   * VERIFIED_STATUS or NOT_VERIFIED_STATUS and moves VERIFIED_CREATORS up
   * or down by one, whatever the account's previous status.
   */
  function SetVerifiedStatusSpec(st: AppState, c: Call): Run
  {
    var t := c.Current();
    var target :- Account(t, 1);
    var status :- ArgUInt(t, 1);
    var _ :- Assert(RoleOf(st, t.sender) == Const(ADMIN_ROLE));
    var _ :- Assert(t.sender != target);
    var _ :- Assert(status == Const(VERIFIED_STATUS) || status == Const(NOT_VERIFIED_STATUS));
    var st1 :- LocalPut(st, target, STATUS, status);
    var count :- AsUInt(Get(st1.global, VERIFIED_CREATORS));
    var count' :- if status == Const(VERIFIED_STATUS) then Add(count, 1) else Minus(count, 1);
    Some(Step(st1.(global := st1.global[VERIFIED_CREATORS := Int(count')]), []))
  }

  /**
   * set_local: the module registered under args[1], calling from its own
   * program, writes accounts[1]'s local args[2]; flag args[4] 0 stores the
   * bytes args[3], any other flag Btoi(args[3]).
   */
  function SetLocalSpec(st: AppState, c: Call): Run
  {
    var t := c.Current();
    var beneficiary :- Account(t, 1);
    var moduleName :- Arg(t, 1);
    var name :- Arg(t, 2);
    var value :- Arg(t, 3);
    var flag :- ArgUInt(t, 4);
    var _ :- Assert(c.callerApp != 0 && Int(c.callerApp) == Get(st.global, moduleName));
    var stored :- if flag == Int(0) then Some(value) else BtoiArg(value);
    var st1 :- LocalPut(st, beneficiary, name, stored);
    Some(Step(st1, []))
  }

  /** assets_optin: a sender whose ROLE is the number 1 opts the program into the stored NIFTGEN and USDC assets. */
  function AssetsOptinSpec(st: AppState, c: Call): Run
  {
    var t := c.Current();
    var niftgen :- Asset(t, 0);
    var usdc :- Asset(t, 1);
    var _ :- Assert(RoleOf(st, t.sender) == Int(1));
    var _ :- Assert(Int(usdc) == Get(st.global, USDC_ASSET_ID));
    var _ :- Assert(Int(niftgen) == Get(st.global, NIFTGEN_ASSET));
    Some(Step(st, [[InnerAssetTransfer(c, SelfAddress(c), niftgen, 0), InnerAssetTransfer(c, SelfAddress(c), usdc, 0)]]))
  }

  function Perform(op: Op, st: AppState, c: Call): Run
  {
    match op
    case Deploy => DeploySpec(st, c)
    case OptinAdmin => OptinAdminSpec(st, c)
    case UpdateApp => UpdateAppSpec(st, c)
    case ChangeOwnership => ChangeOwnershipSpec(st, c)
    case SetLocal => SetLocalSpec(st, c)
    case WithdrawAlgos => WithdrawAlgosSpec(st, c)
    case WithdrawTokens => WithdrawTokensSpec(st, c)
    case SetRole => SetRoleSpec(st, c)
    case SetVerifiedStatus => SetVerifiedStatusSpec(st, c)
    case AddModule => AddModuleSpec(st, c)
    case RemoveModule => RemoveModuleSpec(st, c)
    case AssetsOptin => AssetsOptinSpec(st, c)
  }

  /** One run of the admin approval program. */
  function Approval(st: AppState, c: Call): Run
  {
    var op :- Route(c);
    Perform(op, st, c)
  }

  /** One run of the approval program under the intended dispatch. */
  function ApprovalIntended(st: AppState, c: Call): Run
  {
    var op :- RouteIntended(c);
    Perform(op, st, c)
  }

  // ---------------------------------------------------------------- the program object

  class AdminApp {
    var global: Store
    var local: map<Address, Store>

    /** The program before its creation call: no state. */
    constructor ()
      ensures global == map[] && local == map[]
    {
      global := map[];
      local := map[];
    }

    function State(): AppState
      reads this
    {
      AppState(global, local)
    }

    method Deploy(c: Call) returns (r: Outcome)
      modifies this
      ensures Commits(old(State()), DeploySpec(old(State()), c), State(), r)
    {
      var t := c.Current();
      if |t.args| < 1 || |t.accounts| < 1 || |t.assets| < 2 {
        return Reject;
      }
      var fee := BtoiArg(t.args[0]);
      if fee.None? {
        return Reject;
      }
      global := global[PLATFORM_FEE := fee.value];
      global := global[OWNER := Bytes(t.sender)];
      global := global[FIRST_ADMIN := Bytes(t.accounts[0])];
      global := global[NIFTGEN_ASSET := Int(t.assets[0])];
      global := global[USDC_ASSET_ID := Int(t.assets[1])];
      global := global[VERIFIED_CREATORS := Int(0)];
      return Accept([]);
    }

    method ChangeOwnership(c: Call) returns (r: Outcome)
      modifies this
      ensures Commits(old(State()), ChangeOwnershipSpec(old(State()), c), State(), r)
    {
      var t := c.Current();
      if |t.accounts| < 1 || Get(global, OWNER) != Bytes(t.sender) || t.sender == t.accounts[0] {
        return Reject;
      }
      global := global[OWNER := Bytes(t.accounts[0])];
      return Accept([]);
    }

    method OptinAdmin(c: Call) returns (r: Outcome)
      modifies this
      ensures Commits(old(State()), OptinAdminSpec(old(State()), c), State(), r)
    {
      var t := c.Current();
      if !NoRekey(c) || t.sender in local {
        return Reject;
      }
      local := local[t.sender := map[]];
      if Bytes(t.sender) == Get(global, FIRST_ADMIN) {
        local := local[t.sender := local[t.sender][ROLE := Const(ADMIN_ROLE)]];
        global := global[FIRST_ADMIN := Bytes(ZeroAddress)];
      } else if Get(global, OWNER) == Bytes(t.sender) {
        local := local[t.sender := local[t.sender][ROLE := Const(ADMIN_ROLE)]];
      } else {
        local := local[t.sender := local[t.sender][ROLE := Const(USER_ROLE)]];
      }
      return Accept([]);
    }

    method SetRole(c: Call) returns (r: Outcome)
      modifies this
      ensures Commits(old(State()), SetRoleSpec(old(State()), c), State(), r)
    {
      var t := c.Current();
      if |t.accounts| < 1 || |t.args| < 2 {
        return Reject;
      }
      var target := t.accounts[0];
      var role := BtoiArg(t.args[1]);
      if role.None? {
        return Reject;
      }
      if Get(global, OWNER) != Bytes(t.sender) && LocalGet(State(), t.sender, ROLE) != Const(ADMIN_ROLE) {
        return Reject;
      }
      if t.sender == target || (role.value != Const(USER_ROLE) && role.value != Const(ADMIN_ROLE)) {
        return Reject;
      }
      if target !in local {
        return Reject;
      }
      local := local[target := local[target][ROLE := role.value]];
      return Accept([]);
    }

    method AddModule(c: Call) returns (r: Outcome)
      modifies this
      ensures Commits(old(State()), AddModuleSpec(old(State()), c), State(), r)
    {
      var t := c.Current();
      if |t.args| < 2 || |t.apps| < 1 || LocalGet(State(), t.sender, ROLE) != Const(ADMIN_ROLE) {
        return Reject;
      }
      global := global[t.args[1] := Int(t.apps[0])];
      return Accept([]);
    }

    method RemoveModule(c: Call) returns (r: Outcome)
      modifies this
      ensures Commits(old(State()), RemoveModuleSpec(old(State()), c), State(), r)
    {
      var t := c.Current();
      if |t.args| < 2 || LocalGet(State(), t.sender, ROLE) != Const(ADMIN_ROLE) {
        return Reject;
      }
      var registered := Get(global, t.args[1]);
      global := global - {registered};
      return Accept([]);
    }

    method WithdrawAlgos(c: Call) returns (r: Outcome)
      modifies this
      ensures Commits(old(State()), WithdrawAlgosSpec(old(State()), c), State(), r)
    {
      var t := c.Current();
      if |t.accounts| < 1 || |t.args| < 2 {
        return Reject;
      }
      var amount := BtoiArg(t.args[1]);
      if amount.None? || !amount.value.Int? || Get(global, OWNER) != Bytes(t.sender) {
        return Reject;
      }
      var outbox: Outbox := [];
      outbox := outbox + [[InnerPayment(c, t.accounts[0], amount.value.n)]];
      return Accept(outbox);
    }

    method WithdrawTokens(c: Call) returns (r: Outcome)
      modifies this
      ensures Commits(old(State()), WithdrawTokensSpec(old(State()), c), State(), r)
    {
      var t := c.Current();
      if |t.accounts| < 1 || |t.args| < 2 || |t.assets| < 1 {
        return Reject;
      }
      var amount := BtoiArg(t.args[1]);
      if amount.None? || !amount.value.Int? || Get(global, OWNER) != Bytes(t.sender) {
        return Reject;
      }
      var outbox: Outbox := [];
      outbox := outbox + [[InnerAssetTransfer(c, t.accounts[0], t.assets[0], amount.value.n)]];
      return Accept(outbox);
    }

    method UpdateApp(c: Call) returns (r: Outcome)
      modifies this
      ensures Commits(old(State()), UpdateAppSpec(old(State()), c), State(), r)
    {
      if !OwnerRole(c, global) {
        return Reject;
      }
      return Accept([]);
    }

    method SetVerifiedStatus(c: Call) returns (r: Outcome)
      modifies this
      ensures Commits(old(State()), SetVerifiedStatusSpec(old(State()), c), State(), r)
    {
      var t := c.Current();
      if |t.accounts| < 1 || |t.args| < 2 {
        return Reject;
      }
      var target := t.accounts[0];
      var status := BtoiArg(t.args[1]);
      if status.None? || LocalGet(State(), t.sender, ROLE) != Const(ADMIN_ROLE) || t.sender == target {
        return Reject;
      }
      if status.value != Const(VERIFIED_STATUS) && status.value != Const(NOT_VERIFIED_STATUS) {
        return Reject;
      }
      if target !in local {
        return Reject;
      }
      var count := Get(global, VERIFIED_CREATORS);
      if !count.Int? {
        return Reject;
      }
      var count': U64;
      if status.value == Const(VERIFIED_STATUS) {
        if count.n + 1 > MaxUInt {
          return Reject;
        }
        count' := count.n + 1;
      } else {
        if count.n < 1 {
          return Reject;
        }
        count' := count.n - 1;
      }
      local := local[target := local[target][STATUS := status.value]];
      global := global[VERIFIED_CREATORS := Int(count')];
      return Accept([]);
    }

    method SetLocal(c: Call) returns (r: Outcome)
      modifies this
      ensures Commits(old(State()), SetLocalSpec(old(State()), c), State(), r)
    {
      var t := c.Current();
      if |t.accounts| < 1 || |t.args| < 5 {
        return Reject;
      }
      var flag := BtoiArg(t.args[4]);
      if flag.None? || c.callerApp == 0 || Int(c.callerApp) != Get(global, t.args[1]) {
        return Reject;
      }
      var stored := if flag.value == Int(0) then Some(t.args[3]) else BtoiArg(t.args[3]);
      if stored.None? || t.accounts[0] !in local {
        return Reject;
      }
      local := local[t.accounts[0] := local[t.accounts[0]][t.args[2] := stored.value]];
      return Accept([]);
    }

    method AssetsOptin(c: Call) returns (r: Outcome)
      modifies this
      ensures Commits(old(State()), AssetsOptinSpec(old(State()), c), State(), r)
    {
      var t := c.Current();
      if |t.assets| < 2 || LocalGet(State(), t.sender, ROLE) != Int(1) {
        return Reject;
      }
      if Int(t.assets[1]) != Get(global, USDC_ASSET_ID) || Int(t.assets[0]) != Get(global, NIFTGEN_ASSET) {
        return Reject;
      }
      var group := [InnerAssetTransfer(c, SelfAddress(c), t.assets[0], 0)];
      group := group + [InnerAssetTransfer(c, SelfAddress(c), t.assets[1], 0)];
      assert group == [InnerAssetTransfer(c, SelfAddress(c), t.assets[0], 0), InnerAssetTransfer(c, SelfAddress(c), t.assets[1], 0)];
      return Accept([group]);
    }

    /** admin_approval: route the call, then run the selected handler. */
    method Approve(c: Call) returns (r: Outcome)
      modifies this
      ensures Commits(old(State()), Approval(old(State()), c), State(), r)
    {
      var op := Route(c);
      if op.None? {
        return Reject;
      }
      match op.value {
        case Deploy => r := Deploy(c);
        case OptinAdmin => r := OptinAdmin(c);
        case UpdateApp => r := UpdateApp(c);
        case ChangeOwnership => r := ChangeOwnership(c);
        case SetLocal => r := SetLocal(c);
        case WithdrawAlgos => r := WithdrawAlgos(c);
        case WithdrawTokens => r := WithdrawTokens(c);
        case SetRole => r := SetRole(c);
        case SetVerifiedStatus => r := SetVerifiedStatus(c);
        case AddModule => r := AddModule(c);
        case RemoveModule => r := RemoveModule(c);
        case AssetsOptin => r := AssetsOptin(c);
      }
    }
  }

  // ---------------------------------------------------------------- properties

  /** A NoOp call that passes set_local_checker is dispatched to change_ownership. */
  lemma SetLocalRequestRunsChangeOwnership(c: Call)
    requires c.Current().appId != 0 && c.Current().onCompletion == NoOp
    requires ArgIs(c.Current(), 0, SET_LOCAL) && |c.group| == 1 && NoRekey(c)
    ensures Route(c) == Some(ChangeOwnership)
  {
  }

  /** As written, a lone change_ownership request under its own tag CHANGE_OWNERSHIP is rejected: no branch is guarded by its checker. */
  lemma ChangeOwnershipTagRejected(c: Call)
    requires c.Current().appId != 0 && c.Current().onCompletion == NoOp
    requires ArgIs(c.Current(), 0, CHANGE_OWNERSHIP) && |c.group| == 1
    ensures Route(c).None?
  {
    FirstMatchFaultsAt(NoOpBranches(c), 8);
  }

  /** Under the intended dispatch a lone SET_LOCAL call reaches set_local. */
  lemma IntendedSetLocalReached(c: Call)
    requires c.Current().appId != 0 && c.Current().onCompletion == NoOp
    requires ArgIs(c.Current(), 0, SET_LOCAL) && |c.group| == 1 && NoRekey(c)
    ensures RouteIntended(c) == Some(SetLocal)
  {
    FirstMatchAt(NoOpBranchesIntended(c), 1);
  }

  /** Under the intended dispatch a lone CHANGE_OWNERSHIP call reaches change_ownership, and no other tag does. */
  lemma IntendedChangeOwnershipRouted(c: Call)
    requires c.Current().appId != 0 && c.Current().onCompletion == NoOp
    ensures ArgIs(c.Current(), 0, CHANGE_OWNERSHIP) && |c.group| == 1 && NoRekey(c) ==> RouteIntended(c) == Some(ChangeOwnership)
    ensures RouteIntended(c) == Some(ChangeOwnership) ==> ArgIs(c.Current(), 0, CHANGE_OWNERSHIP)
  {
    var bs := NoOpBranchesIntended(c);
    if ArgIs(c.Current(), 0, CHANGE_OWNERSHIP) && |c.group| == 1 && NoRekey(c) {
      FirstMatchAt(bs, 0);
    }
    if bs[0].0 != Some(true) {
      FirstMatchAvoids(bs[1..], ChangeOwnership);
      if bs[0].0 == Some(false) {
        assert FirstMatch(bs) == FirstMatch(bs[1..]);
      }
    }
  }

  /** set_local is never dispatched: its checker is the one that already selected change_ownership. */
  lemma SetLocalUnreachable(c: Call)
    ensures Route(c) != Some(SetLocal)
  {
    var bs := NoOpBranches(c);
    FirstMatchSelects(bs, SetLocal);
    forall i | 0 <= i < |bs| && bs[i] == (Some(true), SetLocal)
      ensures i == 1 && bs[0].0 == Some(true)
    {
    }
  }

  predicate ValidRole(v: Value)
  {
    v == Const(ADMIN_ROLE) || v == Const(USER_ROLE)
  }

  /** Every ROLE this program has stored is ADMIN_ROLE or USER_ROLE. */
  predicate RolesWellFormed(st: AppState)
  {
    forall a :: a in st.local && ROLE in st.local[a] ==> ValidRole(st.local[a][ROLE])
  }

  /** No admin run stores any other role: the only handler that could, set_local, is unreachable. */
  lemma ApprovalPreservesRoles(st: AppState, c: Call)
    requires RolesWellFormed(st)
    ensures Approval(st, c).Some? ==> RolesWellFormed(Approval(st, c).value.state)
  {
    SetLocalUnreachable(c);
    if Route(c).Some? {
      PerformPreservesRoles(Route(c).value, st, c);
    }
  }

  lemma PerformPreservesRoles(op: Op, st: AppState, c: Call)
    requires RolesWellFormed(st) && op != SetLocal
    ensures Perform(op, st, c).Some? ==> RolesWellFormed(Perform(op, st, c).value.state)
  {
    var t := c.Current();
    match op
    case OptinAdmin =>
      var opted := st.(local := st.local[t.sender := map[]]);
      var role := if Bytes(t.sender) == Get(st.global, FIRST_ADMIN) || IsOwner(st, t.sender) then Const(ADMIN_ROLE) else Const(USER_ROLE);
      LocalPutKeepsRoles(opted, t.sender, ROLE, role);
    case SetRole =>
      if |t.accounts| >= 1 && ArgUInt(t, 1).Some? && ValidRole(ArgUInt(t, 1).value) {
        LocalPutKeepsRoles(st, t.accounts[0], ROLE, ArgUInt(t, 1).value);
      }
    case SetVerifiedStatus =>
      if |t.accounts| >= 1 && ArgUInt(t, 1).Some? {
        LocalPutKeepsRoles(st, t.accounts[0], STATUS, ArgUInt(t, 1).value);
      }
    case Deploy =>
    case UpdateApp =>
    case ChangeOwnership =>
    case WithdrawAlgos =>
    case WithdrawTokens =>
    case AddModule =>
    case RemoveModule =>
    case AssetsOptin =>
  }

  lemma LocalPutKeepsRoles(st: AppState, account: Address, key: Value, v: Value)
    requires RolesWellFormed(st)
    requires key == ROLE ==> ValidRole(v)
    ensures LocalPut(st, account, key, v).Some? ==> RolesWellFormed(LocalPut(st, account, key, v).value)
  {
  }

  /**
   * assets_optin compares the sender's ROLE with the literal 1; so while
   * every stored role is ADMIN_ROLE or USER_ROLE and neither of those is
   * the uint 1, nobody passes it.
   */
  lemma AssetsOptinNeedsRoleOne(st: AppState, c: Call)
    ensures AssetsOptinSpec(st, c).Some? ==> RoleOf(st, c.Current().sender) == Int(1)
    ensures RolesWellFormed(st) && Const(ADMIN_ROLE) != Int(1) && Const(USER_ROLE) != Int(1) ==> AssetsOptinSpec(st, c).None?
  {
  }

  /**
   * update_app reads OWNER through ADMIN_ID, which this program does not
   * set itself: with ADMIN_ID missing the id read is 0, the running
   * program, so exactly its own OWNER may update it, and the update
   * changes nothing.
   */
  lemma UpdateOnlyOwner(st: AppState, c: Call)
    ensures ADMIN_ID !in st.global ==> (UpdateAppSpec(st, c).Some? <==> Get(st.global, OWNER) == Bytes(Sender(c)))
    ensures UpdateAppSpec(st, c).Some? ==> UpdateAppSpec(st, c).value == Step(st, [])
    ensures c.Current().appId != 0 && c.Current().onCompletion == UpdateApplication ==> Approval(st, c) == UpdateAppSpec(st, c)
  {
  }

  /** deploy_contract records OWNER = sender, the fee, the first admin and a zero verified count. */
  lemma DeployRecords(st: AppState, c: Call)
    requires DeploySpec(st, c).Some?
    ensures var g := DeploySpec(st, c).value.state.global;
      var t := c.Current();
      g[OWNER] == Bytes(t.sender) && Some(g[PLATFORM_FEE]) == ArgUInt(t, 0) &&
      g[FIRST_ADMIN] == Bytes(t.accounts[0]) && g[VERIFIED_CREATORS] == Int(0) &&
      g[NIFTGEN_ASSET] == Int(t.assets[0]) && g[USDC_ASSET_ID] == Int(t.assets[1])
    ensures DeploySpec(st, c).value.state.local == st.local && DeploySpec(st, c).value.outbox == []
  {
  }

  /** change_ownership needs the owner's signature and a different new owner, and changes nothing but OWNER. */
  lemma ChangeOwnershipOnlyOwner(st: AppState, c: Call)
    ensures ChangeOwnershipSpec(st, c).Some? <==>
      |c.Current().accounts| >= 1 && IsOwner(st, c.Current().sender) && c.Current().sender != c.Current().accounts[0]
    ensures ChangeOwnershipSpec(st, c).Some? ==>
      var st' := ChangeOwnershipSpec(st, c).value.state;
      IsOwner(st', c.Current().accounts[0]) && st'.local == st.local &&
      (forall k :: k != OWNER ==> Get(st'.global, k) == Get(st.global, k))
  {
  }

  /**
   * optin_admin: FIRST_ADMIN and OWNER opt in as admins and everyone else
   * as a user; the first admin's opt-in clears FIRST_ADMIN.
   */
  lemma OptinAdminRoles(st: AppState, c: Call)
    requires OptinAdminSpec(st, c).Some?
    ensures var s := c.Current().sender;
      var st' := OptinAdminSpec(st, c).value.state;
      RoleOf(st', s) == (if Bytes(s) == Get(st.global, FIRST_ADMIN) || IsOwner(st, s) then Const(ADMIN_ROLE) else Const(USER_ROLE)) &&
      Get(st'.global, FIRST_ADMIN) == (if Bytes(s) == Get(st.global, FIRST_ADMIN) then Bytes(ZeroAddress) else Get(st.global, FIRST_ADMIN)) &&
      (forall a :: a != s ==> (a in st'.local <==> a in st.local) && (a in st.local ==> st'.local[a] == st.local[a]))
  {
  }

  /** After the first admin has opted in, any later account other than the owner and the zero address opts in as a user. */
  lemma FirstAdminBootstrapsOnce(st: AppState, c1: Call, c2: Call)
    requires OptinAdminSpec(st, c1).Some?
    requires Bytes(c1.Current().sender) == Get(st.global, FIRST_ADMIN)
    requires c2.Current().sender != ZeroAddress
    requires !IsOwner(OptinAdminSpec(st, c1).value.state, c2.Current().sender)
    ensures var st1 := OptinAdminSpec(st, c1).value.state;
      OptinAdminSpec(st1, c2).Some? ==> RoleOf(OptinAdminSpec(st1, c2).value.state, c2.Current().sender) == Const(USER_ROLE)
  {
    var st1 := OptinAdminSpec(st, c1).value.state;
    assert Get(st1.global, FIRST_ADMIN) == Bytes(ZeroAddress);
    if OptinAdminSpec(st1, c2).Some? {
      OptinAdminRoles(st1, c2);
    }
  }

  /** set_role: allowed for the owner or an admin, never on oneself, only to the two roles, and only the target's ROLE changes. */
  lemma SetRoleRules(st: AppState, c: Call)
    requires SetRoleSpec(st, c).Some?
    ensures var t := c.Current();
      var st' := SetRoleSpec(st, c).value.state;
      var target := t.accounts[0];
      (IsOwner(st, t.sender) || RoleOf(st, t.sender) == Const(ADMIN_ROLE)) && t.sender != target &&
      ValidRole(RoleOf(st', target)) && Some(RoleOf(st', target)) == ArgUInt(t, 1) &&
      st'.global == st.global && target in st.local &&
      st'.local == st.local[target := st.local[target][ROLE := RoleOf(st', target)]]
  {
  }

  /**
   * set_verified_status moves VERIFIED_CREATORS by exactly one in the
   * direction of the new status, whatever the account's previous status.
   */
  lemma VerifiedCounterMovesByOne(st: AppState, c: Call)
    requires SetVerifiedStatusSpec(st, c).Some?
    ensures var t := c.Current();
      var st' := SetVerifiedStatusSpec(st, c).value.state;
      Get(st.global, VERIFIED_CREATORS).Int? && Get(st'.global, VERIFIED_CREATORS).Int? &&
      (ArgUInt(t, 1) == Some(Const(VERIFIED_STATUS)) ==>
         Get(st'.global, VERIFIED_CREATORS).n == Get(st.global, VERIFIED_CREATORS).n + 1) &&
      (ArgUInt(t, 1) == Some(Const(NOT_VERIFIED_STATUS)) ==>
         Get(st'.global, VERIFIED_CREATORS).n == Get(st.global, VERIFIED_CREATORS).n - 1) &&
      LocalGet(st', t.accounts[0], STATUS) == ArgUInt(t, 1).value
  {
  }

  /**
   * set_local, were it reached: only the module registered under args[1],
   * calling from its own program, writes one local of an opted-in account;
   * flag 0 stores the bytes as given and any other flag their Btoi.
   */
  lemma SetLocalStores(st: AppState, c: Call)
    requires SetLocalSpec(st, c).Some?
    ensures var t := c.Current();
      var st' := SetLocalSpec(st, c).value.state;
      var who := t.accounts[0];
      c.callerApp != 0 && Int(c.callerApp) == Get(st.global, t.args[1]) && who in st.local &&
      (ArgUInt(t, 4) == Some(Int(0)) ==> LocalGet(st', who, t.args[2]) == t.args[3]) &&
      (ArgUInt(t, 4) != Some(Int(0)) ==> Some(LocalGet(st', who, t.args[2])) == BtoiArg(t.args[3])) &&
      st'.global == st.global && st'.local == st.local[who := st'.local[who]] &&
      (forall k :: k != t.args[2] ==> LocalGet(st', who, k) == LocalGet(st, who, k))
  {
  }

  /** Marking a creator not verified while the counter is 0 aborts. */
  lemma UnverifyAtZeroAborts(st: AppState, c: Call)
    requires Get(st.global, VERIFIED_CREATORS) == Int(0)
    requires ArgUInt(c.Current(), 1) == Some(Const(NOT_VERIFIED_STATUS))
    ensures SetVerifiedStatusSpec(st, c).None?
  {
  }

  /**
   * remove_module deletes the key equal to the registered id, not the
   * module-name key: after add_module(name, id), remove_module(name)
   * leaves name registered to id.
   */
  lemma RemoveModuleKeepsRegistration(st: AppState, add: Call, remove: Call)
    requires AddModuleSpec(st, add).Some?
    requires Arg(add.Current(), 1).value.Bytes?
    requires Arg(remove.Current(), 1) == Arg(add.Current(), 1)
    ensures var st1 := AddModuleSpec(st, add).value.state;
      var name := add.Current().args[1];
      RemoveModuleSpec(st1, remove).Some? ==>
        Get(RemoveModuleSpec(st1, remove).value.state.global, name) == Int(add.Current().apps[0])
  {
  }

  /**
   * add_module writes whatever key the admin names: naming OWNER replaces
   * the owner's address by a uint, after which no account is the owner.
   */
  lemma AddModuleCanOverwriteOwner(st: AppState, c: Call)
    requires AddModuleSpec(st, c).Some? && c.Current().args[1] == OWNER
    ensures forall a :: !IsOwner(AddModuleSpec(st, c).value.state, a)
  {
  }

  /**
   * withdraw_algos and withdraw_tokens: approved exactly when the owner signs
   * and names a beneficiary and a uint amount (and, for tokens, an asset);
   * the program's state is untouched and the one inner transaction pays that
   * amount to the beneficiary.
   */
  lemma WithdrawsPayBeneficiary(st: AppState, c: Call)
    ensures var t := c.Current();
      WithdrawAlgosSpec(st, c).Some? <==>
        |t.accounts| >= 1 && ArgUInt(t, 1).Some? && ArgUInt(t, 1).value.Int? && IsOwner(st, t.sender)
    ensures var t := c.Current();
      WithdrawTokensSpec(st, c).Some? <==>
        |t.accounts| >= 1 && |t.assets| >= 1 && ArgUInt(t, 1).Some? && ArgUInt(t, 1).value.Int? && IsOwner(st, t.sender)
    ensures var t := c.Current();
      WithdrawAlgosSpec(st, c).Some? ==>
        WithdrawAlgosSpec(st, c).value == Step(st, [[InnerPayment(c, t.accounts[0], ArgUInt(t, 1).value.n)]])
    ensures var t := c.Current();
      WithdrawTokensSpec(st, c).Some? ==>
        WithdrawTokensSpec(st, c).value == Step(st, [[InnerAssetTransfer(c, t.accounts[0], t.assets[0], ArgUInt(t, 1).value.n)]])
  {
  }

  /** Only the owner makes the admin program pay out (assets_optin's zero-amount opt-ins aside). */
  lemma OnlyOwnerWithdraws(st: AppState, c: Call)
    requires Approval(st, c).Some? && Approval(st, c).value.outbox != []
    ensures Route(c) == Some(WithdrawAlgos) || Route(c) == Some(WithdrawTokens) || Route(c) == Some(AssetsOptin)
    ensures Route(c) != Some(AssetsOptin) ==> IsOwner(st, c.Current().sender)
  {
    PerformPayers(Route(c).value, st, c);
  }

  lemma PerformPayers(op: Op, st: AppState, c: Call)
    requires Perform(op, st, c).Some? && Perform(op, st, c).value.outbox != []
    ensures op == WithdrawAlgos || op == WithdrawTokens || op == AssetsOptin
    ensures op != AssetsOptin ==> IsOwner(st, c.Current().sender)
  {
    match op
    case Deploy =>
    case OptinAdmin =>
    case UpdateApp =>
    case ChangeOwnership =>
    case SetLocal =>
    case WithdrawAlgos =>
    case WithdrawTokens =>
    case SetRole =>
    case SetVerifiedStatus =>
    case AddModule =>
    case RemoveModule =>
    case AssetsOptin =>
  }
}

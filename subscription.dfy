/**
 * contracts/modules/subscription_app.py: the subscription program of one
 * creator.  An account opts in as BASIC_SUBSCRIPTION.  A group of three
 * transactions - the subscriber's payment, the subscriber's SUBSCRIBE or
 * RENEW_SUBSCRIPTION call, and a UTILITY call signed by a platform admin
 * that carries the terms - makes it PREMIUM_SUBSCRIPTION or moves its
 * expiry, and the payment is forwarded at once under one of three fixed
 * split policies: 30/70 to the admin account and the creator, 50/40/10 to
 * the admin account, a referring creator and the creator pool, or 50/50
 * to the admin account and the creator pool.
 */
module Subscription {
  import opened Avm
  import opened Constants
  import opened Checkers
  import opened Utility

  /** The handlers of subscription_app_approval. */
  datatype Op = Deploy | Optin | UtilityCall | ChangeAdminId | UsdcAssetOptin | Renew | Subscribe | UpdateApp | CloseOutCall

  /** handle_noop: the checkers in source order. */
  function NoOpBranches(c: Call): seq<(Option<bool>, Op)>
  {
    [ (UtilityChecker(c), UtilityCall),
      (ChangeAdminIdChecker(c), ChangeAdminId),
      (AssetOptinChecker(c), UsdcAssetOptin),
      (RenewChecker(c), Renew),
      (SubscribeChecker(c), Subscribe) ]
  }

  function Route(c: Call): Option<Op>
  {
    var t := c.Current();
    if t.appId == 0 then Some(Deploy)
    else if t.onCompletion == OptIn then Some(Optin)
    else if t.onCompletion == NoOp then FirstMatch(NoOpBranches(c))
    else if t.onCompletion == UpdateApplication then Some(UpdateApp)
    else if t.onCompletion == CloseOut then Some(CloseOutCall)
    else None
  }

  // ---------------------------------------------------------------- the terms of a request

  /** The split policies a request names in Btoi(Gtxn[2].application_args[4]). */
  datatype Plan = Direct | Referral | Platform

  function PlanOf(mode: Value): Option<Plan>
  {
    if mode == Const(SUBSCRIBE_CREATOR) then Some(Direct)
    else if mode == Const(SUBSCRIBE_REFERRAL) then Some(Referral)
    else if mode == Const(SUBSCRIBE_PLATFORM) then Some(Platform)
    else None
  }

  /** The policy of the request in the third leg; any other mode value aborts. */
  function ModeOf(c: Call): Option<Plan>
  {
    var g2 :- c.Gtxn(2);
    var mode :- ArgUInt(g2, 4);
    PlanOf(mode)
  }

  /**
   * The percentages a policy pays, in the order it pays them: the admin
   * application's account first, then (for a referral) the referring
   * creator, then the creator or the creator pool.
   */
  function Percentages(p: Plan): seq<nat>
  {
    match p
    case Direct => [30, 70]
    case Referral => [50, 40, 10]
    case Platform => [50, 50]
  }

  /** What the admin's UTILITY call carries: its signer, the payment option, the amount, the new expiry and the payees. */
  datatype Request = Request(admin: Address, option: Value, amount: U64, expires: U64, pool: Address, referral: Address)

  /**
   * Gtxn[2]: Btoi of arguments 1 to 3 and accounts 1 (the creator or the
   * creator pool) and, for a referral only, 2 (the referring creator);
   * the zero address stands in for the referral account of the other
   * policies, which never read it.
   */
  function RequestOf(c: Call, plan: Plan): Option<Request>
  {
    var g2 :- c.Gtxn(2);
    var option :- ArgUInt(g2, 1);
    var amountV :- ArgUInt(g2, 2);
    var amount :- AsUInt(amountV);
    var expiresV :- ArgUInt(g2, 3);
    var expires :- AsUInt(expiresV);
    var pool :- Account(g2, 1);
    var referral :- if plan == Referral then Account(g2, 2) else Some(ZeroAddress);
    Some(Request(g2.sender, option, amount, expires, pool, referral))
  }

  /** App.globalGetEx(admin_id, USDC_ASSET_ID).value() used as an asset id. */
  function UsdcOf(c: Call, global: Store, adminId: U64): Option<U64>
  {
    AsUInt(GlobalEx(c.ledger, global, adminId, USDC_ASSET_ID))
  }

  /**
   * The first leg pays `amount` to this application.  For ALGO it must be
   * a Payment sent by the subscriber.  For USDC it must move `amount` of
   * the admin's USDC asset, and its asset_sender must be the subscriber:
   * asset_sender is the field of a clawback transfer and is the zero
   * address in an ordinary one.  With `intended` the USDC leg's sender is
   * compared instead.
   */
  function PaymentReceived(c: Call, global: Store, adminId: U64, option: Value, amount: U64, intended: bool): Option<bool>
  {
    var g0 := c.group[0];
    if option == Const(ALGO) then
      Some(g0.txnType == Payment && g0.amount == amount && g0.receiver == SelfAddress(c) && g0.sender == Sender(c))
    else
      var usdc :- UsdcOf(c, global, adminId);
      Some(g0.xferAsset == usdc && g0.assetAmount == amount && g0.assetReceiver == SelfAddress(c) &&
           (if intended then g0.sender else g0.assetSender) == Sender(c))
  }

  /** inner_payment_transaction for ALGO, inner_asset_transaction of `asset` otherwise. */
  function Transfer(c: Call, algo: bool, receiver: Address, asset: U64, amount: U64): Txn
  {
    if algo then InnerPayment(c, receiver, amount) else InnerAssetTransfer(c, receiver, asset, amount)
  }

  /** increase_algo_pool_creator for ALGO, increase_asset_pool_creator otherwise. */
  function PoolDeposit(c: Call, global: Store, algo: bool, pool: Address, asset: U64, amount: U64): Option<seq<Txn>>
  {
    if algo then IncreaseAlgoPoolCreator(c, global, pool, amount) else IncreaseAssetPoolCreator(c, global, pool, asset, amount)
  }

  /**
   * The inner groups a policy submits, each share WideRatio([amount, p],
   * [100]): the admin application's account first; then for Direct the
   * creator's 70 as a plain transfer; for Referral the referring creator's
   * 40 and the creator pool's 10 through the pool deposit; for Platform the
   * creator pool's 50 through the pool deposit.
   */
  function Payouts(c: Call, global: Store, adminId: U64, plan: Plan, q: Request): Option<Outbox>
  {
    var admin := AppAddressEx(c, adminId);
    var algo := q.option == Const(ALGO);
    var usdc :- if algo then Some(0) else UsdcOf(c, global, adminId);
    match plan
    case Direct =>
      var toAdmin :- WideRatio(q.amount, 30, 100);
      var toCreator :- WideRatio(q.amount, 70, 100);
      Some([[Transfer(c, algo, admin, usdc, toAdmin)], [Transfer(c, algo, q.pool, usdc, toCreator)]])
    case Referral =>
      var toAdmin :- WideRatio(q.amount, 50, 100);
      var toPool :- WideRatio(q.amount, 10, 100);
      var toReferral :- WideRatio(q.amount, 40, 100);
      var deposit :- PoolDeposit(c, global, algo, q.pool, usdc, toPool);
      Some([[Transfer(c, algo, admin, usdc, toAdmin)], [Transfer(c, algo, q.referral, usdc, toReferral)], deposit])
    case Platform =>
      // amount_to_admin_fee and creator_pool_fee are the same WideRatio
      var half :- WideRatio(q.amount, 50, 100);
      var deposit :- PoolDeposit(c, global, algo, q.pool, usdc, half);
      Some([[Transfer(c, algo, admin, usdc, half)], deposit])
  }

  // ---------------------------------------------------------------- handler specifications

  /** deploy_contract: records applications[1] as ADMIN_ID, the module name, accounts[1] as the creator and assets[0] as USDC. */
  function DeploySpec(st: AppState, c: Call): Run
  {
    var t := c.Current();
    var adminId :- App(t, 1);
    var creator :- Account(t, 1);
    var usdc :- Asset(t, 0);
    var g := st.global[ADMIN_ID := Int(adminId)][MODULE_NAME := SUBSCRIPTION_APP]
               [CREATOR_ADDRESS := Bytes(creator)][USDC_ASSET_ID := Int(usdc)];
    Some(Step(st.(global := g), []))
  }

  /** optin: the new subscriber starts as BASIC_SUBSCRIPTION with expiry 0 and the program's creator address. */
  function OptinSpec(st: AppState, c: Call): Run
  {
    var s := Sender(c);
    var _ :- Assert(s !in st.local);
    var opted := st.(local := st.local[s := map[]]);
    var st1 :- LocalPut(opted, s, SUBSCRIPTION_STATUS, Const(BASIC_SUBSCRIPTION));
    var st2 :- LocalPut(st1, s, SUBSCRIPTION_EXPIRES_DATE, Int(0));
    var st3 :- LocalPut(st2, s, CREATOR_ADDRESS, Get(st.global, CREATOR_ADDRESS));
    Some(Step(st3, []))
  }

  /** usdc_asset_optin: the program's creator opts it into the stored USDC asset. */
  function UsdcAssetOptinSpec(st: AppState, c: Call): Run
  {
    var _ :- Assert(Sender(c) == Creator(c));
    var usdc :- AsUInt(Get(st.global, USDC_ASSET_ID));
    Some(Step(st, [[InnerAssetTransfer(c, SelfAddress(c), usdc, 0)]]))
  }

  /** change_admin_id: an admin replaces ADMIN_ID by the global NEW_ADMIN_ID, which no handler here writes. */
  function ChangeAdminIdSpec(st: AppState, c: Call): Run
  {
    var _ :- Assert(AdminRole(c, st, Sender(c)));
    Some(Step(st.(global := st.global[ADMIN_ID := Get(st.global, NEW_ADMIN_ID)]), []))
  }

  /**
   * The five localPut calls of a subscription: PREMIUM status, the payment
   * option, the amount, the duration new expiry - now, and the new expiry
   * (each aborts unless the subscriber has opted in).
   */
  function Premium(entry: Store, q: Request, now: U64): Store
    requires q.expires >= now
  {
    entry[SUBSCRIPTION_STATUS := Const(PREMIUM_SUBSCRIPTION)][SUBSCRIPTION_PAYMENT_TYPE := q.option]
         [SUBSCRIPTION_AMOUNT_PAID := Int(q.amount)][SUBSCRIPTION_DURATION := Int(q.expires - now)]
         [SUBSCRIPTION_EXPIRES_DATE := Int(q.expires)]
  }

  /**
   * subscribe_creator, subscribe_with_referral and subscribe_platform: an
   * admin's terms, a BASIC subscriber whose previous expiry has passed, a
   * later new expiry and the exact payment; the shares are forwarded and
   * the subscriber's status, payment option, amount, duration and expiry
   * are written.
   */
  function SubscribeWith(st: AppState, c: Call, plan: Plan, intended: bool): Run
  {
    var terms :- SubscribeTerms(st, c, plan, intended);
    var out :- Payouts(c, st.global, terms.0, plan, terms.1);
    var s := Sender(c);
    // a BASIC status means the subscriber has opted in, so no localPut aborts
    Some(Step(st.(local := st.local[s := Premium(st.local[s], terms.1, c.now)]), out))
  }

  /**
   * The checks of a subscribe routine before it pays out, yielding ADMIN_ID
   * and the approved terms: an admin signed them, the subscriber is BASIC
   * and its expiry has passed, the new expiry lies ahead, the option is
   * ALGO or USDC and the first leg pays the amount.
   */
  function SubscribeTerms(st: AppState, c: Call, plan: Plan, intended: bool): (r: Option<(U64, Request)>)
    ensures r.Some? ==>
      var s := Sender(c);
      Some(r.value.0) == AdminIdOf(st.global) && Some(r.value.1) == RequestOf(c, plan) &&
      AdminRole(c, st, r.value.1.admin) && s in st.local &&
      LocalGet(st, s, SUBSCRIPTION_STATUS) == Const(BASIC_SUBSCRIPTION) &&
      LocalGet(st, s, SUBSCRIPTION_EXPIRES_DATE).Int? &&
      LocalGet(st, s, SUBSCRIPTION_EXPIRES_DATE).n <= c.now < r.value.1.expires &&
      IsPaymentOption(r.value.1.option) &&
      PaymentReceived(c, st.global, r.value.0, r.value.1.option, r.value.1.amount, intended) == Some(true)
  {
    var s := Sender(c);
    var adminId :- AdminIdOf(st.global);
    var q :- RequestOf(c, plan);
    var _ :- Assert(AdminRole(c, st, q.admin));
    var _ :- Assert(LocalGet(st, s, SUBSCRIPTION_STATUS) == Const(BASIC_SUBSCRIPTION));
    var expiry :- AsUInt(LocalGet(st, s, SUBSCRIPTION_EXPIRES_DATE));
    var _ :- Assert(c.now >= expiry && q.expires > c.now && IsPaymentOption(q.option));
    var paid :- PaymentReceived(c, st.global, adminId, q.option, q.amount, intended);
    var _ :- Assert(paid);
    Some((adminId, q))
  }

  /**
   * renew_creator, renew_with_referral and renew_platform: an admin's
   * terms, a PREMIUM subscriber and a new expiry after now (the current
   * expiry is not consulted); the shares are forwarded and only the expiry
   * is written.
   */
  function RenewWith(st: AppState, c: Call, plan: Plan, intended: bool): Run
  {
    var s := Sender(c);
    var adminId :- AdminIdOf(st.global);
    var q :- RequestOf(c, plan);
    var _ :- Assert(AdminRole(c, st, q.admin));
    var _ :- Assert(q.expires > c.now && LocalGet(st, s, SUBSCRIPTION_STATUS) == Const(PREMIUM_SUBSCRIPTION));
    var _ :- Assert(IsPaymentOption(q.option));
    var paid :- PaymentReceived(c, st.global, adminId, q.option, q.amount, intended);
    var _ :- Assert(paid);
    var out :- Payouts(c, st.global, adminId, plan, q);
    var st1 :- LocalPut(st, s, SUBSCRIPTION_EXPIRES_DATE, Int(q.expires));
    Some(Step(st1, out))
  }

  /** subscribe: the mode must be one of the three policies, and the matching routine runs. */
  function SubscribeSpec(st: AppState, c: Call): Run
  {
    var plan :- ModeOf(c);
    SubscribeWith(st, c, plan, false)
  }

  /** renew: the mode must be one of the three policies, and the matching routine runs. */
  function RenewSpec(st: AppState, c: Call): Run
  {
    var plan :- ModeOf(c);
    RenewWith(st, c, plan, false)
  }

  /** subscribe with the USDC leg's sender checked instead of its asset_sender. */
  function SubscribeIntendedSpec(st: AppState, c: Call): Run
  {
    var plan :- ModeOf(c);
    SubscribeWith(st, c, plan, true)
  }

  function UpdateAppSpec(st: AppState, c: Call): Run
  {
    var _ :- Assert(OwnerRole(c, st.global));
    Some(Step(st, []))
  }

  /** A CloseOut call is approved, and the ledger then drops the account's local state. */
  function CloseOutSpec(st: AppState, c: Call): Run
  {
    var _ :- Assert(Sender(c) in st.local);
    Some(Step(st.(local := st.local - {Sender(c)}), []))
  }

  function Perform(op: Op, st: AppState, c: Call): Run
  {
    match op
    case Deploy => DeploySpec(st, c)
    case Optin => OptinSpec(st, c)
    case UtilityCall => Some(Step(st, []))
    case ChangeAdminId => ChangeAdminIdSpec(st, c)
    case UsdcAssetOptin => UsdcAssetOptinSpec(st, c)
    case Renew => RenewSpec(st, c)
    case Subscribe => SubscribeSpec(st, c)
    case UpdateApp => UpdateAppSpec(st, c)
    case CloseOutCall => CloseOutSpec(st, c)
  }

  /** One run of subscription_app_approval. */
  function Approval(st: AppState, c: Call): Run
  {
    var op :- Route(c);
    Perform(op, st, c)
  }

  // ---------------------------------------------------------------- the program object

  class SubscriptionApp {
    var global: Store
    var local: map<Address, Store>

    constructor ()
      ensures global == map[] && local == map[]
    {
      global := map[];
      local := map[];
    }

    function State(): AppState
      reads this
    {
      AppState(global, local)
    }

    method Deploy(c: Call) returns (r: Outcome)
      modifies this
      ensures Commits(old(State()), DeploySpec(old(State()), c), State(), r)
    {
      var t := c.Current();
      if |t.apps| < 1 || |t.accounts| < 1 || |t.assets| < 1 {
        return Reject;
      }
      global := global[ADMIN_ID := Int(t.apps[0])];
      global := global[MODULE_NAME := SUBSCRIPTION_APP];
      global := global[CREATOR_ADDRESS := Bytes(t.accounts[0])];
      global := global[USDC_ASSET_ID := Int(t.assets[0])];
      return Accept([]);
    }

    method Optin(c: Call) returns (r: Outcome)
      modifies this
      ensures Commits(old(State()), OptinSpec(old(State()), c), State(), r)
    {
      var s := Sender(c);
      if s in local {
        return Reject;
      }
      var entry: Store := map[];
      entry := entry[SUBSCRIPTION_STATUS := Const(BASIC_SUBSCRIPTION)];
      entry := entry[SUBSCRIPTION_EXPIRES_DATE := Int(0)];
      entry := entry[CREATOR_ADDRESS := Get(global, CREATOR_ADDRESS)];
      local := local[s := entry];
      return Accept([]);
    }

    method UsdcAssetOptin(c: Call) returns (r: Outcome)
      ensures r == OutcomeOf(UsdcAssetOptinSpec(State(), c))
    {
      var usdc := Get(global, USDC_ASSET_ID);
      if Sender(c) != Creator(c) || !usdc.Int? {
        return Reject;
      }
      return Accept([[InnerAssetTransfer(c, SelfAddress(c), usdc.n, 0)]]);
    }

    method ChangeAdminId(c: Call) returns (r: Outcome)
      modifies this
      ensures Commits(old(State()), ChangeAdminIdSpec(old(State()), c), State(), r)
    {
      if !AdminRole(c, State(), Sender(c)) {
        return Reject;
      }
      global := global[ADMIN_ID := Get(global, NEW_ADMIN_ID)];
      return Accept([]);
    }

    /** The checks a subscribe routine makes before it pays out. */
    method CheckTerms(c: Call, plan: Plan) returns (terms: Option<(U64, Request)>)
      ensures terms == SubscribeTerms(State(), c, plan, false)
    {
      var s := Sender(c);
      var adminId := AdminIdOf(global);
      var q := RequestOf(c, plan);
      if adminId.None? || q.None? || !AdminRole(c, State(), q.value.admin) ||
         LocalGet(State(), s, SUBSCRIPTION_STATUS) != Const(BASIC_SUBSCRIPTION) {
        return None;
      }
      var expiry := LocalGet(State(), s, SUBSCRIPTION_EXPIRES_DATE);
      if !expiry.Int? || c.now < expiry.n || q.value.expires <= c.now || !IsPaymentOption(q.value.option) ||
         PaymentReceived(c, global, adminId.value, q.value.option, q.value.amount, false) != Some(true) {
        return None;
      }
      return Some((adminId.value, q.value));
    }

    /** One of the three subscribe routines. */
    method SubscribeAs(c: Call, plan: Plan) returns (r: Outcome)
      modifies this
      ensures Commits(old(State()), SubscribeWith(old(State()), c, plan, false), State(), r)
    {
      var terms := CheckTerms(c, plan);
      if terms.None? {
        return Reject;
      }
      var s := Sender(c);
      var adminId, q := terms.value.0, terms.value.1;
      var out := Payouts(c, global, adminId, plan, q);
      if out.None? {
        return Reject;
      }
      var entry := local[s];
      entry := entry[SUBSCRIPTION_STATUS := Const(PREMIUM_SUBSCRIPTION)];
      entry := entry[SUBSCRIPTION_PAYMENT_TYPE := q.option];
      entry := entry[SUBSCRIPTION_AMOUNT_PAID := Int(q.amount)];
      entry := entry[SUBSCRIPTION_DURATION := Int(q.expires - c.now)];
      entry := entry[SUBSCRIPTION_EXPIRES_DATE := Int(q.expires)];
      local := local[s := entry];
      return Accept(out.value);
    }

    /** One of the three renew routines. */
    method RenewAs(c: Call, plan: Plan) returns (r: Outcome)
      modifies this
      ensures Commits(old(State()), RenewWith(old(State()), c, plan, false), State(), r)
    {
      var s := Sender(c);
      var adminId := AdminIdOf(global);
      var q := RequestOf(c, plan);
      if adminId.None? || q.None? || !AdminRole(c, State(), q.value.admin) {
        return Reject;
      }
      if q.value.expires <= c.now || LocalGet(State(), s, SUBSCRIPTION_STATUS) != Const(PREMIUM_SUBSCRIPTION) {
        return Reject;
      }
      if !IsPaymentOption(q.value.option) ||
         PaymentReceived(c, global, adminId.value, q.value.option, q.value.amount, false) != Some(true) {
        return Reject;
      }
      var out := Payouts(c, global, adminId.value, plan, q.value);
      if out.None? || s !in local {
        return Reject;
      }
      local := local[s := local[s][SUBSCRIPTION_EXPIRES_DATE := Int(q.value.expires)]];
      return Accept(out.value);
    }

    method Subscribe(c: Call) returns (r: Outcome)
      modifies this
      ensures Commits(old(State()), SubscribeSpec(old(State()), c), State(), r)
    {
      var plan := ModeOf(c);
      if plan.None? {
        return Reject;
      }
      r := SubscribeAs(c, plan.value);
    }

    method Renew(c: Call) returns (r: Outcome)
      modifies this
      ensures Commits(old(State()), RenewSpec(old(State()), c), State(), r)
    {
      var plan := ModeOf(c);
      if plan.None? {
        return Reject;
      }
      r := RenewAs(c, plan.value);
    }

    method UpdateApp(c: Call) returns (r: Outcome)
      ensures r == OutcomeOf(UpdateAppSpec(State(), c))
    {
      if !OwnerRole(c, global) {
        return Reject;
      }
      return Accept([]);
    }

    method CloseOut(c: Call) returns (r: Outcome)
      modifies this
      ensures Commits(old(State()), CloseOutSpec(old(State()), c), State(), r)
    {
      if Sender(c) !in local {
        return Reject;
      }
      local := local - {Sender(c)};
      return Accept([]);
    }

    /** subscription_app_approval: route the call, then run the selected handler. */
    method Approve(c: Call) returns (r: Outcome)
      modifies this
      ensures Commits(old(State()), Approval(old(State()), c), State(), r)
    {
      var op := Route(c);
      if op.None? {
        return Reject;
      }
      match op.value {
        case Deploy => r := Deploy(c);
        case Optin => r := Optin(c);
        case UtilityCall => r := Accept([]);
        case ChangeAdminId => r := ChangeAdminId(c);
        case UsdcAssetOptin => r := UsdcAssetOptin(c);
        case Renew => r := Renew(c);
        case Subscribe => r := Subscribe(c);
        case UpdateApp => r := UpdateApp(c);
        case CloseOutCall => r := CloseOut(c);
      }
    }
  }

  // ---------------------------------------------------------------- the split policies

  function Sum(p: seq<nat>): nat
  {
    if p == [] then 0 else p[0] + Sum(p[1..])
  }

  /** The total of floor(amount * p / 100) over the percentages p. */
  function ShareTotal(amount: nat, p: seq<nat>): nat
  {
    if p == [] then 0 else amount * p[0] / 100 + ShareTotal(amount, p[1..])
  }

  /** Each floor loses less than one unit: 100 times the shares is within 99 per share below amount times the percentages. */
  lemma {:induction false} ShareTotalBounds(amount: nat, p: seq<nat>)
    ensures 100 * ShareTotal(amount, p) <= amount * Sum(p) <= 100 * ShareTotal(amount, p) + 99 * |p|
  {
    if p != [] {
      ShareTotalBounds(amount, p[1..]);
      var x := amount * p[0];
      assert 100 * (x / 100) <= x <= 100 * (x / 100) + 99;
      assert amount * Sum(p) == x + amount * Sum(p[1..]);
    }
  }

  /** Shares that make up 100 percent pay out at most the amount, and less than one unit per share stays behind. */
  lemma {:induction false} SplitShortfall(amount: nat, p: seq<nat>)
    requires Sum(p) == 100
    ensures ShareTotal(amount, p) <= amount && amount - ShareTotal(amount, p) < |p|
  {
    ShareTotalBounds(amount, p);
  }

  /** The three policies each distribute 100 percent. */
  lemma PoliciesAreWhole(plan: Plan)
    ensures Sum(Percentages(plan)) == 100
  {
    match plan
    case Direct =>
      assert [30, 70][1..] == [70] && [70][1..] == [];
    case Referral =>
      assert [50, 40, 10][1..] == [40, 10] && [40, 10][1..] == [10] && [10][1..] == [];
    case Platform =>
      assert [50, 50][1..] == [50] && [50][1..] == [];
  }

  /** The value an inner transaction moves out of the program's account: a payment's amount or a transfer's asset amount. */
  function TxnValue(t: Txn): nat
  {
    if t.txnType == Payment then t.amount else if t.txnType == AssetTransfer then t.assetAmount else 0
  }

  function GroupValue(g: seq<Txn>): nat
  {
    if g == [] then 0 else TxnValue(g[0]) + GroupValue(g[1..])
  }

  /** The total value the inner groups of an outbox move. */
  function Moved(o: Outbox): nat
  {
    if o == [] then 0 else GroupValue(o[0]) + Moved(o[1..])
  }

  lemma MovedTwo(a: seq<Txn>, b: seq<Txn>)
    ensures Moved([a, b]) == GroupValue(a) + GroupValue(b)
  {
    assert Moved([b]) == GroupValue(b) by { assert [b][1..] == []; }
    assert Moved([a, b]) == GroupValue(a) + Moved([b]) by { assert [a, b][1..] == [b]; }
  }

  lemma MovedThree(a: seq<Txn>, b: seq<Txn>, d: seq<Txn>)
    ensures Moved([a, b, d]) == GroupValue(a) + GroupValue(b) + GroupValue(d)
  {
    assert [a, b, d][1..] == [b, d];
    MovedTwo(b, d);
  }

  lemma GroupValueOne(t: Txn)
    ensures GroupValue([t]) == TxnValue(t)
  {
    assert [t][1..] == [];
  }

  /** A pool deposit moves exactly its amount: the transfer carries it and the accompanying call moves nothing. */
  lemma PoolDepositMoves(c: Call, global: Store, algo: bool, pool: Address, asset: U64, amount: U64)
    requires PoolDeposit(c, global, algo, pool, asset, amount).Some?
    ensures GroupValue(PoolDeposit(c, global, algo, pool, asset, amount).value) == amount
  {
    var g := PoolDeposit(c, global, algo, pool, asset, amount).value;
    assert TxnValue(g[0]) == amount && TxnValue(g[1]) == 0 && |g| == 2;
    assert GroupValue(g[1..]) == TxnValue(g[1]) by { assert g[1..][1..] == []; }
  }

  lemma TransferMoves(c: Call, algo: bool, receiver: Address, asset: U64, amount: U64)
    ensures GroupValue([Transfer(c, algo, receiver, asset, amount)]) == amount
  {
    GroupValueOne(Transfer(c, algo, receiver, asset, amount));
  }

  /** The inner groups of a policy move exactly its shares of the amount, in total. */
  lemma {:induction false} PayoutsMoveShares(c: Call, global: Store, adminId: U64, plan: Plan, q: Request)
    requires Payouts(c, global, adminId, plan, q).Some?
    ensures Moved(Payouts(c, global, adminId, plan, q).value) == ShareTotal(q.amount, Percentages(plan))
  {
    var algo := q.option == Const(ALGO);
    var usdc := if algo then 0 else UsdcOf(c, global, adminId).value;
    var out := Payouts(c, global, adminId, plan, q).value;
    match plan
    case Direct => DirectMoves(c, global, adminId, q, algo, usdc, out);
    case Referral => ReferralMoves(c, global, adminId, q, algo, usdc, out);
    case Platform => PlatformMoves(c, global, adminId, q, algo, usdc, out);
  }

  lemma {:induction false} DirectMoves(c: Call, global: Store, adminId: U64, q: Request, algo: bool, usdc: U64, out: Outbox)
    requires algo == (q.option == Const(ALGO)) && (!algo ==> UsdcOf(c, global, adminId) == Some(usdc))
    requires Payouts(c, global, adminId, Direct, q) == Some(out)
    ensures Moved(out) == ShareTotal(q.amount, [30, 70])
  {
    var admin := AppAddressEx(c, adminId);
    var a := q.amount;
    MulPercentFits(a, 30);
    MulPercentFits(a, 70);
    assert out == [[Transfer(c, algo, admin, usdc, a * 30 / 100)], [Transfer(c, algo, q.pool, usdc, a * 70 / 100)]];
    TransferMoves(c, algo, admin, usdc, a * 30 / 100);
    TransferMoves(c, algo, q.pool, usdc, a * 70 / 100);
    MovedTwo([Transfer(c, algo, admin, usdc, a * 30 / 100)], [Transfer(c, algo, q.pool, usdc, a * 70 / 100)]);
    assert ShareTotal(a, [70]) == a * 70 / 100 by { assert [70][1..] == []; }
    assert ShareTotal(a, [30, 70]) == a * 30 / 100 + ShareTotal(a, [70]) by { assert [30, 70][1..] == [70]; }
  }

  lemma {:induction false} ReferralMoves(c: Call, global: Store, adminId: U64, q: Request, algo: bool, usdc: U64, out: Outbox)
    requires algo == (q.option == Const(ALGO)) && (!algo ==> UsdcOf(c, global, adminId) == Some(usdc))
    requires Payouts(c, global, adminId, Referral, q) == Some(out)
    ensures Moved(out) == ShareTotal(q.amount, [50, 40, 10])
  {
    var admin := AppAddressEx(c, adminId);
    var a := q.amount;
    MulPercentFits(a, 50);
    MulPercentFits(a, 40);
    MulPercentFits(a, 10);
    var deposit := PoolDeposit(c, global, algo, q.pool, usdc, a * 10 / 100).value;
    assert out == [[Transfer(c, algo, admin, usdc, a * 50 / 100)], [Transfer(c, algo, q.referral, usdc, a * 40 / 100)], deposit];
    TransferMoves(c, algo, admin, usdc, a * 50 / 100);
    TransferMoves(c, algo, q.referral, usdc, a * 40 / 100);
    PoolDepositMoves(c, global, algo, q.pool, usdc, a * 10 / 100);
    MovedThree([Transfer(c, algo, admin, usdc, a * 50 / 100)], [Transfer(c, algo, q.referral, usdc, a * 40 / 100)], deposit);
    assert ShareTotal(a, [10]) == a * 10 / 100 by { assert [10][1..] == []; }
    assert ShareTotal(a, [40, 10]) == a * 40 / 100 + ShareTotal(a, [10]) by { assert [40, 10][1..] == [10]; }
    assert ShareTotal(a, [50, 40, 10]) == a * 50 / 100 + ShareTotal(a, [40, 10]) by { assert [50, 40, 10][1..] == [40, 10]; }
  }

  lemma {:induction false} PlatformMoves(c: Call, global: Store, adminId: U64, q: Request, algo: bool, usdc: U64, out: Outbox)
    requires algo == (q.option == Const(ALGO)) && (!algo ==> UsdcOf(c, global, adminId) == Some(usdc))
    requires Payouts(c, global, adminId, Platform, q) == Some(out)
    ensures Moved(out) == ShareTotal(q.amount, [50, 50])
  {
    var admin := AppAddressEx(c, adminId);
    var a := q.amount;
    MulPercentFits(a, 50);
    var deposit := PoolDeposit(c, global, algo, q.pool, usdc, a * 50 / 100).value;
    assert out == [[Transfer(c, algo, admin, usdc, a * 50 / 100)], deposit];
    TransferMoves(c, algo, admin, usdc, a * 50 / 100);
    PoolDepositMoves(c, global, algo, q.pool, usdc, a * 50 / 100);
    MovedTwo([Transfer(c, algo, admin, usdc, a * 50 / 100)], deposit);
    assert ShareTotal(a, [50]) == a * 50 / 100 by { assert [50][1..] == []; }
    assert ShareTotal(a, [50, 50]) == a * 50 / 100 + ShareTotal(a, [50]) by { assert [50, 50][1..] == [50]; }
  }

  /** A percentage share of a uint never exceeds it, so WideRatio([a, p], [100]) is defined and is the floor of a*p/100. */
  lemma MulPercentFits(a: U64, p: U64)
    requires p <= 100
    ensures a * p / 100 <= a && WideRatio(a, p, 100) == Some(a * p / 100)
  {
    assert a * p <= a * 100;
  }

  /** The payouts never abort: every share lies below the amount, so WideRatio fits, and the deposit's own reads decide the rest. */
  lemma PayoutsDefined(c: Call, global: Store, adminId: U64, plan: Plan, q: Request)
    requires q.option == Const(ALGO) || UsdcOf(c, global, adminId).Some?
    requires plan != Direct ==> (var algo := q.option == Const(ALGO);
      var usdc := if algo then 0 else UsdcOf(c, global, adminId).value;
      var share := if plan == Referral then q.amount * 10 / 100 else q.amount * 50 / 100;
      PoolDeposit(c, global, algo, q.pool, usdc, share).Some?)
    ensures Payouts(c, global, adminId, plan, q).Some?
  {
    MulPercentFits(q.amount, 30); MulPercentFits(q.amount, 70); MulPercentFits(q.amount, 50);
    MulPercentFits(q.amount, 40); MulPercentFits(q.amount, 10);
  }

  // ---------------------------------------------------------------- subscribe and renew

  /**
   * An approved subscription forwards what the first leg paid, less at
   * most one unit per share: the payment of `amount` (Algo or USDC) was
   * checked, and the outbox moves the policy's shares of it.
   */
  lemma SubscribeForwardsPayment(st: AppState, c: Call)
    requires SubscribeSpec(st, c).Some?
    ensures var plan := ModeOf(c).value;
      var q := RequestOf(c, plan).value;
      var out := SubscribeSpec(st, c).value.outbox;
      (q.option == Const(ALGO) ==> c.group[0].txnType == Payment && c.group[0].amount == q.amount) &&
      (q.option == Const(USDC) ==> c.group[0].assetAmount == q.amount) &&
      Moved(out) <= q.amount && q.amount - Moved(out) < |Percentages(plan)|
  {
    var plan := ModeOf(c).value;
    var q := RequestOf(c, plan).value;
    PayoutsMoveShares(c, st.global, AdminIdOf(st.global).value, plan, q);
    PoliciesAreWhole(plan);
    SplitShortfall(q.amount, Percentages(plan));
  }

  /** The same holds for a renewal. */
  lemma RenewForwardsPayment(st: AppState, c: Call)
    requires RenewSpec(st, c).Some?
    ensures var plan := ModeOf(c).value;
      var q := RequestOf(c, plan).value;
      var out := RenewSpec(st, c).value.outbox;
      (q.option == Const(ALGO) ==> c.group[0].txnType == Payment && c.group[0].amount == q.amount) &&
      (q.option == Const(USDC) ==> c.group[0].assetAmount == q.amount) &&
      Moved(out) <= q.amount && q.amount - Moved(out) < |Percentages(plan)|
  {
    var plan := ModeOf(c).value;
    var q := RequestOf(c, plan).value;
    PayoutsMoveShares(c, st.global, AdminIdOf(st.global).value, plan, q);
    PoliciesAreWhole(plan);
    SplitShortfall(q.amount, Percentages(plan));
  }

  /** A mode value other than the three policies rejects both subscribe and renew. */
  lemma UnknownModeRejected(st: AppState, c: Call)
    requires |c.group| >= 3 && |c.group[2].args| >= 5
    requires var m := BtoiArg(c.group[2].args[4]);
      m.Some? && m.value != Const(SUBSCRIBE_CREATOR) && m.value != Const(SUBSCRIBE_REFERRAL) && m.value != Const(SUBSCRIBE_PLATFORM)
    ensures SubscribeSpec(st, c).None? && RenewSpec(st, c).None?
  {
  }

  /**
   * What a successful subscription demanded and what it wrote: an admin
   * signed the terms, the subscriber was BASIC and its expiry had passed,
   * the new expiry lies ahead; its status, option, amount, duration and
   * expiry are replaced and nothing else changes.
   */
  lemma SubscribeRules(st: AppState, c: Call)
    requires SubscribeSpec(st, c).Some?
    ensures var s := Sender(c);
      var q := RequestOf(c, ModeOf(c).value).value;
      var st' := SubscribeSpec(st, c).value.state;
      AdminRole(c, st, c.group[2].sender) &&
      LocalGet(st, s, SUBSCRIPTION_STATUS) == Const(BASIC_SUBSCRIPTION) &&
      LocalGet(st, s, SUBSCRIPTION_EXPIRES_DATE).Int? && LocalGet(st, s, SUBSCRIPTION_EXPIRES_DATE).n <= c.now < q.expires &&
      IsPaymentOption(q.option) &&
      st'.global == st.global && s in st.local &&
      st'.local == st.local[s := Premium(st.local[s], q, c.now)]
  {
  }

  /** What a successful renewal demanded and what it wrote: only the subscriber's expiry changes, to the requested date. */
  lemma RenewRules(st: AppState, c: Call)
    requires RenewSpec(st, c).Some?
    ensures var s := Sender(c);
      var q := RequestOf(c, ModeOf(c).value).value;
      var st' := RenewSpec(st, c).value.state;
      AdminRole(c, st, c.group[2].sender) &&
      LocalGet(st, s, SUBSCRIPTION_STATUS) == Const(PREMIUM_SUBSCRIPTION) && c.now < q.expires &&
      IsPaymentOption(q.option) &&
      st'.global == st.global && s in st.local &&
      st'.local == st.local[s := st.local[s][SUBSCRIPTION_EXPIRES_DATE := Int(q.expires)]]
  {
  }

  /** The subscriber's state with its expiry replaced by `e`. */
  function WithExpiry(st: AppState, s: Address, e: Value): AppState
    requires s in st.local
  {
    st.(local := st.local[s := st.local[s][SUBSCRIPTION_EXPIRES_DATE := e]])
  }

  /**
   * A renewal does not look at the current expiry: whatever it is, the
   * same request is approved or rejected alike, pays out alike and leaves
   * the same state, so it may also move the expiry earlier.
   */
  lemma RenewIgnoresExpiry(st: AppState, c: Call, e: Value)
    requires Sender(c) in st.local
    ensures RenewSpec(WithExpiry(st, Sender(c), e), c).Some? == RenewSpec(st, c).Some?
    ensures RenewSpec(st, c).Some? ==> RenewSpec(WithExpiry(st, Sender(c), e), c) == RenewSpec(st, c)
  {
    var s := Sender(c);
    var st2 := WithExpiry(st, s, e);
    assert LocalGet(st2, s, SUBSCRIPTION_STATUS) == LocalGet(st, s, SUBSCRIPTION_STATUS);
    if RenewSpec(st, c).Some? {
      var q := RequestOf(c, ModeOf(c).value).value;
      assert st2.local[s][SUBSCRIPTION_EXPIRES_DATE := Int(q.expires)] == st.local[s][SUBSCRIPTION_EXPIRES_DATE := Int(q.expires)];
      assert st2.local[s := st2.local[s][SUBSCRIPTION_EXPIRES_DATE := Int(q.expires)]] ==
             st.local[s := st.local[s][SUBSCRIPTION_EXPIRES_DATE := Int(q.expires)]];
    }
  }

  /** A subscriber who has subscribed once can never subscribe again: its status stays PREMIUM through every later renewal. */
  lemma SubscribeOnce(st: AppState, c1: Call, c2: Call)
    requires SubscribeSpec(st, c1).Some? && Sender(c2) == Sender(c1)
    ensures SubscribeSpec(SubscribeSpec(st, c1).value.state, c2).None?
  {
    SubscribeRules(st, c1);
  }

  /** A renewal keeps the subscriber PREMIUM, so the account stays unable to subscribe. */
  lemma RenewKeepsPremium(st: AppState, c: Call)
    requires RenewSpec(st, c).Some?
    ensures LocalGet(RenewSpec(st, c).value.state, Sender(c), SUBSCRIPTION_STATUS) == Const(PREMIUM_SUBSCRIPTION)
  {
    RenewRules(st, c);
  }

  /** optin starts every subscriber as BASIC with expiry 0 and the creator's address, touching no other account. */
  lemma OptinRecords(st: AppState, c: Call)
    ensures OptinSpec(st, c).Some? <==> Sender(c) !in st.local
    ensures OptinSpec(st, c).Some? ==>
      OptinSpec(st, c).value.state ==
        st.(local := st.local[Sender(c) := map[SUBSCRIPTION_STATUS := Const(BASIC_SUBSCRIPTION),
                                               SUBSCRIPTION_EXPIRES_DATE := Int(0),
                                               CREATOR_ADDRESS := Get(st.global, CREATOR_ADDRESS)]])
  {
  }

  /** A fresh subscriber can subscribe straight away: expiry 0 has always passed. */
  lemma OptinThenSubscribeStatus(st: AppState, c: Call)
    requires OptinSpec(st, c).Some?
    ensures var st' := OptinSpec(st, c).value.state;
      LocalGet(st', Sender(c), SUBSCRIPTION_STATUS) == Const(BASIC_SUBSCRIPTION) &&
      LocalGet(st', Sender(c), SUBSCRIPTION_EXPIRES_DATE) == Int(0)
  {
  }

  // ---------------------------------------------------------------- the USDC payment check

  /**
   * As written, a USDC subscription or renewal paid by an ordinary asset
   * transfer (asset_sender left at the zero address) from any real account
   * is rejected: the check compares asset_sender, not sender.
   */
  lemma OrdinaryUsdcPaymentRefused(st: AppState, c: Call)
    requires ModeOf(c).Some? && RequestOf(c, ModeOf(c).value).Some?
    requires RequestOf(c, ModeOf(c).value).value.option == Const(USDC)
    requires c.group[0].assetSender == ZeroAddress && Sender(c) != ZeroAddress
    ensures SubscribeSpec(st, c).None? && RenewSpec(st, c).None?
  {
  }

  /** Comparing the sender accepts that ordinary transfer when it moves the requested USDC amount to this program. */
  lemma IntendedUsdcPaymentAccepted(c: Call, global: Store, adminId: U64, amount: U64)
    requires UsdcOf(c, global, adminId).Some?
    requires var g0 := c.group[0];
      g0.xferAsset == UsdcOf(c, global, adminId).value && g0.assetAmount == amount &&
      g0.assetReceiver == SelfAddress(c) && g0.sender == Sender(c) && g0.assetSender == ZeroAddress
    ensures PaymentReceived(c, global, adminId, Const(USDC), amount, true) == Some(true)
    ensures Sender(c) != ZeroAddress ==> PaymentReceived(c, global, adminId, Const(USDC), amount, false) == Some(false)
  {
  }

  /** The correction changes nothing for Algo payments. */
  lemma IntendedAgreesOnAlgo(st: AppState, c: Call)
    requires ModeOf(c).Some? && RequestOf(c, ModeOf(c).value).Some?
    requires RequestOf(c, ModeOf(c).value).value.option == Const(ALGO)
    ensures SubscribeIntendedSpec(st, c) == SubscribeSpec(st, c)
  {
  }

  // ---------------------------------------------------------------- dispatch

  /** A UTILITY call is approved in any group, changing nothing: it is the admin's leg of a subscribe or renew group. */
  lemma UtilityAlwaysApproved(st: AppState, c: Call)
    requires c.Current().appId != 0 && c.Current().onCompletion == NoOp
    requires ArgIs(c.Current(), 0, UTILITY) && NoRekey(c)
    ensures Approval(st, c) == Some(Step(st, []))
  {
  }

  /** No handler of the subscription program writes NEW_ADMIN_ID, so change_admin_id sets ADMIN_ID to the uint 0. */
  lemma ChangeAdminIdZeroes(st: AppState, c: Call)
    requires ChangeAdminIdSpec(st, c).Some? && NEW_ADMIN_ID !in st.global
    ensures Get(ChangeAdminIdSpec(st, c).value.state.global, ADMIN_ID) == Int(0)
    ensures AdminIdOf(ChangeAdminIdSpec(st, c).value.state.global) == Some(0)
  {
  }

  /** Every approved run leaves NEW_ADMIN_ID as it was. */
  lemma NewAdminIdNeverWritten(st: AppState, c: Call)
    requires Approval(st, c).Some?
    ensures Get(Approval(st, c).value.state.global, NEW_ADMIN_ID) == Get(st.global, NEW_ADMIN_ID)
  {
    PerformKeepsNewAdminId(Route(c).value, st, c);
  }

  lemma PerformKeepsNewAdminId(op: Op, st: AppState, c: Call)
    requires Perform(op, st, c).Some?
    ensures Get(Perform(op, st, c).value.state.global, NEW_ADMIN_ID) == Get(st.global, NEW_ADMIN_ID)
  {
    match op
    case Deploy =>
    case Optin =>
    case UtilityCall =>
    case ChangeAdminId =>
    case UsdcAssetOptin =>
    case Renew =>
    case Subscribe =>
    case UpdateApp =>
    case CloseOutCall =>
  }

  /**
   * update_app: an update call is approved exactly for the OWNER of the
   * application ADMIN_ID names (with ADMIN_ID 0, this program's own
   * OWNER), and changes nothing.
   */
  lemma UpdateOnlyOwner(st: AppState, c: Call)
    requires c.Current().appId != 0 && c.Current().onCompletion == UpdateApplication
    ensures Approval(st, c).Some? <==> OwnerRole(c, st.global)
    ensures AdminIdOf(st.global) == Some(0) ==> (Approval(st, c).Some? <==> Get(st.global, OWNER) == Bytes(Sender(c)))
    ensures Approval(st, c).Some? ==> Approval(st, c).value == Step(st, [])
  {
  }

  /**
   * deploy_contract records the admin application, the module name, the
   * creator's address and the USDC asset, and changes nothing else; every
   * creation call runs it.
   */
  lemma DeployRecords(st: AppState, c: Call)
    ensures var t := c.Current();
      DeploySpec(st, c).Some? <==> |t.apps| >= 1 && |t.accounts| >= 1 && |t.assets| >= 1
    ensures DeploySpec(st, c).Some? ==>
      var t, res := c.Current(), DeploySpec(st, c).value;
      var g := res.state.global;
      AdminIdOf(g) == Some(t.apps[0]) && Get(g, MODULE_NAME) == SUBSCRIPTION_APP &&
      Get(g, CREATOR_ADDRESS) == Bytes(t.accounts[0]) && Get(g, USDC_ASSET_ID) == Int(t.assets[0]) &&
      (forall k :: k != ADMIN_ID && k != MODULE_NAME && k != CREATOR_ADDRESS && k != USDC_ASSET_ID ==> Get(g, k) == Get(st.global, k)) &&
      res.state.local == st.local && res.outbox == []
    ensures c.Current().appId == 0 ==> Approval(st, c) == DeploySpec(st, c)
  {
  }

  /** usdc_asset_optin: only the program's creator, and then the program opts into USDC_ASSET_ID and changes no state. */
  lemma UsdcAssetOptinOnlyCreator(st: AppState, c: Call)
    ensures UsdcAssetOptinSpec(st, c).Some? <==> Sender(c) == Creator(c) && Get(st.global, USDC_ASSET_ID).Int?
    ensures UsdcAssetOptinSpec(st, c).Some? ==>
      var res := UsdcAssetOptinSpec(st, c).value;
      res.state == st && res.outbox == [[InnerAssetTransfer(c, SelfAddress(c), Get(st.global, USDC_ASSET_ID).n, 0)]]
  {
  }

  /** After deploy_contract, the creator's usdc_asset_optin opts the program into the asset the deployment named. */
  lemma DeployThenUsdcOptin(st: AppState, c: Call, c': Call)
    requires DeploySpec(st, c).Some? && Sender(c') == Creator(c')
    ensures var st1 := DeploySpec(st, c).value.state;
      UsdcAssetOptinSpec(st1, c').Some? &&
      UsdcAssetOptinSpec(st1, c').value.outbox == [[InnerAssetTransfer(c', SelfAddress(c'), c.Current().assets[0], 0)]]
  {
  }

  /**
   * A close-out is approved for any opted-in account (the ledger refuses
   * one that is not), and the account's local state goes with it; nothing
   * else changes.
   */
  lemma CloseOutDropsLocal(st: AppState, c: Call)
    requires c.Current().appId != 0 && c.Current().onCompletion == CloseOut
    ensures Approval(st, c).Some? <==> Sender(c) in st.local
    ensures Approval(st, c).Some? ==>
      var res := Approval(st, c).value;
      Sender(c) !in res.state.local && res.state.global == st.global && res.outbox == [] &&
      (forall a :: a != Sender(c) ==> (a in res.state.local <==> a in st.local) && (a in st.local ==> res.state.local[a] == st.local[a]))
  {
  }
}

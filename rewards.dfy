/**
 * contracts/modules/rewards_module.py: the rewards program.  Platform
 * admins credit an opted-in account with rewards (within a daily cap)
 * or take rewards back; every such change adds a fixed fee to what the
 * account owes.  The account claims its rewards in an asset by paying the
 * owed fees to the admin account in the same group; the program thaws the
 * account's holding if it is frozen, sends the rewards and freezes the
 * holding again.
 */
module Rewards {
  import opened Avm
  import opened Constants
  import opened Checkers
  import opened Utility

  /** The most an account may be credited in one window (24 units of six decimals). */
  const DAILY_CAP: U64 := 24_000_000

  /** What every credit or debit adds to FEES_TO_PAY. */
  const CHANGE_FEE: U64 := 1000

  /** The handlers of rewards_module_approval. */
  datatype Op = Deploy | ChangeAdminId | EmergencyWithdraw | IncreaseRewards | DecreaseRewards
              | GetPendingRewards | OptinNiftgenAsset | Optin | UpdateApp

  /** handle_noop: the checkers in source order. */
  function NoOpBranches(c: Call): seq<(Option<bool>, Op)>
  {
    [ (ChangeAdminIdChecker(c), ChangeAdminId),
      (EmergencyWithdrawChecker(c), EmergencyWithdraw),
      (IncreaseRewardsChecker(c), IncreaseRewards),
      (DecreaseRewardsChecker(c), DecreaseRewards),
      (GetPendingRewardsChecker(c), GetPendingRewards),
      (OptinNiftgenAssetChecker(c), OptinNiftgenAsset) ]
  }

  /** The program's Cond: creation needs a lone call that does not rekey. */
  function Route(c: Call): Option<Op>
  {
    var t := c.Current();
    if t.appId == 0 && |c.group| == 1 && NoRekey(c) then Some(Deploy)
    else if t.onCompletion == NoOp then FirstMatch(NoOpBranches(c))
    else if t.onCompletion == OptIn then Some(Optin)
    else if t.onCompletion == UpdateApplication then Some(UpdateApp)
    else None
  }

  // ---------------------------------------------------------------- the daily window

  /** The new DAILY_AMOUNT, and whether DAILY_DATE is moved to the current time. */
  datatype Tally = Tally(daily: U64, restarted: bool)

  /**
   * _check_daily_max on numbers: DAILY_AMOUNT `daily`, DAILY_DATE `date`,
   * a credit of `amount` at time `now`.
   */
  function Window(daily: U64, date: U64, amount: U64, now: U64): Option<Tally>
  {
    var _ :- Assert(daily < DAILY_CAP);
    var _ :- Assert(amount <= DAILY_CAP);
    var sum :- Add(daily, amount);
    if sum > DAILY_CAP then
      if date > now then None else Some(Tally(amount, true))
    else if now > date then Some(Tally(amount, true))
    else Some(Tally(sum, false))
  }

  /** An account's local entry after an accepted check: DAILY_AMOUNT is the tally, DAILY_DATE moves to `now` on a restart. */
  function Tallied(entry: Store, t: Tally, now: U64): Store
  {
    var e := entry[DAILY_AMOUNT := Int(t.daily)];
    if t.restarted then e[DAILY_DATE := Int(now)] else e
  }

  /**
   * _check_daily_max on an account's entry, with its local writes in source
   * order: on a restart DAILY_DATE is written before DAILY_AMOUNT, and
   * within the window DAILY_AMOUNT may be written twice.
   */
  method CheckDailyMax(entry: Store, daily: U64, date: U64, amount: U64, now: U64) returns (e: Option<Store>)
    ensures Window(daily, date, amount, now).None? ==> e.None?
    ensures Window(daily, date, amount, now).Some? ==> e == Some(Tallied(entry, Window(daily, date, amount, now).value, now))
  {
    if daily >= DAILY_CAP || amount > DAILY_CAP {
      return None;
    }
    var out := entry;
    ghost var restarted := entry[DAILY_AMOUNT := Int(amount)][DAILY_DATE := Int(now)];
    if daily + amount > DAILY_CAP {
      if date > now {
        return None;
      }
      out := out[DAILY_DATE := Int(now)];
      out := out[DAILY_AMOUNT := Int(amount)];
      assert out == restarted;
    } else {
      out := out[DAILY_AMOUNT := Int(daily + amount)];
      if now > date {
        out := out[DAILY_DATE := Int(now)];
        out := out[DAILY_AMOUNT := Int(amount)];
        assert out == restarted;
      }
    }
    return Some(out);
  }

  /** DAILY_DATE after an accepted check. */
  function DateAfter(date: U64, t: Tally, now: U64): U64
  {
    if t.restarted then now else date
  }

  /** The total credited by a run of credits (amount, time), or None once one is refused. */
  function Accrue(daily: U64, date: U64, reqs: seq<(U64, U64)>): Option<nat>
    decreases |reqs|
  {
    if reqs == [] then Some(0)
    else
      var t :- Window(daily, date, reqs[0].0, reqs[0].1);
      var rest :- Accrue(t.daily, DateAfter(date, t, reqs[0].1), reqs[1..]);
      Some(reqs[0].0 + rest)
  }

  const DAY: U64 := 86400

  /**
   * The window the check evidently means: DAILY_DATE holds the end of the
   * current window; while it is open the credits in it add up to at most
   * the cap, and the first credit after it ends opens a new one-day window.
   */
  function WindowIntended(daily: U64, end: U64, amount: U64, now: U64): Option<(U64, U64)>
  {
    var _ :- Assert(daily <= DAILY_CAP && amount <= DAILY_CAP);
    if now >= end then
      var next :- Add(now, DAY);
      Some((amount, next))
    else
      var sum :- Add(daily, amount);
      if sum <= DAILY_CAP then Some((sum, end)) else None
  }

  /** Accrue under the intended window. */
  function AccrueIntended(daily: U64, end: U64, reqs: seq<(U64, U64)>): Option<nat>
    decreases |reqs|
  {
    if reqs == [] then Some(0)
    else
      var w :- WindowIntended(daily, end, reqs[0].0, reqs[0].1);
      var rest :- AccrueIntended(w.0, w.1, reqs[1..]);
      Some(reqs[0].0 + rest)
  }

  // ---------------------------------------------------------------- handlers

  function DeploySpec(st: AppState, c: Call): Run
  {
    var adminId :- App(c.Current(), 1);
    Some(Step(st.(global := st.global[ADMIN_ID := Int(adminId)][MODULE_NAME := REWARD_MODULE]), []))
  }

  /** optin: zero rewards, fees and daily amount; the window date is the opt-in time. */
  function OptinSpec(st: AppState, c: Call): Run
  {
    var s := Sender(c);
    var _ :- Assert(s !in st.local);
    Some(Step(st.(local := st.local[s := map[REWARDS_AMOUNT := Int(0), FEES_TO_PAY := Int(0),
                                             DAILY_AMOUNT := Int(0), DAILY_DATE := Int(c.now)]]), []))
  }

  function ChangeAdminIdSpec(st: AppState, c: Call): Run
  {
    var _ :- Assert(AdminRole(c, st, Sender(c)));
    Some(Step(st.(global := st.global[ADMIN_ID := Get(st.global, NEW_ADMIN_ID)]), []))
  }

  /** optin_niftgen_asset: an admin opts the program in to the asset the admin program names NIFTGEN_ASSET. */
  function OptinNiftgenAssetSpec(st: AppState, c: Call): Run
  {
    var asset :- Asset(c.Current(), 0);
    var adminId :- AdminIdOf(st.global);
    var _ :- Assert(AdminRole(c, st, Sender(c)));
    var _ :- Assert(GlobalEx(c.ledger, st.global, adminId, NIFTGEN_ASSET) == Int(asset));
    Some(Step(st, [[InnerAssetTransfer(c, SelfAddress(c), asset, 0)]]))
  }

  /** emergency_withdraw: an admin sends the program's whole holding of an asset to accounts[1]. */
  function EmergencyWithdrawSpec(st: AppState, c: Call): Run
  {
    var t := c.Current();
    var beneficiary :- Account(t, 1);
    var asset :- Asset(t, 0);
    var _ :- Assert(AdminRole(c, st, Sender(c)));
    var balance := c.ledger.holdingBalance(SelfAddress(c), asset);
    Some(Step(st, [[InnerAssetTransfer(c, beneficiary, asset, balance)]]))
  }

  /** The amount Btoi(args[1]) of a credit, debit or claim. */
  function AmountArg(c: Call): Option<U64>
  {
    var v :- ArgUInt(c.Current(), 1);
    AsUInt(v)
  }

  /** The beneficiary accounts[1] and the amount of a credit or debit. */
  function Change(c: Call): Option<(Address, U64)>
  {
    var beneficiary :- Account(c.Current(), 1);
    var amount :- AmountArg(c);
    Some((beneficiary, amount))
  }

  /** increase_rewards: an admin credits `amount` within the daily window and charges the fee. */
  function IncreaseRewardsSpec(st: AppState, c: Call): Run
  {
    var (b, amount) :- Change(c);
    var _ :- Assert(AdminRole(c, st, Sender(c)));
    var daily :- AsUInt(LocalGet(st, b, DAILY_AMOUNT));
    var date :- AsUInt(LocalGet(st, b, DAILY_DATE));
    var tally :- Window(daily, date, amount, c.now);
    var rewards :- AsUInt(LocalGet(st, b, REWARDS_AMOUNT));
    var fees :- AsUInt(LocalGet(st, b, FEES_TO_PAY));
    var newRewards :- Add(rewards, amount);
    var newFees :- Add(fees, CHANGE_FEE);
    var _ :- Assert(b in st.local);
    var entry := Tallied(st.local[b], tally, c.now);
    Some(Step(st.(local := st.local[b := entry[REWARDS_AMOUNT := Int(newRewards)][FEES_TO_PAY := Int(newFees)]]), []))
  }

  /** decrease_rewards: an admin takes back `amount` (no window check) and charges the fee. */
  function DecreaseRewardsSpec(st: AppState, c: Call): Run
  {
    var (b, amount) :- Change(c);
    var _ :- Assert(AdminRole(c, st, Sender(c)));
    var rewards :- AsUInt(LocalGet(st, b, REWARDS_AMOUNT));
    var fees :- AsUInt(LocalGet(st, b, FEES_TO_PAY));
    var newRewards :- Minus(rewards, amount);
    var newFees :- Add(fees, CHANGE_FEE);
    var _ :- Assert(b in st.local);
    Some(Step(st.(local := st.local[b := st.local[b][REWARDS_AMOUNT := Int(newRewards)][FEES_TO_PAY := Int(newFees)]]), []))
  }

  /** The inner requests of a claim: thaw if frozen, send the rewards, freeze. */
  function ClaimOutbox(c: Call, s: Address, asset: U64, amount: U64): Outbox
  {
    (if c.ledger.holdingFrozen(s, asset) then [[InnerFreeze(c, s, asset, false)]] else []) +
    [[InnerAssetTransfer(c, s, asset, amount)], [InnerFreeze(c, s, asset, true)]]
  }

  /**
   * get_pending_rewards: the sender claims `amount` of asset assets[0]; the
   * first leg must pay exactly FEES_TO_PAY to the admin program's account.
   */
  function GetPendingRewardsSpec(st: AppState, c: Call): Run
  {
    var t := c.Current();
    var s := Sender(c);
    var amount :- AmountArg(c);
    var asset :- Asset(t, 0);
    var adminId :- AdminIdOf(st.global);
    var rewards :- AsUInt(LocalGet(st, s, REWARDS_AMOUNT));
    var fees :- AsUInt(LocalGet(st, s, FEES_TO_PAY));
    var g0 :- c.Gtxn(0);
    var _ :- Assert(amount <= rewards);
    var _ :- Assert(g0.amount == fees);
    var _ :- Assert(g0.receiver == AppAddressEx(c, adminId));
    var _ :- Assert(s in st.local);
    Some(Step(st.(local := st.local[s := st.local[s][REWARDS_AMOUNT := Int(rewards - amount)][FEES_TO_PAY := Int(0)]]),
              ClaimOutbox(c, s, asset, amount)))
  }

  function UpdateAppSpec(st: AppState, c: Call): Run
  {
    var _ :- Assert(OwnerRole(c, st.global));
    Some(Step(st, []))
  }

  function Perform(op: Op, st: AppState, c: Call): Run
  {
    match op
    case Deploy => DeploySpec(st, c)
    case ChangeAdminId => ChangeAdminIdSpec(st, c)
    case EmergencyWithdraw => EmergencyWithdrawSpec(st, c)
    case IncreaseRewards => IncreaseRewardsSpec(st, c)
    case DecreaseRewards => DecreaseRewardsSpec(st, c)
    case GetPendingRewards => GetPendingRewardsSpec(st, c)
    case OptinNiftgenAsset => OptinNiftgenAssetSpec(st, c)
    case Optin => OptinSpec(st, c)
    case UpdateApp => UpdateAppSpec(st, c)
  }

  /** rewards_module_approval. */
  function Approval(st: AppState, c: Call): Run
  {
    var op :- Route(c);
    Perform(op, st, c)
  }

  // ---------------------------------------------------------------- the program object

  class RewardsApp {
    var global: Store
    var local: map<Address, Store>

    constructor ()
      ensures global == map[] && local == map[]
    {
      global := map[];
      local := map[];
    }

    function State(): AppState
      reads this
    {
      AppState(global, local)
    }

    method Deploy(c: Call) returns (r: Outcome)
      modifies this
      ensures Commits(old(State()), DeploySpec(old(State()), c), State(), r)
    {
      var t := c.Current();
      if |t.apps| < 1 {
        return Reject;
      }
      global := global[ADMIN_ID := Int(t.apps[0])];
      global := global[MODULE_NAME := REWARD_MODULE];
      return Accept([]);
    }

    method Optin(c: Call) returns (r: Outcome)
      modifies this
      ensures Commits(old(State()), OptinSpec(old(State()), c), State(), r)
    {
      var s := Sender(c);
      if s in local {
        return Reject;
      }
      var entry: Store := map[];
      entry := entry[REWARDS_AMOUNT := Int(0)];
      entry := entry[FEES_TO_PAY := Int(0)];
      entry := entry[DAILY_AMOUNT := Int(0)];
      entry := entry[DAILY_DATE := Int(c.now)];
      local := local[s := entry];
      return Accept([]);
    }

    method ChangeAdminId(c: Call) returns (r: Outcome)
      modifies this
      ensures Commits(old(State()), ChangeAdminIdSpec(old(State()), c), State(), r)
    {
      if !AdminRole(c, State(), Sender(c)) {
        return Reject;
      }
      global := global[ADMIN_ID := Get(global, NEW_ADMIN_ID)];
      return Accept([]);
    }

    method OptinNiftgenAsset(c: Call) returns (r: Outcome)
      ensures r == OutcomeOf(OptinNiftgenAssetSpec(State(), c))
    {
      var t := c.Current();
      var adminId := AdminIdOf(global);
      if |t.assets| < 1 || !AdminRole(c, State(), Sender(c)) || adminId.None? {
        return Reject;
      }
      if GlobalEx(c.ledger, global, adminId.value, NIFTGEN_ASSET) != Int(t.assets[0]) {
        return Reject;
      }
      return Accept([[InnerAssetTransfer(c, SelfAddress(c), t.assets[0], 0)]]);
    }

    method EmergencyWithdraw(c: Call) returns (r: Outcome)
      ensures r == OutcomeOf(EmergencyWithdrawSpec(State(), c))
    {
      var t := c.Current();
      var beneficiary := Account(t, 1);
      if beneficiary.None? || |t.assets| < 1 || !AdminRole(c, State(), Sender(c)) {
        return Reject;
      }
      var balance := c.ledger.holdingBalance(SelfAddress(c), t.assets[0]);
      return Accept([[InnerAssetTransfer(c, beneficiary.value, t.assets[0], balance)]]);
    }

    method IncreaseRewards(c: Call) returns (r: Outcome)
      modifies this
      ensures Commits(old(State()), IncreaseRewardsSpec(old(State()), c), State(), r)
    {
      var change := Change(c);
      if change.None? || !AdminRole(c, State(), Sender(c)) {
        return Reject;
      }
      var (b, amount) := change.value;
      var daily := LocalGet(State(), b, DAILY_AMOUNT);
      var date := LocalGet(State(), b, DAILY_DATE);
      var rewards := LocalGet(State(), b, REWARDS_AMOUNT);
      var fees := LocalGet(State(), b, FEES_TO_PAY);
      if !daily.Int? || !date.Int? || b !in local {
        return Reject;
      }
      var tallied := CheckDailyMax(local[b], daily.n, date.n, amount, c.now);
      if tallied.None? || !rewards.Int? || !fees.Int? || rewards.n + amount > MaxUInt || fees.n + CHANGE_FEE > MaxUInt {
        return Reject;
      }
      var entry := tallied.value;
      entry := entry[REWARDS_AMOUNT := Int(rewards.n + amount)];
      entry := entry[FEES_TO_PAY := Int(fees.n + CHANGE_FEE)];
      local := local[b := entry];
      return Accept([]);
    }

    method DecreaseRewards(c: Call) returns (r: Outcome)
      modifies this
      ensures Commits(old(State()), DecreaseRewardsSpec(old(State()), c), State(), r)
    {
      var change := Change(c);
      if change.None? || !AdminRole(c, State(), Sender(c)) {
        return Reject;
      }
      var (b, amount) := change.value;
      var rewards := LocalGet(State(), b, REWARDS_AMOUNT);
      var fees := LocalGet(State(), b, FEES_TO_PAY);
      if !rewards.Int? || !fees.Int? || amount > rewards.n || fees.n + CHANGE_FEE > MaxUInt || b !in local {
        return Reject;
      }
      var entry := local[b];
      entry := entry[REWARDS_AMOUNT := Int(rewards.n - amount)];
      entry := entry[FEES_TO_PAY := Int(fees.n + CHANGE_FEE)];
      local := local[b := entry];
      return Accept([]);
    }

    /** get_pending_rewards: the inner requests are collected in submission order. */
    method GetPendingRewards(c: Call) returns (r: Outcome)
      modifies this
      ensures Commits(old(State()), GetPendingRewardsSpec(old(State()), c), State(), r)
    {
      var t := c.Current();
      var s := Sender(c);
      var v := AmountArg(c);
      var adminId := AdminIdOf(global);
      if v.None? || |t.assets| < 1 || adminId.None? {
        return Reject;
      }
      var amount, asset := v.value, t.assets[0];
      var rewards := LocalGet(State(), s, REWARDS_AMOUNT);
      var fees := LocalGet(State(), s, FEES_TO_PAY);
      if !rewards.Int? || !fees.Int? {
        return Reject;
      }
      var outbox: Outbox := [];
      if c.ledger.holdingFrozen(s, asset) {
        outbox := outbox + [[InnerFreeze(c, s, asset, false)]];
      }
      if amount > rewards.n || |c.group| < 1 {
        return Reject;
      }
      if c.group[0].amount != fees.n || c.group[0].receiver != AppAddressEx(c, adminId.value) {
        return Reject;
      }
      outbox := outbox + [[InnerAssetTransfer(c, s, asset, amount)]];
      if s !in local {
        return Reject;
      }
      var entry := local[s];
      entry := entry[REWARDS_AMOUNT := Int(rewards.n - amount)];
      entry := entry[FEES_TO_PAY := Int(0)];
      local := local[s := entry];
      outbox := outbox + [[InnerFreeze(c, s, asset, true)]];
      return Accept(outbox);
    }

    method UpdateApp(c: Call) returns (r: Outcome)
      ensures r == OutcomeOf(UpdateAppSpec(State(), c))
    {
      if !OwnerRole(c, global) {
        return Reject;
      }
      return Accept([]);
    }

    /** rewards_module_approval: route the call, then run the selected handler. */
    method Approve(c: Call) returns (r: Outcome)
      modifies this
      ensures Commits(old(State()), Approval(old(State()), c), State(), r)
    {
      var op := Route(c);
      if op.None? {
        return Reject;
      }
      match op.value {
        case Deploy => r := Deploy(c);
        case ChangeAdminId => r := ChangeAdminId(c);
        case EmergencyWithdraw => r := EmergencyWithdraw(c);
        case IncreaseRewards => r := IncreaseRewards(c);
        case DecreaseRewards => r := DecreaseRewards(c);
        case GetPendingRewards => r := GetPendingRewards(c);
        case OptinNiftgenAsset => r := OptinNiftgenAsset(c);
        case Optin => r := Optin(c);
        case UpdateApp => r := UpdateApp(c);
      }
    }
  }

  // ---------------------------------------------------------------- the window as written

  /**
   * The check accepts exactly when the tally is below the cap, the credit is
   * at most the cap, and a credit over the cap does not come before DAILY_DATE.
   */
  lemma WindowAccepts(daily: U64, date: U64, amount: U64, now: U64)
    ensures Window(daily, date, amount, now).Some? <==>
      daily < DAILY_CAP && amount <= DAILY_CAP && (daily + amount > DAILY_CAP ==> date <= now)
  {
  }

  /**
   * After an accepted check the tally is at most the cap; the window
   * restarts (tally := amount, DAILY_DATE := now) when the credit would pass
   * the cap or time has moved past DAILY_DATE, and the tally grows by the
   * credit otherwise; DAILY_DATE becomes the later of itself and now.
   */
  lemma WindowTally(daily: U64, date: U64, amount: U64, now: U64)
    requires Window(daily, date, amount, now).Some?
    ensures var t := Window(daily, date, amount, now).value;
      t.daily <= DAILY_CAP &&
      (t.restarted <==> daily + amount > DAILY_CAP || now > date) &&
      t.daily == (if t.restarted then amount else daily + amount) &&
      DateAfter(date, t, now) == (if now > date then now else date)
  {
  }

  /**
   * As written the window has no length: once DAILY_DATE is not in the
   * future, every credit up to the cap is accepted whatever was credited
   * before, even in the same second.
   */
  lemma WindowNeverBinds(daily: U64, date: U64, amount: U64, now: U64)
    requires daily < DAILY_CAP && amount <= DAILY_CAP && date <= now
    ensures Window(daily, date, amount, now).Some?
  {
  }

  /** n credits of 20_000_000 in one second, starting from a tally of 20_000_000, are all accepted. */
  lemma {:induction false} SameSecondCredits(now: U64, n: nat)
    ensures Accrue(20_000_000, now, seq(n, _ => (20_000_000, now))) == Some(20_000_000 * n)
  {
    var reqs := seq(n, _ => (20_000_000 as U64, now));
    if n > 0 {
      assert reqs[0] == (20_000_000, now);
      assert Window(20_000_000, now, 20_000_000, now) == Some(Tally(20_000_000, true));
      SameSecondCredits(now, n - 1);
      assert reqs[1..] == seq(n - 1, _ => (20_000_000 as U64, now));
    }
  }

  /** From a fresh opt-in, three credits of 20_000_000 in the same second credit 60_000_000, two and a half times the cap. */
  lemma CapExceededInOneSecond(now: U64)
    ensures Accrue(0, now, seq(3, _ => (20_000_000, now))) == Some(60_000_000)
  {
    var reqs := seq(3, _ => (20_000_000 as U64, now));
    assert Window(0, now, 20_000_000, now) == Some(Tally(20_000_000, false));
    assert reqs[1..] == seq(2, _ => (20_000_000 as U64, now));
    SameSecondCredits(now, 2);
  }

  /** A tally that reaches the cap exactly refuses every later credit, at any time. */
  lemma WindowLocksAtCap(date: U64, amount: U64, now: U64)
    ensures Window(DAILY_CAP, date, amount, now).None?
  {
  }

  /** A single credit of the whole cap after DAILY_DATE reaches that lock. */
  lemma FullCreditLocks(daily: U64, date: U64, now: U64)
    requires daily < DAILY_CAP && now > date
    ensures Window(daily, date, DAILY_CAP, now) == Some(Tally(DAILY_CAP, true))
  {
  }

  // ---------------------------------------------------------------- the intended window

  /** The intended window keeps the tally within the cap. */
  lemma IntendedWithinCap(daily: U64, end: U64, amount: U64, now: U64)
    requires WindowIntended(daily, end, amount, now).Some?
    ensures WindowIntended(daily, end, amount, now).value.0 <= DAILY_CAP
  {
  }

  /** Inside an open window a credit adds to the tally and keeps the window, and is refused past the cap. */
  lemma IntendedAccumulates(daily: U64, end: U64, amount: U64, now: U64)
    requires daily <= DAILY_CAP && amount <= DAILY_CAP && now < end
    ensures WindowIntended(daily, end, amount, now).Some? <==> daily + amount <= DAILY_CAP
    ensures WindowIntended(daily, end, amount, now).Some? ==>
      WindowIntended(daily, end, amount, now).value == (daily + amount, end)
  {
  }

  /** A window that has ended never blocks: any credit up to the cap opens a new one-day window. */
  lemma IntendedNeverLocks(daily: U64, end: U64, amount: U64, now: U64)
    requires daily <= DAILY_CAP && amount <= DAILY_CAP && end <= now && now + DAY <= MaxUInt
    ensures WindowIntended(daily, end, amount, now) == Some((amount, (now + DAY) as U64))
  {
  }

  /** Whatever is credited while one window is open adds up, with the old tally, to at most the cap. */
  lemma {:induction false} IntendedWindowBounded(daily: U64, end: U64, reqs: seq<(U64, U64)>)
    decreases |reqs|
    requires daily <= DAILY_CAP
    requires forall i :: 0 <= i < |reqs| ==> reqs[i].1 < end
    requires AccrueIntended(daily, end, reqs).Some?
    ensures daily + AccrueIntended(daily, end, reqs).value <= DAILY_CAP
  {
    if reqs != [] {
      var w := WindowIntended(daily, end, reqs[0].0, reqs[0].1).value;
      assert w == (daily + reqs[0].0, end);
      assert forall i :: 0 <= i < |reqs[1..]| ==> reqs[1..][i].1 == reqs[i + 1].1;
      IntendedWindowBounded(w.0, w.1, reqs[1..]);
    }
  }

  /** The same three credits in one second, under the intended window, are refused at the second. */
  lemma IntendedRefusesSameSecond(now: U64)
    requires now + DAY <= MaxUInt
    ensures AccrueIntended(0, now, seq(3, _ => (20_000_000, now))).None?
  {
    var reqs := seq(3, _ => (20_000_000 as U64, now));
    assert WindowIntended(0, now, 20_000_000, now) == Some((20_000_000, (now + DAY) as U64));
    assert reqs[1..][0] == (20_000_000, now);
    assert WindowIntended(20_000_000, (now + DAY) as U64, 20_000_000, now).None?;
  }

  // ---------------------------------------------------------------- handlers

  /** Opting in succeeds exactly for a new account and records zero rewards, fees and tally and the opt-in time. */
  lemma OptinRecords(st: AppState, c: Call)
    ensures OptinSpec(st, c).Some? <==> Sender(c) !in st.local
    ensures OptinSpec(st, c).Some? ==>
      var st' := OptinSpec(st, c).value.state;
      LocalGet(st', Sender(c), REWARDS_AMOUNT) == Int(0) && LocalGet(st', Sender(c), FEES_TO_PAY) == Int(0) &&
      LocalGet(st', Sender(c), DAILY_AMOUNT) == Int(0) && LocalGet(st', Sender(c), DAILY_DATE) == Int(c.now) &&
      st'.global == st.global
  {
  }

  /**
   * An accepted credit passed the window check, added the amount to
   * REWARDS_AMOUNT and CHANGE_FEE to FEES_TO_PAY, and touched nothing but
   * the beneficiary's entry.
   */
  lemma IncreaseRewardsCredits(st: AppState, c: Call)
    requires IncreaseRewardsSpec(st, c).Some?
    ensures var (b, amount) := Change(c).value;
      var st' := IncreaseRewardsSpec(st, c).value.state;
      AdminRole(c, st, Sender(c)) && b in st.local &&
      Window(LocalGet(st, b, DAILY_AMOUNT).n, LocalGet(st, b, DAILY_DATE).n, amount, c.now).Some? &&
      LocalGet(st', b, REWARDS_AMOUNT) == Int(LocalGet(st, b, REWARDS_AMOUNT).n + amount) &&
      LocalGet(st', b, FEES_TO_PAY) == Int(LocalGet(st, b, FEES_TO_PAY).n + CHANGE_FEE) &&
      LocalGet(st', b, DAILY_AMOUNT) == Int(Window(LocalGet(st, b, DAILY_AMOUNT).n, LocalGet(st, b, DAILY_DATE).n, amount, c.now).value.daily) &&
      st'.global == st.global && st'.local.Keys == st.local.Keys &&
      (forall a :: a in st.local && a != b ==> st'.local[a] == st.local[a])
  {
  }

  /** An accepted credit leaves the beneficiary's tally within the cap. */
  lemma {:induction false} IncreaseRewardsKeepsCap(st: AppState, c: Call)
    requires IncreaseRewardsSpec(st, c).Some?
    ensures var b := Change(c).value.0;
      var d := LocalGet(IncreaseRewardsSpec(st, c).value.state, b, DAILY_AMOUNT);
      d.Int? && d.n <= DAILY_CAP
  {
    var (b, amount) := Change(c).value;
    IncreaseRewardsCredits(st, c);
    WindowTally(LocalGet(st, b, DAILY_AMOUNT).n, LocalGet(st, b, DAILY_DATE).n, amount, c.now);
  }

  /**
   * An accepted debit subtracted the amount, added CHANGE_FEE to the fees
   * and left the window untouched; a debit of more than the rewards aborts.
   */
  lemma DecreaseRewardsDebits(st: AppState, c: Call)
    requires DecreaseRewardsSpec(st, c).Some?
    ensures var (b, amount) := Change(c).value;
      var st' := DecreaseRewardsSpec(st, c).value.state;
      AdminRole(c, st, Sender(c)) && amount <= LocalGet(st, b, REWARDS_AMOUNT).n &&
      LocalGet(st', b, REWARDS_AMOUNT) == Int(LocalGet(st, b, REWARDS_AMOUNT).n - amount) &&
      LocalGet(st', b, FEES_TO_PAY) == Int(LocalGet(st, b, FEES_TO_PAY).n + CHANGE_FEE) &&
      LocalGet(st', b, DAILY_AMOUNT) == LocalGet(st, b, DAILY_AMOUNT) &&
      LocalGet(st', b, DAILY_DATE) == LocalGet(st, b, DAILY_DATE) &&
      st'.global == st.global
  {
  }

  lemma DecreaseUnderflowAborts(st: AppState, c: Call)
    requires Change(c).Some?
    requires var (b, amount) := Change(c).value;
      LocalGet(st, b, REWARDS_AMOUNT).Int? && amount > LocalGet(st, b, REWARDS_AMOUNT).n
    ensures DecreaseRewardsSpec(st, c).None?
  {
  }

  /** Taking back a credit restores REWARDS_AMOUNT; the fees grow by two charges and the window keeps the credit. */
  lemma {:induction false} DecreaseUndoesIncrease(st: AppState, c: Call, c': Call)
    requires IncreaseRewardsSpec(st, c).Some? && Change(c') == Change(c) && Sender(c') == Sender(c)
    requires c'.ledger == c.ledger
    requires Change(c).Some? && LocalGet(st, Change(c).value.0, FEES_TO_PAY).Int? &&
      LocalGet(st, Change(c).value.0, FEES_TO_PAY).n + 2 * CHANGE_FEE <= MaxUInt
    ensures var st1 := IncreaseRewardsSpec(st, c).value.state;
      var b := Change(c).value.0;
      DecreaseRewardsSpec(st1, c').Some? &&
      LocalGet(DecreaseRewardsSpec(st1, c').value.state, b, REWARDS_AMOUNT) == LocalGet(st, b, REWARDS_AMOUNT) &&
      LocalGet(DecreaseRewardsSpec(st1, c').value.state, b, FEES_TO_PAY) == Int(LocalGet(st, b, FEES_TO_PAY).n + 2 * CHANGE_FEE) &&
      LocalGet(DecreaseRewardsSpec(st1, c').value.state, b, DAILY_AMOUNT) == LocalGet(st1, b, DAILY_AMOUNT)
  {
    var (b, amount) := Change(c).value;
    IncreaseRewardsCredits(st, c);
    var st1 := IncreaseRewardsSpec(st, c).value.state;
    assert AdminRole(c', st1, Sender(c'));
    assert LocalGet(st1, b, FEES_TO_PAY).n + CHANGE_FEE <= MaxUInt;
  }

  /**
   * An accepted claim paid exactly the owed fees to the admin program's
   * account in the first leg and claimed no more than the rewards; it
   * leaves rewards minus the claim and no fees, and its inner requests thaw
   * the holding when it was frozen, send the claim and freeze the holding.
   */
  lemma ClaimSettles(st: AppState, c: Call)
    requires GetPendingRewardsSpec(st, c).Some?
    ensures var s, t := Sender(c), c.Current();
      var amount, asset := AmountArg(c).value, t.assets[0];
      var res := GetPendingRewardsSpec(st, c).value;
      |c.group| >= 1 && AdminIdOf(st.global).Some? &&
      c.group[0].amount == LocalGet(st, s, FEES_TO_PAY).n &&
      c.group[0].receiver == AppAddressEx(c, AdminIdOf(st.global).value) &&
      amount <= LocalGet(st, s, REWARDS_AMOUNT).n &&
      LocalGet(res.state, s, REWARDS_AMOUNT) == Int(LocalGet(st, s, REWARDS_AMOUNT).n - amount) &&
      LocalGet(res.state, s, FEES_TO_PAY) == Int(0) &&
      res.state.global == st.global &&
      res.outbox == ClaimOutbox(c, s, asset, amount)
  {
  }

  /**
   * Once change_admin_id has left ADMIN_ID at 0, AppParam.address(0) names
   * the rewards program itself: a claim is accepted only when leg 0 pays the
   * fees to this program's own account.
   */
  lemma ClaimWithoutAdminPaysSelf(st: AppState, c: Call)
    requires GetPendingRewardsSpec(st, c).Some? && AdminIdOf(st.global) == Some(0)
    ensures c.group[0].receiver == SelfAddress(c) && c.group[0].amount == LocalGet(st, Sender(c), FEES_TO_PAY).n
  {
    ClaimSettles(st, c);
  }

  /** The claim's requests: a thaw first exactly when the holding is frozen, the transfer, and always a freeze last. */
  lemma ClaimOutboxShape(c: Call, s: Address, asset: U64, amount: U64)
    ensures var o := ClaimOutbox(c, s, asset, amount);
      (|o| == 3 <==> c.ledger.holdingFrozen(s, asset)) && |o| >= 2 &&
      (|o| == 3 ==> o[0] == [InnerFreeze(c, s, asset, false)]) &&
      o[|o| - 2] == [InnerAssetTransfer(c, s, asset, amount)] &&
      o[|o| - 1] == [InnerFreeze(c, s, asset, true)]
  {
  }

  /** A claim whose first leg does not pay the owed fees is refused. */
  lemma ClaimNeedsFees(st: AppState, c: Call)
    requires |c.group| >= 1 && LocalGet(st, Sender(c), FEES_TO_PAY).Int?
    requires c.group[0].amount != LocalGet(st, Sender(c), FEES_TO_PAY).n
    ensures GetPendingRewardsSpec(st, c).None?
  {
  }

  /** Claiming twice in a row: the second claim needs only a fee-free first leg, and together they take at most the rewards. */
  lemma {:induction false} ClaimsNeverExceedRewards(st: AppState, c: Call, c': Call)
    requires GetPendingRewardsSpec(st, c).Some? && Sender(c') == Sender(c)
    requires GetPendingRewardsSpec(GetPendingRewardsSpec(st, c).value.state, c').Some?
    ensures c'.group[0].amount == 0
    ensures AmountArg(c).value + AmountArg(c').value <= LocalGet(st, Sender(c), REWARDS_AMOUNT).n
  {
    ClaimSettles(st, c);
    ClaimSettles(GetPendingRewardsSpec(st, c).value.state, c');
  }

  /** An emergency withdrawal changes nothing here and sends the program's whole holding of the asset. */
  lemma EmergencyWithdrawAll(st: AppState, c: Call)
    ensures EmergencyWithdrawSpec(st, c).Some? <==>
      |c.Current().accounts| >= 1 && |c.Current().assets| >= 1 && AdminRole(c, st, Sender(c))
    ensures EmergencyWithdrawSpec(st, c).Some? ==>
      var asset := c.Current().assets[0];
      EmergencyWithdrawSpec(st, c).value ==
        Step(st, [[InnerAssetTransfer(c, c.Current().accounts[0], asset, c.ledger.holdingBalance(SelfAddress(c), asset))]])
  {
  }

  /** The asset opt-in is a zero transfer to the program's own account of the admin program's NIFTGEN_ASSET. */
  lemma OptinNiftgenAssetOnlyNiftgen(st: AppState, c: Call)
    requires OptinNiftgenAssetSpec(st, c).Some?
    ensures AdminRole(c, st, Sender(c))
    ensures GlobalEx(c.ledger, st.global, AdminIdOf(st.global).value, NIFTGEN_ASSET) == Int(c.Current().assets[0])
    ensures OptinNiftgenAssetSpec(st, c).value == Step(st, [[InnerAssetTransfer(c, SelfAddress(c), c.Current().assets[0], 0)]])
  {
  }

  /** Creation needs a lone call without rekeying; an application call in a larger group is routed as an ordinary call. */
  lemma DeployNeedsLoneCall(c: Call)
    requires c.Current().appId == 0 && |c.group| > 1
    ensures Route(c) != Some(Deploy)
  {
    FirstMatchSelects(NoOpBranches(c), Deploy);
  }

  /**
   * update_app: an update call is approved exactly for the OWNER of the
   * application ADMIN_ID names (with ADMIN_ID 0, this program's own
   * OWNER), and changes nothing.
   */
  lemma UpdateOnlyOwner(st: AppState, c: Call)
    ensures UpdateAppSpec(st, c).Some? <==> OwnerRole(c, st.global)
    ensures c.Current().appId != 0 && c.Current().onCompletion == UpdateApplication ==>
      (Approval(st, c).Some? <==> OwnerRole(c, st.global))
    ensures AdminIdOf(st.global) == Some(0) ==> (UpdateAppSpec(st, c).Some? <==> Get(st.global, OWNER) == Bytes(Sender(c)))
    ensures UpdateAppSpec(st, c).Some? ==> UpdateAppSpec(st, c).value == Step(st, [])
  {
  }

  /** change_admin_id reads NEW_ADMIN_ID, which this program never writes: ADMIN_ID becomes the uint 0. */
  lemma ChangeAdminIdZeroes(st: AppState, c: Call)
    requires ChangeAdminIdSpec(st, c).Some? && NEW_ADMIN_ID !in st.global
    ensures AdminIdOf(ChangeAdminIdSpec(st, c).value.state.global) == Some(0)
  {
  }

  /** No handler writes NEW_ADMIN_ID. */
  lemma NewAdminIdNeverWritten(st: AppState, c: Call)
    requires NEW_ADMIN_ID !in st.global && Approval(st, c).Some?
    ensures NEW_ADMIN_ID !in Approval(st, c).value.state.global
  {
    PerformKeepsNewAdminId(Route(c).value, st, c);
  }

  lemma PerformKeepsNewAdminId(op: Op, st: AppState, c: Call)
    requires NEW_ADMIN_ID !in st.global && Perform(op, st, c).Some?
    ensures NEW_ADMIN_ID !in Perform(op, st, c).value.state.global
  {
    match op
    case Deploy =>
    case ChangeAdminId =>
    case EmergencyWithdraw =>
    case IncreaseRewards =>
    case DecreaseRewards =>
    case GetPendingRewards =>
    case OptinNiftgenAsset =>
    case Optin =>
    case UpdateApp =>
  }

  /**
   * deploy_contract records applications[1] as ADMIN_ID and the module
   * name, and changes nothing else; a lone creation call without rekeying
   * runs it.
   */
  lemma DeployRecords(st: AppState, c: Call)
    ensures DeploySpec(st, c).Some? <==> |c.Current().apps| >= 1
    ensures DeploySpec(st, c).Some? ==>
      var res := DeploySpec(st, c).value;
      AdminIdOf(res.state.global) == Some(c.Current().apps[0]) && Get(res.state.global, MODULE_NAME) == REWARD_MODULE &&
      (forall k :: k != ADMIN_ID && k != MODULE_NAME ==> Get(res.state.global, k) == Get(st.global, k)) &&
      res.state.local == st.local && res.outbox == []
    ensures c.Current().appId == 0 && |c.group| == 1 && NoRekey(c) ==> Approval(st, c) == DeploySpec(st, c)
  {
  }
}

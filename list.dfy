/**
 * contracts/modules/list.py: the fixed-price sale module.  Like the
 * auction module it keeps only ADMIN_ID and MODULE_NAME itself; a listing
 * (NFT_PRICE, a PLATFORM_FEE snapshot, PAYMENT_OPTION) lives in the NFT
 * application, which holds the listed NFT and pays the sale out on the
 * module's requests.
 */
module List {
  import opened Avm
  import opened Constants
  import opened Checkers
  import opened Utility
  import opened Sale
  import Nft
  import Delivery
  import Auction

  datatype Op = Deploy | RevertNft | ChangeAdminId | StartSell | PurchaseNft | UpdateApp

  /** handle_noop: the checkers in source order. */
  function NoOpBranches(c: Call): seq<(Option<bool>, Op)>
  {
    [ (RevertNftChecker(c), RevertNft),
      (ChangeAdminIdChecker(c), ChangeAdminId),
      (StartSellChecker(c), StartSell),
      (PurchaseNftChecker(c), PurchaseNft) ]
  }

  function Route(c: Call): Option<Op>
  {
    var t := c.Current();
    if t.appId == 0 && |c.group| == 1 && NoRekey(c) then Some(Deploy)
    else if t.onCompletion == NoOp then FirstMatch(NoOpBranches(c))
    else if t.onCompletion == UpdateApplication then Some(UpdateApp)
    else None
  }

  // ---------------------------------------------------------------- handler specifications

  /** deploy_contract: records the admin application and the module name. */
  function DeploySpec(st: AppState, c: Call): Run
  {
    var admin :- App(c.Current(), 1);
    Some(Step(st.(global := st.global[ADMIN_ID := Int(admin)][MODULE_NAME := LIST_MODULE]), []))
  }

  /** The writes start_sell requests, in source order. */
  function ListingWrites(price: Value, fee: U64, option: Value): seq<GlobalWrite>
  {
    [ GlobalWrite(NFT_PRICE, price, Int(1)),
      GlobalWrite(PLATFORM_FEE, Int(fee), Int(1)),
      GlobalWrite(PAYMENT_OPTION, option, Int(1)) ]
  }

  /**
   * start_sell: the NFT owner, having deposited the NFT with its NFT
   * application in leg 0, lists it at a price in ALGO or USDC; the admin's
   * current platform fee is copied into the listing.
   */
  function StartSellSpec(st: AppState, c: Call): Run
  {
    var t := c.Current();
    var price :- ArgUInt(t, 1);
    var option :- ArgUInt(t, 2);
    var nftId :- Asset(t, 0);
    var nftApp :- App(t, 1);
    var adminId :- AdminIdOf(st.global);
    var fee :- AsUInt(GlobalEx(c.ledger, st.global, adminId, PLATFORM_FEE));
    var g0 := c.group[0];
    var _ :- Assert(Int(nftId) == Field(c, nftApp, NFT_ID) && Bytes(t.sender) == Field(c, nftApp, NFT_OWNER));
    var _ :- Assert(g0.assetReceiver == c.ledger.appAddress(nftApp) && Int(g0.xferAsset) == Field(c, nftApp, NFT_ID));
    var _ :- Assert(IsPaymentOption(option));
    Some(Step(st, SetGlobalGroups(c, adminId, nftApp, LIST_MODULE, ListingWrites(price, fee, option))))
  }

  /**
   * revert_nft: the NFT owner takes the listed NFT back and NFT_PRICE is
   * set to 0 (PAYMENT_OPTION is left as it is).
   */
  function RevertNftSpec(st: AppState, c: Call): Run
  {
    var t := c.Current();
    var nftId :- Asset(t, 0);
    var nftApp :- App(t, 1);
    var _ :- Assert(Bytes(t.sender) == Field(c, nftApp, NFT_OWNER) && Int(nftId) == Field(c, nftApp, NFT_ID));
    var adminId :- AdminIdOf(st.global);
    // the stored owner and NFT id it pays with equal the sender and assets[0] once checked
    Some(Step(st, [[PayAssetCall(c, adminId, nftApp, t.sender, nftId, 1, LIST_MODULE)]] +
                  SetGlobalGroups(c, adminId, nftApp, LIST_MODULE, [GlobalWrite(NFT_PRICE, Int(0), Int(1))])))
  }

  /**
   * The payment leg 0 carries: its amount for ALGO (of any transaction
   * type), its asset amount for USDC (leg 0 moving USDC), 0 for any other
   * number; a byte string as option aborts the comparison with ALGO.
   */
  function PaymentAmount(c: Call, option: Value, usdc: Value): Option<U64>
  {
    var g0 := c.group[0];
    if option.Bytes? then None
    else if option == Const(ALGO) then Some(g0.amount)
    else if option == Const(USDC) then (if Int(g0.xferAsset) == usdc then Some(g0.assetAmount) else None)
    else Some(0)
  }

  /** The writes of purchase_nft: the listing price is cleared and the buyer becomes NFT_OWNER. */
  function PurchaseWrites(buyer: Address): seq<GlobalWrite>
  {
    [ GlobalWrite(NFT_PRICE, Int(0), Int(1)),
      GlobalWrite(NFT_OWNER, Bytes(buyer), Int(0)) ]
  }

  /**
   * purchase_nft, accepting only a positive price when `listedOnly`: accounts[1..3] must be the
   * NFT owner, creator and the admin application's account; leg 0 must pay
   * the NFT application exactly NFT_PRICE in the listing currency; the price
   * is split into royalty, the admin's current platform fee and the rest for
   * the owner, the NFT goes to the caller, who becomes NFT_OWNER, NFT_PRICE
   * is set to 0 and PAYMENT_OPTION deleted.
   */
  function PurchaseWith(st: AppState, c: Call, listedOnly: bool): Run
  {
    var t := c.Current();
    var owner :- Account(t, 1);
    var creator :- Account(t, 2);
    var adminAccount :- Account(t, 3);
    var nftId :- Asset(t, 0);
    var nftApp :- App(t, 1);
    var adminId :- AdminIdOf(st.global);
    var fee :- AsUInt(GlobalEx(c.ledger, st.global, adminId, PLATFORM_FEE));
    var price :- AsUInt(Field(c, nftApp, NFT_PRICE));
    var royalty :- AsUInt(Field(c, nftApp, ROYALTY));
    var split :- RoyaltySplit(price, royalty, fee);
    var _ :- Assert(Bytes(creator) == Field(c, nftApp, NFT_CREATOR) && Bytes(owner) == Field(c, nftApp, NFT_OWNER));
    var _ :- Assert(adminAccount == AppAddressEx(c, adminId));
    var g0 := c.group[0];
    var _ :- Assert(g0.receiver == c.ledger.appAddress(nftApp) || g0.assetReceiver == c.ledger.appAddress(nftApp));
    var option, usdc := Field(c, nftApp, PAYMENT_OPTION), Field(c, nftApp, USDC_ASSET_ID);
    var paid :- PaymentAmount(c, option, usdc);
    var _ :- Assert(paid == price && Int(nftId) == Field(c, nftApp, NFT_ID));
    var _ :- Assert(!listedOnly || price > 0);
    var payouts :- SalePayouts(c, adminId, nftApp, LIST_MODULE, option, usdc, adminAccount, creator, owner, t.sender, nftId, split);
    Some(Step(st, payouts + SetGlobalGroups(c, adminId, nftApp, LIST_MODULE, PurchaseWrites(t.sender)) +
                  [[DelGlobalCall(c, adminId, nftApp, LIST_MODULE, PAYMENT_OPTION)]]))
  }

  /** purchase_nft as written: any price is accepted, 0 included. */
  function PurchaseNftSpec(st: AppState, c: Call): Run
  {
    PurchaseWith(st, c, false)
  }

  /** purchase_nft as intended: only a listed NFT, one whose price is positive, can be bought. */
  function PurchaseNftIntendedSpec(st: AppState, c: Call): Run
  {
    PurchaseWith(st, c, true)
  }

  /**
   * change_admin_id as written: an admin sets ADMIN_ID to this module's own
   * NEW_ADMIN_ID global, which no handler writes, so it reads 0.
   */
  function ChangeAdminIdSpec(st: AppState, c: Call): Run
  {
    var _ :- Assert(AdminRole(c, st, Sender(c)));
    Some(Step(st.(global := st.global[ADMIN_ID := Get(st.global, NEW_ADMIN_ID)]), []))
  }

  /** change_admin_id as the auction module has it: an admin points ADMIN_ID at applications[1]. */
  function ChangeAdminIdIntendedSpec(st: AppState, c: Call): Run
  {
    var newId :- App(c.Current(), 1);
    var _ :- Assert(AdminRole(c, st, Sender(c)));
    Some(Step(st.(global := st.global[ADMIN_ID := Int(newId)]), []))
  }

  function UpdateAppSpec(st: AppState, c: Call): Run
  {
    var _ :- Assert(OwnerRole(c, st.global));
    Some(Step(st, []))
  }

  function Perform(op: Op, st: AppState, c: Call): Run
  {
    match op
    case Deploy => DeploySpec(st, c)
    case RevertNft => RevertNftSpec(st, c)
    case ChangeAdminId => ChangeAdminIdSpec(st, c)
    case StartSell => StartSellSpec(st, c)
    case PurchaseNft => PurchaseNftSpec(st, c)
    case UpdateApp => UpdateAppSpec(st, c)
  }

  /** One run of list_approval. */
  function Approval(st: AppState, c: Call): Run
  {
    var op :- Route(c);
    Perform(op, st, c)
  }

  // ---------------------------------------------------------------- the program object

  class ListApp {
    var global: Store
    var local: map<Address, Store>

    constructor ()
      ensures global == map[] && local == map[]
    {
      global := map[];
      local := map[];
    }

    function State(): AppState
      reads this
    {
      AppState(global, local)
    }

    method Deploy(c: Call) returns (r: Outcome)
      modifies this
      ensures Commits(old(State()), DeploySpec(old(State()), c), State(), r)
    {
      var t := c.Current();
      if |t.apps| < 1 {
        return Reject;
      }
      global := global[ADMIN_ID := Int(t.apps[0])];
      global := global[MODULE_NAME := LIST_MODULE];
      return Accept([]);
    }

    method StartSell(c: Call) returns (r: Outcome)
      ensures r == OutcomeOf(StartSellSpec(State(), c))
    {
      var t := c.Current();
      if |t.args| < 3 || |t.assets| < 1 || |t.apps| < 1 {
        return Reject;
      }
      var price, option := BtoiArg(t.args[1]), BtoiArg(t.args[2]);
      var adminId := AdminIdOf(global);
      if price.None? || option.None? || adminId.None? {
        return Reject;
      }
      var nftId, nftApp, g0 := t.assets[0], t.apps[0], c.group[0];
      var fee := GlobalEx(c.ledger, global, adminId.value, PLATFORM_FEE);
      if !fee.Int? {
        return Reject;
      }
      if Int(nftId) != Field(c, nftApp, NFT_ID) || Bytes(t.sender) != Field(c, nftApp, NFT_OWNER) {
        return Reject;
      }
      if g0.assetReceiver != c.ledger.appAddress(nftApp) || Int(g0.xferAsset) != Field(c, nftApp, NFT_ID) {
        return Reject;
      }
      if option.value != Const(ALGO) && option.value != Const(USDC) {
        return Reject;
      }
      var outbox := SubmitSetGlobals(c, adminId.value, nftApp, LIST_MODULE, ListingWrites(price.value, fee.n, option.value), []);
      return Accept(outbox);
    }

    method RevertNft(c: Call) returns (r: Outcome)
      ensures r == OutcomeOf(RevertNftSpec(State(), c))
    {
      var t := c.Current();
      if |t.assets| < 1 || |t.apps| < 1 {
        return Reject;
      }
      var nftId, nftApp := t.assets[0], t.apps[0];
      var owner, id := Field(c, nftApp, NFT_OWNER), Field(c, nftApp, NFT_ID);
      if Bytes(t.sender) != owner || Int(nftId) != id {
        return Reject;
      }
      var adminId := AdminIdOf(global);
      if adminId.None? {
        return Reject;
      }
      var w := GlobalWrite(NFT_PRICE, Int(0), Int(1));
      var outbox: Outbox := [[PayAssetCall(c, adminId.value, nftApp, t.sender, nftId, 1, LIST_MODULE)]];
      outbox := outbox + [[SetGlobalCall(c, adminId.value, nftApp, LIST_MODULE, w)]];
      assert SetGlobalGroups(c, adminId.value, nftApp, LIST_MODULE, [w]) == [[SetGlobalCall(c, adminId.value, nftApp, LIST_MODULE, w)]];
      return Accept(outbox);
    }

    method PurchaseNft(c: Call) returns (r: Outcome)
      ensures r == OutcomeOf(PurchaseNftSpec(State(), c))
    {
      var t := c.Current();
      if |t.accounts| < 3 || |t.assets| < 1 || |t.apps| < 1 {
        return Reject;
      }
      var owner, creator, adminAccount := t.accounts[0], t.accounts[1], t.accounts[2];
      var nftId, nftApp := t.assets[0], t.apps[0];
      var adminId := AdminIdOf(global);
      if adminId.None? {
        return Reject;
      }
      var fee, price, royalty := GlobalEx(c.ledger, global, adminId.value, PLATFORM_FEE), Field(c, nftApp, NFT_PRICE), Field(c, nftApp, ROYALTY);
      if !fee.Int? || !price.Int? || !royalty.Int? {
        return Reject;
      }
      var split := RoyaltySplit(price.n, royalty.n, fee.n);
      if split.None? {
        return Reject;
      }
      if Bytes(creator) != Field(c, nftApp, NFT_CREATOR) || Bytes(owner) != Field(c, nftApp, NFT_OWNER) ||
         adminAccount != AppAddressEx(c, adminId.value) {
        return Reject;
      }
      var g0 := c.group[0];
      var nftAddress := c.ledger.appAddress(nftApp);
      if g0.receiver != nftAddress && g0.assetReceiver != nftAddress {
        return Reject;
      }
      var option, usdc := Field(c, nftApp, PAYMENT_OPTION), Field(c, nftApp, USDC_ASSET_ID);
      if option.Bytes? {
        return Reject;
      }
      var paid: U64 := 0;
      if option == Const(ALGO) {
        paid := g0.amount;
      }
      if option == Const(USDC) {
        if Int(g0.xferAsset) != usdc {
          return Reject;
        }
        paid := g0.assetAmount;
      }
      if paid != price.n || Int(nftId) != Field(c, nftApp, NFT_ID) {
        return Reject;
      }
      var payouts := SalePayouts(c, adminId.value, nftApp, LIST_MODULE, option, usdc, adminAccount, creator, owner, t.sender, nftId, split.value);
      if payouts.None? {
        return Reject;
      }
      var outbox := SubmitSetGlobals(c, adminId.value, nftApp, LIST_MODULE, PurchaseWrites(t.sender), payouts.value);
      outbox := outbox + [[DelGlobalCall(c, adminId.value, nftApp, LIST_MODULE, PAYMENT_OPTION)]];
      return Accept(outbox);
    }

    method ChangeAdminId(c: Call) returns (r: Outcome)
      modifies this
      ensures Commits(old(State()), ChangeAdminIdSpec(old(State()), c), State(), r)
    {
      if !AdminRole(c, State(), Sender(c)) {
        return Reject;
      }
      global := global[ADMIN_ID := Get(global, NEW_ADMIN_ID)];
      return Accept([]);
    }

    method UpdateApp(c: Call) returns (r: Outcome)
      ensures r == OutcomeOf(UpdateAppSpec(State(), c))
    {
      if !OwnerRole(c, global) {
        return Reject;
      }
      return Accept([]);
    }

    /** list_approval: route the call, then run the selected handler. */
    method Approve(c: Call) returns (r: Outcome)
      modifies this
      ensures Commits(old(State()), Approval(old(State()), c), State(), r)
    {
      var op := Route(c);
      if op.None? {
        return Reject;
      }
      match op.value {
        case Deploy => r := Deploy(c);
        case RevertNft => r := RevertNft(c);
        case ChangeAdminId => r := ChangeAdminId(c);
        case StartSell => r := StartSell(c);
        case PurchaseNft => r := PurchaseNft(c);
        case UpdateApp => r := UpdateApp(c);
      }
    }
  }

  // ---------------------------------------------------------------- properties

  /** What the writes of start_sell leave in the NFT application's globals. */
  lemma {:induction false} ListingWritesEffect(g: Store, price: Value, fee: U64, option: Value)
    requires !price.Bytes? && !option.Bytes?
    ensures var ws := ListingWrites(price, fee, option);
      (forall i :: 0 <= i < |ws| ==> Delivery.WriteDecodes(ws[i]) && ws[i].name != ADMIN_ID) &&
      var g' := Delivery.ApplyWrites(g, ws);
      Get(g', NFT_PRICE) == price && Get(g', PLATFORM_FEE) == Int(fee) && Get(g', PAYMENT_OPTION) == option &&
      Get(g', NFT_OWNER) == Get(g, NFT_OWNER) && Get(g', NFT_ID) == Get(g, NFT_ID)
  {
    var ws := ListingWrites(price, fee, option);
    assert forall i :: 0 <= i < |ws| ==> Delivery.WriteDecodes(ws[i]) && Delivery.Written(ws[i]) == ws[i].value;
    Delivery.ApplyWritesLast(g, ws, 0);
    Delivery.ApplyWritesLast(g, ws, 1);
    Delivery.ApplyWritesLast(g, ws, 2);
    Delivery.ApplyWritesUntouched(g, ws, NFT_OWNER);
    Delivery.ApplyWritesUntouched(g, ws, NFT_ID);
  }

  /**
   * start_sell, served: the owner, who made the call, has the NFT listed at
   * the requested price in ALGO or USDC, with the admin's platform fee as the
   * listing's fee; owner and NFT are unchanged and nothing is paid.
   */
  lemma {:induction false} StartSellLists(st: AppState, c: Call, nftSt: AppState, now: U64)
    requires StartSellSpec(st, c).Some?
    requires |c.Current().apps| >= 1 && Delivery.Serves(st.global, LIST_MODULE, c, nftSt, c.Current().apps[0])
    ensures var t := c.Current();
      var res := Delivery.Delivered(c, nftSt, now, StartSellSpec(st, c));
      res.Some? && res.value.outbox == [] && res.value.state.local == nftSt.local &&
      var g := res.value.state.global;
      Get(g, NFT_PRICE) == BtoiArg(t.args[1]).value && Get(g, PAYMENT_OPTION) == BtoiArg(t.args[2]).value &&
      IsPaymentOption(Get(g, PAYMENT_OPTION)) &&
      Get(g, PLATFORM_FEE) == GlobalEx(c.ledger, st.global, AdminIdOf(st.global).value, PLATFORM_FEE) &&
      Get(g, NFT_OWNER) == Get(nftSt.global, NFT_OWNER) == Bytes(t.sender) && Get(g, NFT_ID) == Get(nftSt.global, NFT_ID)
  {
    var t := c.Current();
    var nftApp := t.apps[0];
    var adminId := AdminIdOf(st.global).value;
    var price, option := BtoiArg(t.args[1]).value, BtoiArg(t.args[2]).value;
    var fee := GlobalEx(c.ledger, st.global, adminId, PLATFORM_FEE).n;
    var ws := ListingWrites(price, fee, option);
    assert StartSellSpec(st, c).value.outbox == SetGlobalGroups(c, adminId, nftApp, LIST_MODULE, ws);
    ListingWritesEffect(nftSt.global, price, fee, option);
    Delivery.SetGlobalGroupsServed(c, nftSt, nftApp, adminId, LIST_MODULE, ws, now);
  }

  /**
   * revert_nft, served: only the NFT owner can revert; the NFT application
   * hands the NFT back to the owner and NFT_PRICE becomes 0, while
   * PAYMENT_OPTION and the owner stay.
   */
  lemma {:induction false} RevertReturnsNft(st: AppState, c: Call, nftSt: AppState, now: U64)
    requires RevertNftSpec(st, c).Some?
    requires |c.Current().apps| >= 1 && Delivery.Serves(st.global, LIST_MODULE, c, nftSt, c.Current().apps[0])
    ensures var t := c.Current();
      var res := Delivery.Delivered(c, nftSt, now, RevertNftSpec(st, c));
      Bytes(t.sender) == Get(nftSt.global, NFT_OWNER) && Int(t.assets[0]) == Get(nftSt.global, NFT_ID) &&
      res.Some? && res.value.state.local == nftSt.local &&
      res.value.outbox == [[Delivery.NftTransfer(c.ledger, t.apps[0], t.sender, t.assets[0], 1)]] &&
      var g := res.value.state.global;
      Get(g, NFT_PRICE) == Int(0) && Get(g, NFT_OWNER) == Get(nftSt.global, NFT_OWNER) &&
      Get(g, PAYMENT_OPTION) == Get(nftSt.global, PAYMENT_OPTION)
  {
    var t := c.Current();
    var nftApp := t.apps[0];
    var adminId := AdminIdOf(st.global).value;
    var ws := [GlobalWrite(NFT_PRICE, Int(0), Int(1))];
    var pay: Outbox := [[PayAssetCall(c, adminId, nftApp, t.sender, t.assets[0], 1, LIST_MODULE)]];
    var writes := SetGlobalGroups(c, adminId, nftApp, LIST_MODULE, ws);
    assert RevertNftSpec(st, c).value.outbox == pay + writes;
    Delivery.PayAssetGroupServed(c, nftSt, nftApp, adminId, LIST_MODULE, t.sender, t.assets[0], 1, now);
    RevertWritesEffect(nftSt.global);
    Delivery.SetGlobalGroupsServed(c, nftSt, nftApp, adminId, LIST_MODULE, ws, now);
    Delivery.TwoServed(nftSt, nftApp, pay, writes, [[Delivery.NftTransfer(c.ledger, nftApp, t.sender, t.assets[0], 1)]],
                       nftSt.(global := Delivery.ApplyWrites(nftSt.global, ws)), t.appId, now, c.ledger);
  }

  /** What the one write of revert_nft leaves in the NFT application's globals. */
  lemma RevertWritesEffect(g: Store)
    ensures var ws := [GlobalWrite(NFT_PRICE, Int(0), Int(1))];
      (forall i :: 0 <= i < |ws| ==> Delivery.WriteDecodes(ws[i]) && ws[i].name != ADMIN_ID) &&
      var g' := Delivery.ApplyWrites(g, ws);
      Get(g', NFT_PRICE) == Int(0) && Get(g', NFT_OWNER) == Get(g, NFT_OWNER) && Get(g', PAYMENT_OPTION) == Get(g, PAYMENT_OPTION)
  {
    var ws := [GlobalWrite(NFT_PRICE, Int(0), Int(1))];
    assert Delivery.Written(ws[0]) == Int(0);
    Delivery.ApplyWritesLast(g, ws, 0);
    Delivery.ApplyWritesUntouched(g, ws, NFT_OWNER);
    Delivery.ApplyWritesUntouched(g, ws, PAYMENT_OPTION);
  }

  /** What the writes of purchase_nft leave in the NFT application's globals. */
  lemma {:induction false} PurchaseWritesEffect(g: Store, buyer: Address)
    ensures var ws := PurchaseWrites(buyer);
      (forall i :: 0 <= i < |ws| ==> Delivery.WriteDecodes(ws[i]) && ws[i].name != ADMIN_ID) &&
      var g' := Delivery.ApplyWrites(g, ws);
      Get(g', NFT_PRICE) == Int(0) && Get(g', NFT_OWNER) == Bytes(buyer) && Get(g', ADMIN_ID) == Get(g, ADMIN_ID)
  {
    var ws := PurchaseWrites(buyer);
    assert forall i :: 0 <= i < |ws| ==> Delivery.WriteDecodes(ws[i]) && Delivery.Written(ws[i]) == ws[i].value;
    Delivery.ApplyWritesLast(g, ws, 0);
    Delivery.ApplyWritesLast(g, ws, 1);
    Delivery.ApplyWritesUntouched(g, ws, ADMIN_ID);
  }

  /** The requests of a purchase: the sale's payouts, the purchase writes and the deletion of PAYMENT_OPTION. */
  function PurchaseOutbox(c: Call, adminId: U64, nftApp: U64, payouts: Outbox): Outbox
  {
    payouts + SetGlobalGroups(c, adminId, nftApp, LIST_MODULE, PurchaseWrites(c.Current().sender)) +
    [[DelGlobalCall(c, adminId, nftApp, LIST_MODULE, PAYMENT_OPTION)]]
  }

  /** A purchase's requests, served by an NFT application that serves this module. */
  lemma {:induction false} PurchaseOutboxServed(c: Call, nftSt: AppState, nftApp: U64, adminId: U64, option: Value, usdc: Value,
                                                admin: Address, creator: Address, owner: Address, nftId: U64, split: Split, now: U64)
    requires Delivery.Registered(nftSt, nftApp, adminId, LIST_MODULE, c.Current().appId, c.ledger)
    requires SalePayouts(c, adminId, nftApp, LIST_MODULE, option, usdc, admin, creator, owner, c.Current().sender, nftId, split).Some?
    ensures var payouts := SalePayouts(c, adminId, nftApp, LIST_MODULE, option, usdc, admin, creator, owner, c.Current().sender, nftId, split).value;
      var res := Delivery.DeliverToNft(nftSt, nftApp, PurchaseOutbox(c, adminId, nftApp, payouts), c.Current().appId, now, c.ledger);
      res.Some? && res.value.state.local == nftSt.local &&
      res.value.outbox == Delivery.PayoutsMade(c.ledger, nftApp, option, usdc, admin, creator, owner, c.Current().sender, nftId, split) &&
      var g := res.value.state.global;
      Get(g, NFT_PRICE) == Int(0) && Get(g, NFT_OWNER) == Bytes(c.Current().sender) && PAYMENT_OPTION !in g
  {
    var t := c.Current();
    PurchaseWritesEffect(nftSt.global, t.sender);
    Delivery.SaleServed(c, nftSt, nftApp, adminId, LIST_MODULE, option, usdc, admin, creator, owner, t.sender, nftId, split,
                        PurchaseWrites(t.sender), now);
  }

  /** The split of the list price that purchase_nft pays out, with the admin's current platform fee. */
  function PurchaseSplit(st: AppState, c: Call): Option<Split>
    requires |c.Current().apps| >= 1
  {
    var nftApp := c.Current().apps[0];
    var adminId :- AdminIdOf(st.global);
    var fee :- AsUInt(GlobalEx(c.ledger, st.global, adminId, PLATFORM_FEE));
    var price :- AsUInt(Field(c, nftApp, NFT_PRICE));
    var royalty :- AsUInt(Field(c, nftApp, ROYALTY));
    RoyaltySplit(price, royalty, fee)
  }

  /** The checks purchase_nft made, and the requests it sent, once it has been accepted. */
  lemma PurchaseShape(st: AppState, c: Call, listedOnly: bool)
    requires PurchaseWith(st, c, listedOnly).Some?
    ensures var t := c.Current();
      |t.accounts| >= 3 && |t.assets| >= 1 && |t.apps| >= 1 && AdminIdOf(st.global).Some? &&
      var nftApp := t.apps[0];
      var option := Field(c, nftApp, PAYMENT_OPTION);
      Bytes(t.accounts[0]) == Field(c, nftApp, NFT_OWNER) && Bytes(t.accounts[1]) == Field(c, nftApp, NFT_CREATOR) &&
      t.accounts[2] == AppAddressEx(c, AdminIdOf(st.global).value) && Int(t.assets[0]) == Field(c, nftApp, NFT_ID) &&
      Field(c, nftApp, NFT_PRICE).Int? && (listedOnly ==> Field(c, nftApp, NFT_PRICE).n > 0) &&
      PaymentAmount(c, option, Field(c, nftApp, USDC_ASSET_ID)) == Some(Field(c, nftApp, NFT_PRICE).n) &&
      PurchaseSplit(st, c).Some? &&
      var payouts := SalePayouts(c, AdminIdOf(st.global).value, nftApp, LIST_MODULE, option, Field(c, nftApp, USDC_ASSET_ID),
        t.accounts[2], t.accounts[1], t.accounts[0], t.sender, t.assets[0], PurchaseSplit(st, c).value);
      payouts.Some? &&
      PurchaseWith(st, c, listedOnly).value.outbox == PurchaseOutbox(c, AdminIdOf(st.global).value, nftApp, payouts.value)
  {
  }

  /**
   * Once change_admin_id has left ADMIN_ID at 0, AppParam.address(0) names
   * the list program itself: an accepted purchase names this program's own
   * account as accounts[2], and the platform's share is paid there.
   */
  lemma PurchaseWithoutAdminNamesSelf(st: AppState, c: Call)
    requires PurchaseNftSpec(st, c).Some? && AdminIdOf(st.global) == Some(0)
    ensures |c.Current().accounts| >= 3 && c.Current().accounts[2] == SelfAddress(c)
  {
    PurchaseShape(st, c, false);
  }

  /**
   * purchase_nft, served: leg 0 paid the NFT application exactly NFT_PRICE
   * in the listing currency, accounts[1..3] are the owner, creator and admin
   * account; the price, split into platform fee, royalty and the rest (which
   * add up to the price), is paid to the admin account, the creator and the
   * owner, the NFT goes to the buyer, who becomes NFT_OWNER, NFT_PRICE is 0
   * and PAYMENT_OPTION is deleted.
   */
  lemma {:induction false} PurchaseDelivered(st: AppState, c: Call, nftSt: AppState, now: U64, listedOnly: bool)
    requires PurchaseWith(st, c, listedOnly).Some?
    requires |c.Current().apps| >= 1 && Delivery.Serves(st.global, LIST_MODULE, c, nftSt, c.Current().apps[0])
    ensures var t := c.Current();
      var nftApp := t.apps[0];
      var old_ := nftSt.global;
      var res := Delivery.Delivered(c, nftSt, now, PurchaseWith(st, c, listedOnly));
      |t.accounts| >= 3 && |t.assets| >= 1 &&
      Bytes(t.accounts[0]) == Get(old_, NFT_OWNER) && Get(old_, NFT_PRICE).Int? &&
      PaymentAmount(c, Get(old_, PAYMENT_OPTION), Get(old_, USDC_ASSET_ID)) == Some(Get(old_, NFT_PRICE).n) &&
      PurchaseSplit(st, c).Some? && PurchaseSplit(st, c).value.creator + PurchaseSplit(st, c).value.platform +
        PurchaseSplit(st, c).value.seller == Get(old_, NFT_PRICE).n &&
      res.Some? && res.value.state.local == nftSt.local &&
      res.value.outbox == Delivery.PayoutsMade(c.ledger, nftApp, Get(old_, PAYMENT_OPTION), Get(old_, USDC_ASSET_ID),
        t.accounts[2], t.accounts[1], t.accounts[0], t.sender, t.assets[0], PurchaseSplit(st, c).value) &&
      var g := res.value.state.global;
      Get(g, NFT_PRICE) == Int(0) && Get(g, NFT_OWNER) == Bytes(t.sender) && PAYMENT_OPTION !in g
  {
    var t := c.Current();
    var nftApp := t.apps[0];
    var adminId := AdminIdOf(st.global).value;
    PurchaseShape(st, c, listedOnly);
    SplitSumsToPrice(Field(c, nftApp, NFT_PRICE).n, Field(c, nftApp, ROYALTY).n, GlobalEx(c.ledger, st.global, adminId, PLATFORM_FEE).n);
    PurchaseOutboxServed(c, nftSt, nftApp, adminId, Field(c, nftApp, PAYMENT_OPTION), Field(c, nftApp, USDC_ASSET_ID),
                         t.accounts[2], t.accounts[1], t.accounts[0], t.assets[0], PurchaseSplit(st, c).value, now);
  }

  /**
   * A purchase call against NFT application applications[1] in state
   * `nftSt` that names the right owner, creator, admin account and NFT, and
   * whose leg 0 is a payment of 0 Algo to the NFT application; the price and
   * royalty are numbers.
   */
  predicate ZeroAlgoPurchase(st: AppState, c: Call, nftSt: AppState)
  {
    var t := c.Current();
    |t.accounts| >= 3 && |t.assets| >= 1 && |t.apps| >= 1 && Route(c) == Some(PurchaseNft) &&
    var nftApp := t.apps[0];
    var g := nftSt.global;
    Delivery.Serves(st.global, LIST_MODULE, c, nftSt, nftApp) &&
    Get(g, ROYALTY).Int? && GlobalEx(c.ledger, st.global, AdminIdOf(st.global).value, PLATFORM_FEE).Int? &&
    Bytes(t.accounts[0]) == Get(g, NFT_OWNER) && Bytes(t.accounts[1]) == Get(g, NFT_CREATOR) &&
    t.accounts[2] == AppAddressEx(c, AdminIdOf(st.global).value) && Int(t.assets[0]) == Get(g, NFT_ID) &&
    c.group[0].receiver == c.ledger.appAddress(nftApp) && c.group[0].amount == 0
  }

  /**
   * As written, once an NFT's NFT_PRICE is 0 and its PAYMENT_OPTION is ALGO,
   * the list module approves a purchase by anyone for nothing and the NFT
   * application serves it: it pays 0 to admin, creator and owner, requests
   * the transfer of its unit of the NFT to the caller and makes the caller
   * NFT_OWNER.  Account holdings are not modelled: the transfer goes through
   * on the ledger only while the NFT application holds the unit, as it does
   * while an auction escrows it (AuctionedNftTakenForFree).
   */
  lemma AnyoneTakesUnpricedNft(st: AppState, c: Call, nftSt: AppState, now: U64)
    requires ZeroAlgoPurchase(st, c, nftSt)
    requires Get(nftSt.global, NFT_PRICE) == Int(0) && Get(nftSt.global, PAYMENT_OPTION) == Const(ALGO)
    ensures var t := c.Current();
      var nftApp := t.apps[0];
      var res := Delivery.Delivered(c, nftSt, now, Approval(st, c));
      Approval(st, c).Some? && res.Some? &&
      res.value.outbox == [[Delivery.NftPayment(c.ledger, nftApp, t.accounts[2], 0)],
                           [Delivery.NftPayment(c.ledger, nftApp, t.accounts[1], 0)],
                           [Delivery.NftPayment(c.ledger, nftApp, t.accounts[0], 0)],
                           [Delivery.NftTransfer(c.ledger, nftApp, t.sender, t.assets[0], 1)]] &&
      Get(res.value.state.global, NFT_OWNER) == Bytes(t.sender)
  {
    UnpricedPurchaseAccepted(st, c, nftSt);
    PurchaseDelivered(st, c, nftSt, now, false);
  }

  /** The purchase of an unpriced Algo listing passes every check of purchase_nft and splits nothing. */
  lemma UnpricedPurchaseAccepted(st: AppState, c: Call, nftSt: AppState)
    requires ZeroAlgoPurchase(st, c, nftSt)
    requires Get(nftSt.global, NFT_PRICE) == Int(0) && Get(nftSt.global, PAYMENT_OPTION) == Const(ALGO)
    ensures Approval(st, c) == PurchaseNftSpec(st, c) && PurchaseNftSpec(st, c).Some?
    ensures PurchaseSplit(st, c) == Some(Split(0, 0, 0))
  {
    var t := c.Current();
    UnpricedPurchaseWith(st, c, nftSt, t.apps[0], AdminIdOf(st.global).value);
    PurchaseRoute(st, c);
  }

  lemma UnpricedSplit(royalty: U64, fee: U64)
    ensures RoyaltySplit(0, royalty, fee) == Some(Split(0, 0, 0))
  {
  }

  lemma PurchaseRoute(st: AppState, c: Call)
    requires Route(c) == Some(PurchaseNft)
    ensures Approval(st, c) == PurchaseNftSpec(st, c)
  {
    assert Perform(PurchaseNft, st, c) == PurchaseNftSpec(st, c);
  }

  lemma UnpricedPurchaseWith(st: AppState, c: Call, nftSt: AppState, nftApp: U64, adminId: U64)
    requires var t := c.Current(); |t.accounts| >= 3 && |t.assets| >= 1 && |t.apps| >= 1 && nftApp == t.apps[0]
    requires AdminIdOf(st.global) == Some(adminId) && nftApp in c.ledger.globals && c.ledger.globals[nftApp] == nftSt.global
    requires var g := nftSt.global; var t := c.Current();
      Get(g, ROYALTY).Int? && GlobalEx(c.ledger, st.global, adminId, PLATFORM_FEE).Int? &&
      Bytes(t.accounts[0]) == Get(g, NFT_OWNER) && Bytes(t.accounts[1]) == Get(g, NFT_CREATOR) &&
      t.accounts[2] == AppAddressEx(c, adminId) && Int(t.assets[0]) == Get(g, NFT_ID) &&
      c.group[0].receiver == c.ledger.appAddress(nftApp) && c.group[0].amount == 0
    requires Get(nftSt.global, NFT_PRICE) == Int(0) && Get(nftSt.global, PAYMENT_OPTION) == Const(ALGO)
    ensures PurchaseWith(st, c, false).Some? && PurchaseSplit(st, c) == Some(Split(0, 0, 0))
  {
    var t := c.Current();
    var royalty, fee := Get(nftSt.global, ROYALTY).n, GlobalEx(c.ledger, st.global, adminId, PLATFORM_FEE).n;
    assert Field(c, nftApp, NFT_PRICE) == Int(0) && Field(c, nftApp, ROYALTY) == Int(royalty);
    assert Field(c, nftApp, PAYMENT_OPTION) == Const(ALGO);
    UnpricedSplit(royalty, fee);
    assert PurchaseSplit(st, c) == Some(Split(0, 0, 0));
    assert PaymentAmount(c, Const(ALGO), Field(c, nftApp, USDC_ASSET_ID)) == Some(0);
    assert SalePayouts(c, adminId, nftApp, LIST_MODULE, Const(ALGO), Field(c, nftApp, USDC_ASSET_ID),
                       t.accounts[2], t.accounts[1], t.accounts[0], t.sender, t.assets[0], Split(0, 0, 0)).Some?;
  }

  /**
   * The same hole during an auction in Algo: create_auction escrows the NFT
   * with its NFT application and sets PAYMENT_OPTION to ALGO but leaves
   * NFT_PRICE alone, so while the auction runs anyone can take the NFT
   * through the list module for nothing.
   */
  lemma AuctionedNftTakenForFree(auctionSt: AppState, create: Call, nftSt: AppState, now: U64, running: AppState,
                                 st: AppState, purchase: Call, now': U64)
    requires Auction.CreateAuctionSpec(auctionSt, create).Some?
    requires |create.Current().apps| >= 1 && Delivery.Serves(auctionSt.global, AUCTION_MODULE, create, nftSt, create.Current().apps[0])
    requires Get(nftSt.global, NFT_PRICE) == Int(0) && BtoiArg(create.Current().args[4]).value == Const(ALGO)
    requires Delivery.Delivered(create, nftSt, now, Auction.CreateAuctionSpec(auctionSt, create)) == Some(Step(running, []))
    requires ZeroAlgoPurchase(st, purchase, running) && purchase.Current().apps[0] == create.Current().apps[0]
    ensures var t := purchase.Current();
      var res := Delivery.Delivered(purchase, running, now', Approval(st, purchase));
      Approval(st, purchase).Some? && res.Some? && |res.value.outbox| == 4 &&
      res.value.outbox[3] == [Delivery.NftTransfer(purchase.ledger, t.apps[0], t.sender, t.assets[0], 1)]
  {
    Auction.CreateAuctionOpens(auctionSt, create, nftSt, now);
    AnyoneTakesUnpricedNft(st, purchase, running, now');
  }

  /** As intended, a purchase is accepted exactly when the one as written is and the price is positive, and then does the same. */
  lemma IntendedPurchaseNeedsPrice(st: AppState, c: Call)
    ensures PurchaseNftIntendedSpec(st, c).Some? <==>
      (PurchaseNftSpec(st, c).Some? && Field(c, c.Current().apps[0], NFT_PRICE).Int? && Field(c, c.Current().apps[0], NFT_PRICE).n > 0)
    ensures PurchaseNftIntendedSpec(st, c).Some? ==> PurchaseNftIntendedSpec(st, c) == PurchaseNftSpec(st, c)
  {
  }

  /** No handler of the list module writes NEW_ADMIN_ID. */
  lemma NewAdminIdNeverWritten(st: AppState, c: Call)
    requires NEW_ADMIN_ID !in st.global && Approval(st, c).Some?
    ensures NEW_ADMIN_ID !in Approval(st, c).value.state.global
  {
    PerformKeepsNewAdminId(Route(c).value, st, c);
  }

  lemma PerformKeepsNewAdminId(op: Op, st: AppState, c: Call)
    requires NEW_ADMIN_ID !in st.global && Perform(op, st, c).Some?
    ensures NEW_ADMIN_ID !in Perform(op, st, c).value.state.global
  {
    match op
    case Deploy =>
    case RevertNft =>
    case ChangeAdminId =>
    case StartSell =>
    case PurchaseNft =>
    case UpdateApp =>
  }

  /**
   * As written, change_admin_id, which reads the never-written NEW_ADMIN_ID,
   * always sets ADMIN_ID to 0, after which no NFT application serves the
   * module (it names admin application 0 in every request).
   */
  lemma ChangeAdminIdDropsAdmin(st: AppState, c: Call)
    requires NEW_ADMIN_ID !in st.global && ChangeAdminIdSpec(st, c).Some?
    ensures AdminIdOf(ChangeAdminIdSpec(st, c).value.state.global) == Some(0)
  {
  }

  /** As intended, an admin repoints the module at the admin application it names, and only an admin can. */
  lemma IntendedChangeAdminIdRepoints(st: AppState, c: Call)
    ensures ChangeAdminIdIntendedSpec(st, c).Some? <==> |c.Current().apps| >= 1 && AdminRole(c, st, Sender(c))
    ensures ChangeAdminIdIntendedSpec(st, c).Some? ==>
      AdminIdOf(ChangeAdminIdIntendedSpec(st, c).value.state.global) == Some(c.Current().apps[0])
  {
  }

  /**
   * deploy_contract records applications[1] as ADMIN_ID and the module
   * name, and changes nothing else; a lone creation call without rekeying
   * runs it.
   */
  lemma DeployRecords(st: AppState, c: Call)
    ensures DeploySpec(st, c).Some? <==> |c.Current().apps| >= 1
    ensures DeploySpec(st, c).Some? ==>
      var res := DeploySpec(st, c).value;
      AdminIdOf(res.state.global) == Some(c.Current().apps[0]) && Get(res.state.global, MODULE_NAME) == LIST_MODULE &&
      (forall k :: k != ADMIN_ID && k != MODULE_NAME ==> Get(res.state.global, k) == Get(st.global, k)) &&
      res.state.local == st.local && res.outbox == []
    ensures c.Current().appId == 0 && |c.group| == 1 && NoRekey(c) ==> Approval(st, c) == DeploySpec(st, c)
  {
  }

  /**
   * update_app: an update call is approved exactly for the OWNER of the
   * application ADMIN_ID names (with ADMIN_ID 0, this program's own
   * OWNER), and changes nothing.
   */
  lemma UpdateOnlyOwner(st: AppState, c: Call)
    requires c.Current().appId != 0 && c.Current().onCompletion == UpdateApplication
    ensures Approval(st, c).Some? <==> OwnerRole(c, st.global)
    ensures AdminIdOf(st.global) == Some(0) ==> (Approval(st, c).Some? <==> Get(st.global, OWNER) == Bytes(Sender(c)))
    ensures Approval(st, c).Some? ==> Approval(st, c).value == Step(st, [])
  {
  }
}

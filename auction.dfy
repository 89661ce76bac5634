/**
 * contracts/modules/auction.py: the auction module.  Its own globals are
 * only ADMIN_ID and MODULE_NAME; an auction's fields (START_AUCTION,
 * END_AUCTION, MIN_BID_INCREMENT, CURRENT_BID, BIDDER_WINNER,
 * PAYMENT_OPTION, START_PRICE) live in the NFT application, which the
 * module reads through the ledger and writes with set_global requests.
 * The escrowed NFT and bids are held by the NFT application, which pays
 * them out on the module's pay_algo / pay_asset requests.
 */
module Auction {
  import opened Avm
  import opened Constants
  import opened Checkers
  import opened Utility
  import opened Sale
  import Nft
  import Delivery

  datatype Op = Deploy | CloseAuction | ChangeAdminId | CreateAuction | OnBid | UpdateApp

  /** handle_noop: the checkers in source order. */
  function NoOpBranches(c: Call): seq<(Option<bool>, Op)>
  {
    [ (CloseAuctionChecker(c), CloseAuction),
      (ChangeAdminIdChecker(c), ChangeAdminId),
      (CreateAuctionChecker(c), CreateAuction),
      (OnBidAuctionChecker(c), OnBid) ]
  }

  function Route(c: Call): Option<Op>
  {
    var t := c.Current();
    if t.appId == 0 && |c.group| == 1 && NoRekey(c) then Some(Deploy)
    else if t.onCompletion == NoOp then FirstMatch(NoOpBranches(c))
    else if t.onCompletion == UpdateApplication then Some(UpdateApp)
    else None
  }

  // ---------------------------------------------------------------- handler specifications

  /** deploy_contract: records the admin application and the module name. */
  function DeploySpec(st: AppState, c: Call): Run
  {
    var admin :- App(c.Current(), 1);
    Some(Step(st.(global := st.global[ADMIN_ID := Int(admin)][MODULE_NAME := AUCTION_MODULE]), []))
  }

  /** The writes create_auction requests, in source order. */
  function CreateWrites(start: U64, end: U64, minIncrement: Value, option: Value, startPrice: Value): seq<GlobalWrite>
  {
    [ GlobalWrite(START_AUCTION, Int(start), Int(1)),
      GlobalWrite(END_AUCTION, Int(end), Int(1)),
      GlobalWrite(MIN_BID_INCREMENT, minIncrement, Int(1)),
      GlobalWrite(CURRENT_BID, Int(0), Int(1)),
      GlobalWrite(PAYMENT_OPTION, option, Int(1)),
      GlobalWrite(START_PRICE, startPrice, Int(1)) ]
  }

  /**
   * create_auction: the NFT owner, having deposited the NFT with its NFT
   * application in leg 0, opens an auction that starts after now and ends
   * after it starts, in ALGO or USDC.  (Its check start_price >= 0 holds for
   * every uint.)
   */
  function CreateAuctionSpec(st: AppState, c: Call): Run
  {
    var t := c.Current();
    var startV :- ArgUInt(t, 1);
    var start :- AsUInt(startV);
    var endV :- ArgUInt(t, 2);
    var end :- AsUInt(endV);
    var minIncrement :- ArgUInt(t, 3);
    var option :- ArgUInt(t, 4);
    var startPrice :- ArgUInt(t, 5);
    var nftApp :- App(t, 1);
    var nftId :- Asset(t, 0);
    var g0 := c.group[0];
    var _ :- Assert(start > c.now && end > start);
    var _ :- Assert(Int(nftId) == Field(c, nftApp, NFT_ID) && Bytes(t.sender) == Field(c, nftApp, NFT_OWNER));
    var _ :- Assert(g0.assetReceiver == c.ledger.appAddress(nftApp) && Int(g0.xferAsset) == Field(c, nftApp, NFT_ID));
    var _ :- Assert(IsPaymentOption(option));
    var adminId :- AdminIdOf(st.global);
    Some(Step(st, SetGlobalGroups(c, adminId, nftApp, AUCTION_MODULE, CreateWrites(start, end, minIncrement, option, startPrice))))
  }

  /**
   * The bid leg 0 carries: its amount for ALGO (leg 0 a payment), its asset
   * amount for USDC (leg 0 moving USDC), 0 for any other number; a byte
   * string as option aborts the comparison with ALGO.
   */
  function BidAmount(c: Call, option: Value, usdc: Value): Option<U64>
  {
    var g0 := c.group[0];
    if option.Bytes? then None
    else if option == Const(ALGO) then (if g0.txnType == Payment then Some(g0.amount) else None)
    else if option == Const(USDC) then (if Int(g0.xferAsset) == usdc then Some(g0.assetAmount) else None)
    else Some(0)
  }

  /** The refund of the standing bid to the previous bidder, requested only when that bid is positive. */
  function Refund(c: Call, adminId: U64, nftApp: U64, option: Value, usdc: Value, previous: Value, current: U64): Option<Outbox>
  {
    if current == 0 then Some([])
    else if option == Const(ALGO) then
      var to :- AsAddress(previous);
      Some([[PayAlgoCall(c, adminId, nftApp, to, current, AUCTION_MODULE)]])
    else if option == Const(USDC) then
      var to :- AsAddress(previous);
      var asset :- AsUInt(usdc);
      Some([[PayAssetCall(c, adminId, nftApp, to, asset, current, AUCTION_MODULE)]])
    else Some([])
  }

  /** The bid leg 0 carries in the auction's currency; a byte-string option aborts the comparison. */
  method ReadBid(c: Call, option: Value, usdc: Value) returns (bid: Option<U64>)
    ensures bid == BidAmount(c, option, usdc)
  {
    var g0 := c.group[0];
    if option.Bytes? {
      return None;
    }
    if option == Const(ALGO) {
      if g0.txnType != Payment {
        return None;
      }
      return Some(g0.amount);
    }
    if option == Const(USDC) {
      if Int(g0.xferAsset) != usdc {
        return None;
      }
      return Some(g0.assetAmount);
    }
    return Some(0);
  }

  /** The refund request on_bid_auction builds, submitted only for a positive standing bid. */
  method RequestRefund(c: Call, adminId: U64, nftApp: U64, option: Value, usdc: Value, previous: Value, current: U64)
    returns (o: Option<Outbox>)
    ensures o == Refund(c, adminId, nftApp, option, usdc, previous, current)
  {
    if current == 0 || (option != Const(ALGO) && option != Const(USDC)) {
      return Some([]);
    }
    if !previous.Bytes? || (option == Const(USDC) && !usdc.Int?) {
      return None;
    }
    if option == Const(ALGO) {
      return Some([[PayAlgoCall(c, adminId, nftApp, previous.s, current, AUCTION_MODULE)]]);
    }
    return Some([[PayAssetCall(c, adminId, nftApp, previous.s, usdc.n, current, AUCTION_MODULE)]]);
  }

  /**
   * on_bid_auction: a bid paid into the NFT application in leg 0 is
   * accepted within [START_AUCTION, END_AUCTION) when it reaches
   * CURRENT_BID + MIN_BID_INCREMENT and START_PRICE and is not 0; the
   * previous bid is refunded and the bidder and bid recorded.
   */
  function OnBidSpec(st: AppState, c: Call): Run
  {
    var t := c.Current();
    var nftApp :- App(t, 1);
    var current :- AsUInt(Field(c, nftApp, CURRENT_BID));
    var minIncrement :- AsUInt(Field(c, nftApp, MIN_BID_INCREMENT));
    var startPrice :- AsUInt(Field(c, nftApp, START_PRICE));
    var start :- AsUInt(Field(c, nftApp, START_AUCTION));
    var end :- AsUInt(Field(c, nftApp, END_AUCTION));
    var option := Field(c, nftApp, PAYMENT_OPTION);
    var usdc := Field(c, nftApp, USDC_ASSET_ID);
    var minimum :- Add(current, minIncrement);
    var g0 := c.group[0];
    var _ :- Assert(g0.receiver == c.ledger.appAddress(nftApp) || g0.assetReceiver == c.ledger.appAddress(nftApp));
    var bid :- BidAmount(c, option, usdc);
    var _ :- Assert(start <= c.now && c.now < end);
    var _ :- Assert(bid >= minimum && bid != 0 && bid >= startPrice);
    var adminId :- AdminIdOf(st.global);
    var refund :- Refund(c, adminId, nftApp, option, usdc, Field(c, nftApp, BIDDER_WINNER), current);
    Some(Step(st, refund + SetGlobalGroups(c, adminId, nftApp, AUCTION_MODULE,
      [GlobalWrite(BIDDER_WINNER, Bytes(t.sender), Int(0)), GlobalWrite(CURRENT_BID, Int(bid), Int(1))])))
  }

  /** The writes of close_auction_before and close_auction_after. */
  const UnsoldWrites: seq<GlobalWrite> :=
    [ GlobalWrite(START_AUCTION, Int(0), Int(1)),
      GlobalWrite(END_AUCTION, Int(0), Int(1)),
      GlobalWrite(MIN_BID_INCREMENT, Int(0), Int(1)),
      GlobalWrite(CURRENT_BID, Int(0), Int(1)),
      GlobalWrite(BIDDER_WINNER, Bytes(""), Int(0)) ]

  /**
   * close_auction_before and close_auction_after (the same effect): the NFT
   * owner takes the NFT back and the auction fields are zeroed, with
   * BIDDER_WINNER set to the empty string.
   */
  function CloseUnsoldSpec(st: AppState, c: Call): Run
  {
    var t := c.Current();
    var nftId :- Asset(t, 0);
    var nftApp :- App(t, 1);
    var _ :- Assert(Int(nftId) == Field(c, nftApp, NFT_ID) && Bytes(t.sender) == Field(c, nftApp, NFT_OWNER));
    var adminId :- AdminIdOf(st.global);
    Some(Step(st, [[PayAssetCall(c, adminId, nftApp, t.sender, nftId, 1, AUCTION_MODULE)]] +
                  SetGlobalGroups(c, adminId, nftApp, AUCTION_MODULE, UnsoldWrites)))
  }

  /** The writes of close_auction_winner: the winner becomes NFT_OWNER; BIDDER_WINNER is left as it is. */
  function WinnerWrites(winner: Address): seq<GlobalWrite>
  {
    [ GlobalWrite(START_AUCTION, Int(0), Int(1)),
      GlobalWrite(END_AUCTION, Int(0), Int(1)),
      GlobalWrite(MIN_BID_INCREMENT, Int(0), Int(1)),
      GlobalWrite(CURRENT_BID, Int(0), Int(1)),
      GlobalWrite(NFT_OWNER, Bytes(winner), Int(0)) ]
  }

  /**
   * close_auction_winner, with the seller's share paid to `seller`:
   * accounts[1..3] must be the NFT creator, the recorded winner and the admin
   * application's account; the bid is split into royalty, platform fee and
   * the rest, the NFT goes to the winner, and PAYMENT_OPTION is deleted.
   */
  function CloseWinnerTo(st: AppState, c: Call, seller: Address): Run
  {
    var t := c.Current();
    var nftId :- Asset(t, 0);
    var creator :- Account(t, 1);
    var winner :- Account(t, 2);
    var adminAccount :- Account(t, 3);
    var nftApp :- App(t, 1);
    var adminId :- AdminIdOf(st.global);
    var royalty :- AsUInt(Field(c, nftApp, ROYALTY));
    var bid :- AsUInt(Field(c, nftApp, CURRENT_BID));
    var fee :- AsUInt(GlobalEx(c.ledger, st.global, adminId, PLATFORM_FEE));
    var _ :- Assert(adminAccount == AppAddressEx(c, adminId) && Bytes(winner) == Field(c, nftApp, BIDDER_WINNER));
    var _ :- Assert(Int(nftId) == Field(c, nftApp, NFT_ID) && Bytes(creator) == Field(c, nftApp, NFT_CREATOR));
    var split :- RoyaltySplit(bid, royalty, fee);
    var payouts :- SalePayouts(c, adminId, nftApp, AUCTION_MODULE, Field(c, nftApp, PAYMENT_OPTION), Field(c, nftApp, USDC_ASSET_ID),
                               adminAccount, creator, seller, winner, nftId, split);
    Some(Step(st, payouts + SetGlobalGroups(c, adminId, nftApp, AUCTION_MODULE, WinnerWrites(winner)) +
                  [[DelGlobalCall(c, adminId, nftApp, AUCTION_MODULE, PAYMENT_OPTION)]]))
  }

  /** close_auction_winner as written: the seller's share goes to the caller (Txn.sender), whoever that is. */
  function CloseWinnerSpec(st: AppState, c: Call): Run
  {
    CloseWinnerTo(st, c, c.Current().sender)
  }

  /** close_auction_winner as intended: the seller's share goes to the recorded NFT_OWNER. */
  function CloseWinnerIntendedSpec(st: AppState, c: Call): Run
  {
    var nftApp :- App(c.Current(), 1);
    var owner :- AsAddress(Field(c, nftApp, NFT_OWNER));
    CloseWinnerTo(st, c, owner)
  }

  /**
   * close_auction: before START_AUCTION the unsold close; after END_AUCTION
   * the unsold close when there is no bid and the winner close otherwise;
   * in between (END_AUCTION itself included) the call rejects.
   */
  function CloseAuctionSpec(st: AppState, c: Call): Run
  {
    var nftApp :- App(c.Current(), 1);
    var start :- AsUInt(Field(c, nftApp, START_AUCTION));
    var end :- AsUInt(Field(c, nftApp, END_AUCTION));
    if c.now < start then CloseUnsoldSpec(st, c)
    else if c.now > end then
      (if Field(c, nftApp, CURRENT_BID) == Int(0) then CloseUnsoldSpec(st, c) else CloseWinnerSpec(st, c))
    else None
  }

  /** change_admin_id: an admin points ADMIN_ID at applications[1]. */
  function ChangeAdminIdSpec(st: AppState, c: Call): Run
  {
    var newId :- App(c.Current(), 1);
    var _ :- Assert(AdminRole(c, st, Sender(c)));
    Some(Step(st.(global := st.global[ADMIN_ID := Int(newId)]), []))
  }

  function UpdateAppSpec(st: AppState, c: Call): Run
  {
    var _ :- Assert(OwnerRole(c, st.global));
    Some(Step(st, []))
  }

  function Perform(op: Op, st: AppState, c: Call): Run
  {
    match op
    case Deploy => DeploySpec(st, c)
    case CloseAuction => CloseAuctionSpec(st, c)
    case ChangeAdminId => ChangeAdminIdSpec(st, c)
    case CreateAuction => CreateAuctionSpec(st, c)
    case OnBid => OnBidSpec(st, c)
    case UpdateApp => UpdateAppSpec(st, c)
  }

  /** One run of auction_approval. */
  function Approval(st: AppState, c: Call): Run
  {
    var op :- Route(c);
    Perform(op, st, c)
  }

  // ---------------------------------------------------------------- the program object

  class AuctionApp {
    var global: Store
    var local: map<Address, Store>

    constructor ()
      ensures global == map[] && local == map[]
    {
      global := map[];
      local := map[];
    }

    function State(): AppState
      reads this
    {
      AppState(global, local)
    }

    method Deploy(c: Call) returns (r: Outcome)
      modifies this
      ensures Commits(old(State()), DeploySpec(old(State()), c), State(), r)
    {
      var t := c.Current();
      if |t.apps| < 1 {
        return Reject;
      }
      global := global[ADMIN_ID := Int(t.apps[0])];
      global := global[MODULE_NAME := AUCTION_MODULE];
      return Accept([]);
    }

    method CreateAuction(c: Call) returns (r: Outcome)
      ensures r == OutcomeOf(CreateAuctionSpec(State(), c))
    {
      var t := c.Current();
      if |t.args| < 6 || |t.apps| < 1 || |t.assets| < 1 {
        return Reject;
      }
      var start, end := BtoiArg(t.args[1]), BtoiArg(t.args[2]);
      var minIncrement, option, startPrice := BtoiArg(t.args[3]), BtoiArg(t.args[4]), BtoiArg(t.args[5]);
      if start.None? || !start.value.Int? || end.None? || !end.value.Int? || minIncrement.None? || option.None? || startPrice.None? {
        return Reject;
      }
      var nftApp, nftId, g0 := t.apps[0], t.assets[0], c.group[0];
      if start.value.n <= c.now || end.value.n <= start.value.n {
        return Reject;
      }
      if Int(nftId) != Field(c, nftApp, NFT_ID) || Bytes(t.sender) != Field(c, nftApp, NFT_OWNER) {
        return Reject;
      }
      if g0.assetReceiver != c.ledger.appAddress(nftApp) || Int(g0.xferAsset) != Field(c, nftApp, NFT_ID) {
        return Reject;
      }
      if option.value != Const(ALGO) && option.value != Const(USDC) {
        return Reject;
      }
      var adminId := AdminIdOf(global);
      if adminId.None? {
        return Reject;
      }
      var outbox := SubmitSetGlobals(c, adminId.value, nftApp, AUCTION_MODULE,
                                     CreateWrites(start.value.n, end.value.n, minIncrement.value, option.value, startPrice.value), []);
      return Accept(outbox);
    }

    method OnBid(c: Call) returns (r: Outcome)
      ensures r == OutcomeOf(OnBidSpec(State(), c))
    {
      var t := c.Current();
      if |t.apps| < 1 {
        return Reject;
      }
      var nftApp := t.apps[0];
      var current, minIncrement := Field(c, nftApp, CURRENT_BID), Field(c, nftApp, MIN_BID_INCREMENT);
      var startPrice, start, end := Field(c, nftApp, START_PRICE), Field(c, nftApp, START_AUCTION), Field(c, nftApp, END_AUCTION);
      if !current.Int? || !minIncrement.Int? || !startPrice.Int? || !start.Int? || !end.Int? {
        return Reject;
      }
      var option, usdc := Field(c, nftApp, PAYMENT_OPTION), Field(c, nftApp, USDC_ASSET_ID);
      if current.n + minIncrement.n > MaxUInt {
        return Reject;
      }
      var minimum: U64 := current.n + minIncrement.n;
      var g0 := c.group[0];
      var nftAddress := c.ledger.appAddress(nftApp);
      if g0.receiver != nftAddress && g0.assetReceiver != nftAddress {
        return Reject;
      }
      var paid := ReadBid(c, option, usdc);
      if paid.None? {
        return Reject;
      }
      var bid := paid.value;
      if c.now < start.n || c.now >= end.n || bid < minimum || bid == 0 || bid < startPrice.n {
        return Reject;
      }
      var adminId := AdminIdOf(global);
      if adminId.None? {
        return Reject;
      }
      var refund := RequestRefund(c, adminId.value, nftApp, option, usdc, Field(c, nftApp, BIDDER_WINNER), current.n);
      if refund.None? {
        return Reject;
      }
      var ws := [GlobalWrite(BIDDER_WINNER, Bytes(t.sender), Int(0)), GlobalWrite(CURRENT_BID, Int(bid), Int(1))];
      var outbox := SubmitSetGlobals(c, adminId.value, nftApp, AUCTION_MODULE, ws, refund.value);
      return Accept(outbox);
    }

    method CloseUnsold(c: Call) returns (r: Outcome)
      ensures r == OutcomeOf(CloseUnsoldSpec(State(), c))
    {
      var t := c.Current();
      if |t.assets| < 1 || |t.apps| < 1 {
        return Reject;
      }
      var nftId, nftApp := t.assets[0], t.apps[0];
      if Int(nftId) != Field(c, nftApp, NFT_ID) || Bytes(t.sender) != Field(c, nftApp, NFT_OWNER) {
        return Reject;
      }
      var adminId := AdminIdOf(global);
      if adminId.None? {
        return Reject;
      }
      var outbox := SubmitSetGlobals(c, adminId.value, nftApp, AUCTION_MODULE, UnsoldWrites,
                                     [[PayAssetCall(c, adminId.value, nftApp, t.sender, nftId, 1, AUCTION_MODULE)]]);
      return Accept(outbox);
    }

    method CloseWinner(c: Call) returns (r: Outcome)
      ensures r == OutcomeOf(CloseWinnerSpec(State(), c))
    {
      var t := c.Current();
      if |t.assets| < 1 || |t.accounts| < 3 || |t.apps| < 1 {
        return Reject;
      }
      var nftId, creator, winner, adminAccount, nftApp := t.assets[0], t.accounts[0], t.accounts[1], t.accounts[2], t.apps[0];
      var adminId := AdminIdOf(global);
      if adminId.None? {
        return Reject;
      }
      var royalty, bid := Field(c, nftApp, ROYALTY), Field(c, nftApp, CURRENT_BID);
      var fee := GlobalEx(c.ledger, global, adminId.value, PLATFORM_FEE);
      if !royalty.Int? || !bid.Int? || !fee.Int? {
        return Reject;
      }
      if adminAccount != AppAddressEx(c, adminId.value) || Bytes(winner) != Field(c, nftApp, BIDDER_WINNER) {
        return Reject;
      }
      if Int(nftId) != Field(c, nftApp, NFT_ID) || Bytes(creator) != Field(c, nftApp, NFT_CREATOR) {
        return Reject;
      }
      var split := RoyaltySplit(bid.n, royalty.n, fee.n);
      if split.None? {
        return Reject;
      }
      var option, usdc := Field(c, nftApp, PAYMENT_OPTION), Field(c, nftApp, USDC_ASSET_ID);
      var payouts := SalePayouts(c, adminId.value, nftApp, AUCTION_MODULE, option, usdc, adminAccount, creator, t.sender, winner, nftId, split.value);
      if payouts.None? {
        return Reject;
      }
      var outbox := SubmitSetGlobals(c, adminId.value, nftApp, AUCTION_MODULE, WinnerWrites(winner), payouts.value);
      outbox := outbox + [[DelGlobalCall(c, adminId.value, nftApp, AUCTION_MODULE, PAYMENT_OPTION)]];
      return Accept(outbox);
    }

    method CloseAuction(c: Call) returns (r: Outcome)
      ensures r == OutcomeOf(CloseAuctionSpec(State(), c))
    {
      var t := c.Current();
      if |t.apps| < 1 {
        return Reject;
      }
      var nftApp := t.apps[0];
      var start, end := Field(c, nftApp, START_AUCTION), Field(c, nftApp, END_AUCTION);
      if !start.Int? || !end.Int? {
        return Reject;
      }
      if c.now < start.n {
        r := CloseUnsold(c);
      } else if c.now > end.n {
        if Field(c, nftApp, CURRENT_BID) == Int(0) {
          r := CloseUnsold(c);
        } else {
          r := CloseWinner(c);
        }
      } else {
        r := Reject;
      }
    }

    method ChangeAdminId(c: Call) returns (r: Outcome)
      modifies this
      ensures Commits(old(State()), ChangeAdminIdSpec(old(State()), c), State(), r)
    {
      var t := c.Current();
      if |t.apps| < 1 || !AdminRole(c, State(), Sender(c)) {
        return Reject;
      }
      global := global[ADMIN_ID := Int(t.apps[0])];
      return Accept([]);
    }

    method UpdateApp(c: Call) returns (r: Outcome)
      ensures r == OutcomeOf(UpdateAppSpec(State(), c))
    {
      if !OwnerRole(c, global) {
        return Reject;
      }
      return Accept([]);
    }

    /** auction_approval: route the call, then run the selected handler. */
    method Approve(c: Call) returns (r: Outcome)
      modifies this
      ensures Commits(old(State()), Approval(old(State()), c), State(), r)
    {
      var op := Route(c);
      if op.None? {
        return Reject;
      }
      match op.value {
        case Deploy => r := Deploy(c);
        case CloseAuction => r := CloseAuction(c);
        case ChangeAdminId => r := ChangeAdminId(c);
        case CreateAuction => r := CreateAuction(c);
        case OnBid => r := OnBid(c);
        case UpdateApp => r := UpdateApp(c);
      }
    }
  }

  // ---------------------------------------------------------------- properties

  /** What the writes of create_auction leave in the NFT application's globals. */
  lemma {:induction false} CreateWritesEffect(g: Store, start: U64, end: U64, minIncrement: Value, option: Value, startPrice: Value)
    requires !minIncrement.Bytes? && !option.Bytes? && !startPrice.Bytes?
    ensures var ws := CreateWrites(start, end, minIncrement, option, startPrice);
      (forall i :: 0 <= i < |ws| ==> Delivery.WriteDecodes(ws[i]) && ws[i].name != ADMIN_ID) &&
      var g' := Delivery.ApplyWrites(g, ws);
      Get(g', START_AUCTION) == Int(start) && Get(g', END_AUCTION) == Int(end) &&
      Get(g', MIN_BID_INCREMENT) == minIncrement && Get(g', CURRENT_BID) == Int(0) &&
      Get(g', PAYMENT_OPTION) == option && Get(g', START_PRICE) == startPrice &&
      Get(g', NFT_OWNER) == Get(g, NFT_OWNER) && Get(g', NFT_ID) == Get(g, NFT_ID) &&
      Get(g', BIDDER_WINNER) == Get(g, BIDDER_WINNER) && Get(g', ADMIN_ID) == Get(g, ADMIN_ID) &&
      Get(g', NFT_PRICE) == Get(g, NFT_PRICE)
  {
    CreateWritesSet(g, start, end, minIncrement, option, startPrice);
    CreateWritesKeep(g, start, end, minIncrement, option, startPrice);
  }

  /** The six fields create_auction writes hold what it wrote. */
  lemma {:induction false} CreateWritesSet(g: Store, start: U64, end: U64, minIncrement: Value, option: Value, startPrice: Value)
    requires !minIncrement.Bytes? && !option.Bytes? && !startPrice.Bytes?
    ensures var ws := CreateWrites(start, end, minIncrement, option, startPrice);
      (forall i :: 0 <= i < |ws| ==> Delivery.WriteDecodes(ws[i]) && ws[i].name != ADMIN_ID) &&
      var g' := Delivery.ApplyWrites(g, ws);
      Get(g', START_AUCTION) == Int(start) && Get(g', END_AUCTION) == Int(end) &&
      Get(g', MIN_BID_INCREMENT) == minIncrement && Get(g', CURRENT_BID) == Int(0) &&
      Get(g', PAYMENT_OPTION) == option && Get(g', START_PRICE) == startPrice
  {
    var ws := CreateWrites(start, end, minIncrement, option, startPrice);
    assert forall i :: 0 <= i < |ws| ==> Delivery.WriteDecodes(ws[i]) && ws[i].name != ADMIN_ID && Delivery.Written(ws[i]) == ws[i].value;
    Delivery.ApplyWritesLast(g, ws, 0);
    Delivery.ApplyWritesLast(g, ws, 1);
    Delivery.ApplyWritesLast(g, ws, 2);
    Delivery.ApplyWritesLast(g, ws, 3);
    Delivery.ApplyWritesLast(g, ws, 4);
    Delivery.ApplyWritesLast(g, ws, 5);
  }

  /** The fields create_auction does not write keep their values. */
  lemma {:induction false} CreateWritesKeep(g: Store, start: U64, end: U64, minIncrement: Value, option: Value, startPrice: Value)
    requires !minIncrement.Bytes? && !option.Bytes? && !startPrice.Bytes?
    ensures var g' := Delivery.ApplyWrites(g, CreateWrites(start, end, minIncrement, option, startPrice));
      Get(g', NFT_OWNER) == Get(g, NFT_OWNER) && Get(g', NFT_ID) == Get(g, NFT_ID) &&
      Get(g', BIDDER_WINNER) == Get(g, BIDDER_WINNER) && Get(g', ADMIN_ID) == Get(g, ADMIN_ID) &&
      Get(g', NFT_PRICE) == Get(g, NFT_PRICE)
  {
    var ws := CreateWrites(start, end, minIncrement, option, startPrice);
    assert forall i :: 0 <= i < |ws| ==> Delivery.WriteDecodes(ws[i]);
    Delivery.ApplyWritesUntouched(g, ws, NFT_OWNER);
    Delivery.ApplyWritesUntouched(g, ws, NFT_ID);
    Delivery.ApplyWritesUntouched(g, ws, BIDDER_WINNER);
    Delivery.ApplyWritesUntouched(g, ws, ADMIN_ID);
    Delivery.ApplyWritesUntouched(g, ws, NFT_PRICE);
  }

  /**
   * create_auction, served: the NFT application holds an auction that starts
   * after now and ends after it starts, with the requested increment, start
   * price and currency (ALGO or USDC) and no bid yet; the owner, who made the
   * call, the NFT and its list price are unchanged, and no inner transaction is made.
   */
  lemma {:induction false} CreateAuctionOpens(st: AppState, c: Call, nftSt: AppState, now: U64)
    requires CreateAuctionSpec(st, c).Some?
    requires |c.Current().apps| >= 1 && Delivery.Serves(st.global, AUCTION_MODULE, c, nftSt, c.Current().apps[0])
    ensures var t := c.Current();
      var res := Delivery.Delivered(c, nftSt, now, CreateAuctionSpec(st, c));
      res.Some? && res.value.outbox == [] && res.value.state.local == nftSt.local &&
      var g := res.value.state.global;
      Get(g, START_AUCTION).Int? && Get(g, END_AUCTION).Int? &&
      c.now < Get(g, START_AUCTION).n < Get(g, END_AUCTION).n &&
      Get(g, START_AUCTION) == BtoiArg(t.args[1]).value && Get(g, END_AUCTION) == BtoiArg(t.args[2]).value &&
      Get(g, MIN_BID_INCREMENT) == BtoiArg(t.args[3]).value && Get(g, START_PRICE) == BtoiArg(t.args[5]).value &&
      Get(g, PAYMENT_OPTION) == BtoiArg(t.args[4]).value && IsPaymentOption(Get(g, PAYMENT_OPTION)) &&
      Get(g, CURRENT_BID) == Int(0) &&
      Get(g, NFT_OWNER) == Get(nftSt.global, NFT_OWNER) == Bytes(t.sender) &&
      Get(g, NFT_ID) == Get(nftSt.global, NFT_ID) && Get(g, BIDDER_WINNER) == Get(nftSt.global, BIDDER_WINNER) &&
      Get(g, ADMIN_ID) == Get(nftSt.global, ADMIN_ID) && Get(g, NFT_PRICE) == Get(nftSt.global, NFT_PRICE)
  {
    var t := c.Current();
    var nftApp := t.apps[0];
    var adminId := AdminIdOf(st.global).value;
    var start, end := BtoiArg(t.args[1]).value, BtoiArg(t.args[2]).value;
    var minIncrement, option, startPrice := BtoiArg(t.args[3]).value, BtoiArg(t.args[4]).value, BtoiArg(t.args[5]).value;
    var ws := CreateWrites(start.n, end.n, minIncrement, option, startPrice);
    assert CreateAuctionSpec(st, c).value.outbox == SetGlobalGroups(c, adminId, nftApp, AUCTION_MODULE, ws);
    CreateWritesEffect(nftSt.global, start.n, end.n, minIncrement, option, startPrice);
    Delivery.SetGlobalGroupsServed(c, nftSt, nftApp, adminId, AUCTION_MODULE, ws, now);
  }

  /** The bid a call carries in leg 0 under the NFT's payment option. */
  function BidOf(c: Call, option: Value): U64
  {
    if option == Const(ALGO) then c.group[0].amount else c.group[0].assetAmount
  }

  /**
   * A bid is accepted only in ALGO or USDC, within [START_AUCTION,
   * END_AUCTION), when leg 0 pays the NFT application in that currency at
   * least CURRENT_BID + MIN_BID_INCREMENT and at least START_PRICE, and
   * more than 0.
   */
  lemma OnBidRules(st: AppState, c: Call)
    requires OnBidSpec(st, c).Some?
    ensures var nftApp := c.Current().apps[0];
      var option := Field(c, nftApp, PAYMENT_OPTION);
      var g0 := c.group[0];
      IsPaymentOption(option) &&
      (option == Const(ALGO) ==> g0.txnType == Payment) &&
      (option == Const(USDC) ==> Int(g0.xferAsset) == Field(c, nftApp, USDC_ASSET_ID)) &&
      (g0.receiver == c.ledger.appAddress(nftApp) || g0.assetReceiver == c.ledger.appAddress(nftApp)) &&
      Field(c, nftApp, START_AUCTION).Int? && Field(c, nftApp, END_AUCTION).Int? &&
      Field(c, nftApp, START_AUCTION).n <= c.now < Field(c, nftApp, END_AUCTION).n &&
      Field(c, nftApp, CURRENT_BID).Int? && Field(c, nftApp, MIN_BID_INCREMENT).Int? && Field(c, nftApp, START_PRICE).Int? &&
      BidOf(c, option) > 0 && BidOf(c, option) >= Field(c, nftApp, START_PRICE).n &&
      BidOf(c, option) >= Field(c, nftApp, CURRENT_BID).n + Field(c, nftApp, MIN_BID_INCREMENT).n
  {
  }

  /** What the two writes of on_bid_auction leave in the NFT application's globals. */
  lemma {:induction false} BidWritesEffect(g: Store, bidder: Address, bid: U64)
    ensures var ws := [GlobalWrite(BIDDER_WINNER, Bytes(bidder), Int(0)), GlobalWrite(CURRENT_BID, Int(bid), Int(1))];
      (forall i :: 0 <= i < |ws| ==> Delivery.WriteDecodes(ws[i]) && ws[i].name != ADMIN_ID) &&
      var g' := Delivery.ApplyWrites(g, ws);
      Get(g', BIDDER_WINNER) == Bytes(bidder) && Get(g', CURRENT_BID) == Int(bid) &&
      Get(g', NFT_OWNER) == Get(g, NFT_OWNER) && Get(g', START_AUCTION) == Get(g, START_AUCTION) &&
      Get(g', END_AUCTION) == Get(g, END_AUCTION) && Get(g', PAYMENT_OPTION) == Get(g, PAYMENT_OPTION)
  {
    var ws := [GlobalWrite(BIDDER_WINNER, Bytes(bidder), Int(0)), GlobalWrite(CURRENT_BID, Int(bid), Int(1))];
    assert Delivery.Written(ws[0]) == Bytes(bidder) && Delivery.Written(ws[1]) == Int(bid);
    Delivery.ApplyWritesLast(g, ws, 0);
    Delivery.ApplyWritesLast(g, ws, 1);
    Delivery.ApplyWritesUntouched(g, ws, NFT_OWNER);
    Delivery.ApplyWritesUntouched(g, ws, START_AUCTION);
    Delivery.ApplyWritesUntouched(g, ws, END_AUCTION);
    Delivery.ApplyWritesUntouched(g, ws, PAYMENT_OPTION);
  }

  /** The refund on_bid_auction requests, as the NFT application carries it out. */
  function RefundMade(nftSt: AppState, ledger: Ledger, nftApp: U64): Outbox
  {
    var g := nftSt.global;
    var current := Get(g, CURRENT_BID);
    var previous := Get(g, BIDDER_WINNER);
    if !current.Int? || current.n == 0 || !previous.Bytes? then []
    else if Get(g, PAYMENT_OPTION) == Const(ALGO) then [[Delivery.NftPayment(ledger, nftApp, previous.s, current.n)]]
    else if Get(g, PAYMENT_OPTION) == Const(USDC) && Get(g, USDC_ASSET_ID).Int? then
      [[Delivery.NftTransfer(ledger, nftApp, previous.s, Get(g, USDC_ASSET_ID).n, current.n)]]
    else []
  }

  /**
   * on_bid_auction, served: the caller becomes BIDDER_WINNER with its bid
   * as CURRENT_BID; the NFT application has refunded the previous bid, in
   * the auction's currency, to the previous bidder exactly when that bid
   * was positive; the owner, window and currency are unchanged.
   */
  lemma {:induction false} OnBidDelivered(st: AppState, c: Call, nftSt: AppState, now: U64)
    requires OnBidSpec(st, c).Some?
    requires |c.Current().apps| >= 1 && Delivery.Serves(st.global, AUCTION_MODULE, c, nftSt, c.Current().apps[0])
    ensures var nftApp := c.Current().apps[0];
      var old_ := nftSt.global;
      var res := Delivery.Delivered(c, nftSt, now, OnBidSpec(st, c));
      res.Some? && res.value.state.local == nftSt.local &&
      res.value.outbox == RefundMade(nftSt, c.ledger, nftApp) &&
      (Get(old_, CURRENT_BID) != Int(0) <==> |res.value.outbox| == 1) &&
      var g := res.value.state.global;
      Get(g, BIDDER_WINNER) == Bytes(c.Current().sender) &&
      Get(g, CURRENT_BID) == Int(BidOf(c, Get(old_, PAYMENT_OPTION))) &&
      Get(g, NFT_OWNER) == Get(old_, NFT_OWNER) && Get(g, START_AUCTION) == Get(old_, START_AUCTION) &&
      Get(g, END_AUCTION) == Get(old_, END_AUCTION) && Get(g, PAYMENT_OPTION) == Get(old_, PAYMENT_OPTION)
  {
    var t := c.Current();
    var nftApp := t.apps[0];
    var adminId := AdminIdOf(st.global).value;
    var option, usdc := Field(c, nftApp, PAYMENT_OPTION), Field(c, nftApp, USDC_ASSET_ID);
    var current := Field(c, nftApp, CURRENT_BID).n;
    var bid := BidOf(c, option);
    OnBidRules(st, c);
    assert BidAmount(c, option, usdc) == Some(bid);
    var refund := Refund(c, adminId, nftApp, option, usdc, Field(c, nftApp, BIDDER_WINNER), current).value;
    var ws := [GlobalWrite(BIDDER_WINNER, Bytes(t.sender), Int(0)), GlobalWrite(CURRENT_BID, Int(bid), Int(1))];
    var writes := SetGlobalGroups(c, adminId, nftApp, AUCTION_MODULE, ws);
    assert OnBidSpec(st, c).value.outbox == refund + writes;
    RefundServed(c, nftSt, nftApp, adminId, current, now);
    BidWritesEffect(nftSt.global, t.sender, bid);
    Delivery.SetGlobalGroupsServed(c, nftSt, nftApp, adminId, AUCTION_MODULE, ws, now);
    Delivery.TwoServed(nftSt, nftApp, refund, writes, RefundMade(nftSt, c.ledger, nftApp),
                       nftSt.(global := Delivery.ApplyWrites(nftSt.global, ws)), t.appId, now, c.ledger);
  }

  /** The refund of the standing bid, served: the NFT application pays it back to BIDDER_WINNER, in the auction's currency. */
  lemma RefundServed(c: Call, nftSt: AppState, nftApp: U64, adminId: U64, current: U64, now: U64)
    requires Delivery.Registered(nftSt, nftApp, adminId, AUCTION_MODULE, c.Current().appId, c.ledger)
    requires IsPaymentOption(Get(nftSt.global, PAYMENT_OPTION)) && Get(nftSt.global, CURRENT_BID) == Int(current)
    requires Refund(c, adminId, nftApp, Get(nftSt.global, PAYMENT_OPTION), Get(nftSt.global, USDC_ASSET_ID),
                    Get(nftSt.global, BIDDER_WINNER), current).Some?
    ensures var refund := Refund(c, adminId, nftApp, Get(nftSt.global, PAYMENT_OPTION), Get(nftSt.global, USDC_ASSET_ID),
                                 Get(nftSt.global, BIDDER_WINNER), current).value;
      Delivery.DeliverToNft(nftSt, nftApp, refund, c.Current().appId, now, c.ledger) == Some(Step(nftSt, RefundMade(nftSt, c.ledger, nftApp))) &&
      (current != 0 <==> |RefundMade(nftSt, c.ledger, nftApp)| == 1)
  {
    var g := nftSt.global;
    if current == 0 {
    } else if Get(g, PAYMENT_OPTION) == Const(ALGO) {
      Delivery.PayAlgoGroupServed(c, nftSt, nftApp, adminId, AUCTION_MODULE, Get(g, BIDDER_WINNER).s, current, now);
    } else {
      Delivery.PayAssetGroupServed(c, nftSt, nftApp, adminId, AUCTION_MODULE, Get(g, BIDDER_WINNER).s, Get(g, USDC_ASSET_ID).n, current, now);
    }
  }

  /** No single instant admits both a bid and a close of the same auction: bids need START <= now < END, closes now < START or now > END. */
  lemma BidAndCloseExclusive(st: AppState, bid: Call, close: Call)
    requires bid.now == close.now && bid.ledger == close.ledger && App(bid.Current(), 1) == App(close.Current(), 1)
    ensures !(OnBidSpec(st, bid).Some? && CloseAuctionSpec(st, close).Some?)
  {
  }

  /** At the instant END_AUCTION itself an auction that has started can neither take a bid nor be closed. */
  lemma EndInstantStalls(st: AppState, c: Call)
    requires |c.Current().apps| >= 1
    requires Field(c, c.Current().apps[0], END_AUCTION) == Int(c.now)
    requires Field(c, c.Current().apps[0], START_AUCTION).Int? && Field(c, c.Current().apps[0], START_AUCTION).n <= c.now
    ensures OnBidSpec(st, c).None? && CloseAuctionSpec(st, c).None?
  {
  }

  /** The branch of close_auction that returns the NFT: before the start, or after the end without a bid. */
  predicate ClosesUnsold(c: Call)
    requires |c.Current().apps| >= 1
  {
    var nftApp := c.Current().apps[0];
    var start := Field(c, nftApp, START_AUCTION);
    (start.Int? && c.now < start.n) || Field(c, nftApp, CURRENT_BID) == Int(0)
  }

  /** What the writes of the unsold close leave in the NFT application's globals. */
  lemma {:induction false} UnsoldWritesEffect(g: Store)
    ensures (forall i :: 0 <= i < |UnsoldWrites| ==> Delivery.WriteDecodes(UnsoldWrites[i]) && UnsoldWrites[i].name != ADMIN_ID) &&
      var g' := Delivery.ApplyWrites(g, UnsoldWrites);
      Get(g', START_AUCTION) == Get(g', END_AUCTION) == Get(g', MIN_BID_INCREMENT) == Get(g', CURRENT_BID) == Int(0) &&
      Get(g', BIDDER_WINNER) == Bytes("") &&
      Get(g', NFT_OWNER) == Get(g, NFT_OWNER) && Get(g', PAYMENT_OPTION) == Get(g, PAYMENT_OPTION) &&
      Get(g', NFT_PRICE) == Get(g, NFT_PRICE)
  {
    var ws := UnsoldWrites;
    assert forall i :: 0 <= i < |ws| ==> Delivery.WriteDecodes(ws[i]) && Delivery.Written(ws[i]) == ws[i].value;
    Delivery.ApplyWritesLast(g, ws, 0);
    Delivery.ApplyWritesLast(g, ws, 1);
    Delivery.ApplyWritesLast(g, ws, 2);
    Delivery.ApplyWritesLast(g, ws, 3);
    Delivery.ApplyWritesLast(g, ws, 4);
    Delivery.ApplyWritesUntouched(g, ws, NFT_OWNER);
    Delivery.ApplyWritesUntouched(g, ws, PAYMENT_OPTION);
    Delivery.ApplyWritesUntouched(g, ws, NFT_PRICE);
  }

  /**
   * close_auction without a sale, served: only the NFT owner can close it;
   * the NFT application hands the NFT back to the owner and zeroes the
   * auction fields, clearing BIDDER_WINNER; the owner and currency stay.
   */
  lemma {:induction false} CloseUnsoldDelivered(st: AppState, c: Call, nftSt: AppState, now: U64)
    requires |c.Current().apps| >= 1 && CloseAuctionSpec(st, c).Some? && ClosesUnsold(c)
    requires Delivery.Serves(st.global, AUCTION_MODULE, c, nftSt, c.Current().apps[0])
    ensures var t := c.Current();
      var nftApp := t.apps[0];
      var res := Delivery.Delivered(c, nftSt, now, CloseAuctionSpec(st, c));
      Bytes(t.sender) == Get(nftSt.global, NFT_OWNER) && Int(t.assets[0]) == Get(nftSt.global, NFT_ID) &&
      res.Some? && res.value.state.local == nftSt.local &&
      res.value.outbox == [[Delivery.NftTransfer(c.ledger, nftApp, t.sender, t.assets[0], 1)]] &&
      var g := res.value.state.global;
      Get(g, START_AUCTION) == Get(g, END_AUCTION) == Get(g, MIN_BID_INCREMENT) == Get(g, CURRENT_BID) == Int(0) &&
      Get(g, BIDDER_WINNER) == Bytes("") &&
      Get(g, NFT_OWNER) == Get(nftSt.global, NFT_OWNER) && Get(g, PAYMENT_OPTION) == Get(nftSt.global, PAYMENT_OPTION)
  {
    var t := c.Current();
    var nftApp := t.apps[0];
    var adminId := AdminIdOf(st.global).value;
    var caller := t.appId;
    assert CloseAuctionSpec(st, c) == CloseUnsoldSpec(st, c);
    var pay: Outbox := [[PayAssetCall(c, adminId, nftApp, t.sender, t.assets[0], 1, AUCTION_MODULE)]];
    var writes := SetGlobalGroups(c, adminId, nftApp, AUCTION_MODULE, UnsoldWrites);
    assert CloseUnsoldSpec(st, c).value.outbox == pay + writes;
    Delivery.PayAssetGroupServed(c, nftSt, nftApp, adminId, AUCTION_MODULE, t.sender, t.assets[0], 1, now);
    UnsoldWritesEffect(nftSt.global);
    Delivery.SetGlobalGroupsServed(c, nftSt, nftApp, adminId, AUCTION_MODULE, UnsoldWrites, now);
    Delivery.TwoServed(nftSt, nftApp, pay, writes, [[Delivery.NftTransfer(c.ledger, nftApp, t.sender, t.assets[0], 1)]],
                       nftSt.(global := Delivery.ApplyWrites(nftSt.global, UnsoldWrites)), caller, now, c.ledger);
  }

  /** What the writes of the winner close leave in the NFT application's globals. */
  lemma {:induction false} WinnerWritesEffect(g: Store, winner: Address)
    ensures var ws := WinnerWrites(winner);
      (forall i :: 0 <= i < |ws| ==> Delivery.WriteDecodes(ws[i]) && ws[i].name != ADMIN_ID) &&
      var g' := Delivery.ApplyWrites(g, ws);
      Get(g', START_AUCTION) == Get(g', END_AUCTION) == Get(g', MIN_BID_INCREMENT) == Get(g', CURRENT_BID) == Int(0) &&
      Get(g', NFT_OWNER) == Bytes(winner) && Get(g', BIDDER_WINNER) == Get(g, BIDDER_WINNER) &&
      Get(g', ADMIN_ID) == Get(g, ADMIN_ID)
  {
    var ws := WinnerWrites(winner);
    assert forall i :: 0 <= i < |ws| ==> Delivery.WriteDecodes(ws[i]) && Delivery.Written(ws[i]) == ws[i].value;
    Delivery.ApplyWritesLast(g, ws, 0);
    Delivery.ApplyWritesLast(g, ws, 1);
    Delivery.ApplyWritesLast(g, ws, 2);
    Delivery.ApplyWritesLast(g, ws, 3);
    Delivery.ApplyWritesLast(g, ws, 4);
    Delivery.ApplyWritesUntouched(g, ws, BIDDER_WINNER);
    Delivery.ApplyWritesUntouched(g, ws, ADMIN_ID);
  }

  /** The split of the standing bid that close_auction_winner pays out. */
  function WinnerSplit(st: AppState, c: Call): Option<Split>
    requires |c.Current().apps| >= 1
  {
    var nftApp := c.Current().apps[0];
    var adminId :- AdminIdOf(st.global);
    var royalty :- AsUInt(Field(c, nftApp, ROYALTY));
    var bid :- AsUInt(Field(c, nftApp, CURRENT_BID));
    var fee :- AsUInt(GlobalEx(c.ledger, st.global, adminId, PLATFORM_FEE));
    RoyaltySplit(bid, royalty, fee)
  }

  /** The requests of the winner close: the sale's payouts, the winner writes and the deletion of PAYMENT_OPTION. */
  function WinnerOutbox(c: Call, adminId: U64, nftApp: U64, payouts: Outbox, winner: Address): Outbox
  {
    payouts + SetGlobalGroups(c, adminId, nftApp, AUCTION_MODULE, WinnerWrites(winner)) +
    [[DelGlobalCall(c, adminId, nftApp, AUCTION_MODULE, PAYMENT_OPTION)]]
  }

  /** The winner close's requests, served by an NFT application that serves this module. */
  lemma {:induction false} WinnerOutboxServed(c: Call, nftSt: AppState, nftApp: U64, adminId: U64, option: Value, usdc: Value,
                                              admin: Address, creator: Address, winner: Address, nftId: U64, split: Split, now: U64)
    requires Delivery.Registered(nftSt, nftApp, adminId, AUCTION_MODULE, c.Current().appId, c.ledger)
    requires SalePayouts(c, adminId, nftApp, AUCTION_MODULE, option, usdc, admin, creator, c.Current().sender, winner, nftId, split).Some?
    ensures var payouts := SalePayouts(c, adminId, nftApp, AUCTION_MODULE, option, usdc, admin, creator, c.Current().sender, winner, nftId, split).value;
      var res := Delivery.DeliverToNft(nftSt, nftApp, WinnerOutbox(c, adminId, nftApp, payouts, winner), c.Current().appId, now, c.ledger);
      res.Some? && res.value.state.local == nftSt.local &&
      res.value.outbox == Delivery.PayoutsMade(c.ledger, nftApp, option, usdc, admin, creator, c.Current().sender, winner, nftId, split) &&
      var g := res.value.state.global;
      Get(g, START_AUCTION) == Get(g, END_AUCTION) == Get(g, MIN_BID_INCREMENT) == Get(g, CURRENT_BID) == Int(0) &&
      Get(g, NFT_OWNER) == Bytes(winner) && PAYMENT_OPTION !in g
  {
    var t := c.Current();
    WinnerWritesEffect(nftSt.global, winner);
    Delivery.SaleServed(c, nftSt, nftApp, adminId, AUCTION_MODULE, option, usdc, admin, creator, t.sender, winner, nftId, split,
                        WinnerWrites(winner), now);
  }

  /** The checks close_auction_winner made, and the requests it sent, once it has been accepted. */
  lemma CloseWinnerShape(st: AppState, c: Call)
    requires |c.Current().apps| >= 1 && CloseAuctionSpec(st, c).Some? && !ClosesUnsold(c)
    ensures var t := c.Current();
      var nftApp := t.apps[0];
      |t.accounts| >= 3 && |t.assets| >= 1 && AdminIdOf(st.global).Some? &&
      Bytes(t.accounts[1]) == Field(c, nftApp, BIDDER_WINNER) && Bytes(t.accounts[0]) == Field(c, nftApp, NFT_CREATOR) &&
      t.accounts[2] == AppAddressEx(c, AdminIdOf(st.global).value) && Int(t.assets[0]) == Field(c, nftApp, NFT_ID) &&
      Field(c, nftApp, END_AUCTION).Int? && c.now > Field(c, nftApp, END_AUCTION).n &&
      Field(c, nftApp, CURRENT_BID).Int? && WinnerSplit(st, c).Some? &&
      var payouts := SalePayouts(c, AdminIdOf(st.global).value, nftApp, AUCTION_MODULE, Field(c, nftApp, PAYMENT_OPTION),
        Field(c, nftApp, USDC_ASSET_ID), t.accounts[2], t.accounts[0], t.sender, t.accounts[1], t.assets[0], WinnerSplit(st, c).value);
      payouts.Some? &&
      CloseAuctionSpec(st, c).value.outbox == WinnerOutbox(c, AdminIdOf(st.global).value, nftApp, payouts.value, t.accounts[1])
  {
    assert CloseAuctionSpec(st, c) == CloseWinnerSpec(st, c);
  }

  /**
   * close_auction after the end with a bid, served: accounts[1..3] are the
   * NFT creator, the recorded winner and the admin account; the standing
   * bid, split into platform fee, royalty and the rest (which add up to the
   * bid), is paid to the admin account, the creator and the CALLER, the NFT
   * goes to the winner, who becomes NFT_OWNER, the auction fields are zeroed
   * and PAYMENT_OPTION is deleted.
   */
  lemma {:induction false} CloseWinnerDelivered(st: AppState, c: Call, nftSt: AppState, now: U64)
    requires |c.Current().apps| >= 1 && CloseAuctionSpec(st, c).Some? && !ClosesUnsold(c)
    requires Delivery.Serves(st.global, AUCTION_MODULE, c, nftSt, c.Current().apps[0])
    ensures var t := c.Current();
      var nftApp := t.apps[0];
      var old_ := nftSt.global;
      var res := Delivery.Delivered(c, nftSt, now, CloseAuctionSpec(st, c));
      |t.accounts| >= 3 && |t.assets| >= 1 &&
      Bytes(t.accounts[1]) == Get(old_, BIDDER_WINNER) && Bytes(t.accounts[0]) == Get(old_, NFT_CREATOR) &&
      t.accounts[2] == AppAddressEx(c, AdminIdOf(st.global).value) && Int(t.assets[0]) == Get(old_, NFT_ID) &&
      Get(old_, END_AUCTION).Int? && c.now > Get(old_, END_AUCTION).n &&
      WinnerSplit(st, c).Some? && WinnerSplit(st, c).value.creator + WinnerSplit(st, c).value.platform +
        WinnerSplit(st, c).value.seller == Get(old_, CURRENT_BID).n &&
      res.Some? && res.value.state.local == nftSt.local &&
      res.value.outbox == Delivery.PayoutsMade(c.ledger, nftApp, Get(old_, PAYMENT_OPTION), Get(old_, USDC_ASSET_ID),
        t.accounts[2], t.accounts[0], t.sender, t.accounts[1], t.assets[0], WinnerSplit(st, c).value) &&
      var g := res.value.state.global;
      Get(g, START_AUCTION) == Get(g, END_AUCTION) == Get(g, MIN_BID_INCREMENT) == Get(g, CURRENT_BID) == Int(0) &&
      Get(g, NFT_OWNER) == Bytes(t.accounts[1]) && PAYMENT_OPTION !in g
  {
    var t := c.Current();
    var nftApp := t.apps[0];
    var adminId := AdminIdOf(st.global).value;
    CloseWinnerShape(st, c);
    var split := WinnerSplit(st, c).value;
    SplitSumsToPrice(Field(c, nftApp, CURRENT_BID).n, Field(c, nftApp, ROYALTY).n, GlobalEx(c.ledger, st.global, adminId, PLATFORM_FEE).n);
    WinnerOutboxServed(c, nftSt, nftApp, adminId, Field(c, nftApp, PAYMENT_OPTION), Field(c, nftApp, USDC_ASSET_ID),
                       t.accounts[2], t.accounts[0], t.accounts[1], t.assets[0], split, now);
  }

  /** The same call made by account `x` instead. */
  function WithSender(c: Call, x: Address): (d: Call)
    ensures d.Current() == c.Current().(sender := x)
    ensures d.now == c.now && d.ledger == c.ledger && d.callerApp == c.callerApp && |d.group| == |c.group|
  {
    c.(group := c.group[c.index := c.Current().(sender := x)])
  }

  /**
   * As written, whoever closes an auction that has a winner collects the
   * seller's share: close_auction_checker does not look at the sender, and
   * close_auction_winner pays the rest of the bid to Txn.sender.  The same
   * accepted close, sent by any account `x`, is accepted too and pays the
   * seller's share, in Algo, to `x` rather than to the NFT owner.
   */
  lemma AnyCallerTakesSellerShare(st: AppState, c: Call, x: Address)
    requires |c.Current().apps| >= 1 && Route(c) == Some(CloseAuction) && Approval(st, c).Some? && !ClosesUnsold(c)
    requires Field(c, c.Current().apps[0], PAYMENT_OPTION) == Const(ALGO)
    ensures var d := WithSender(c, x);
      var nftApp := c.Current().apps[0];
      Route(d) == Some(CloseAuction) && Approval(st, d).Some? &&
      |Approval(st, d).value.outbox| >= 3 &&
      Approval(st, d).value.outbox[2] == [PayAlgoCall(d, AdminIdOf(st.global).value, nftApp, x, WinnerSplit(st, c).value.seller, AUCTION_MODULE)]
  {
    var d := WithSender(c, x);
    CloseWinnerShape(st, c);
    var bs := NoOpBranches(c);
    assert FirstMatch(bs) == Some(CloseAuction);
    FirstMatchSelects(bs, CloseAuction);
    forall i | 0 <= i < |bs| && bs[i] == (Some(true), CloseAuction)
      ensures i == 0
    {
    }
    assert CloseAuctionChecker(d) == CloseAuctionChecker(c) == Some(true);
    FirstMatchAt(NoOpBranches(d), 0);
    assert CloseAuctionSpec(st, d) == CloseWinnerSpec(st, d);
  }

  /** The seller-share request of a winner close names the seller it was given and carries the seller's part of the split. */
  lemma CloseWinnerToPaysSeller(st: AppState, c: Call, seller: Address)
    requires |c.Current().apps| >= 1 && CloseWinnerTo(st, c, seller).Some?
    requires IsPaymentOption(Field(c, c.Current().apps[0], PAYMENT_OPTION))
    ensures var o := CloseWinnerTo(st, c, seller).value.outbox;
      WinnerSplit(st, c).Some? && |o| >= 3 && |o[2]| == 1 &&
      o[2][0].accounts == [seller] && o[2][0].args[2] == Int(WinnerSplit(st, c).value.seller)
  {
  }

  /** The requests of a winner close do not depend on who sends it. */
  lemma CloseWinnerToIgnoresSender(st: AppState, c: Call, seller: Address, x: Address)
    ensures CloseWinnerTo(st, WithSender(c, x), seller) == CloseWinnerTo(st, c, seller)
  {
    var d := WithSender(c, x);
    var t := c.Current();
    assert SelfAddress(d) == SelfAddress(c);
    if |t.apps| >= 1 && |t.assets| >= 1 && |t.accounts| >= 2 && AdminIdOf(st.global).Some? {
      var nftApp, adminId := t.apps[0], AdminIdOf(st.global).value;
      forall o: Value, u: Value, a: Address, cr: Address, w: Address, n: U64, sp: Split
        ensures SalePayouts(d, adminId, nftApp, AUCTION_MODULE, o, u, a, cr, seller, w, n, sp) ==
                SalePayouts(c, adminId, nftApp, AUCTION_MODULE, o, u, a, cr, seller, w, n, sp)
      {
      }
      forall ws: seq<GlobalWrite>
        ensures SetGlobalGroups(d, adminId, nftApp, AUCTION_MODULE, ws) == SetGlobalGroups(c, adminId, nftApp, AUCTION_MODULE, ws)
      {
      }
      assert DelGlobalCall(d, adminId, nftApp, AUCTION_MODULE, PAYMENT_OPTION) == DelGlobalCall(c, adminId, nftApp, AUCTION_MODULE, PAYMENT_OPTION);
    }
  }

  /**
   * As intended, the seller's share of a winner close goes to the recorded
   * NFT_OWNER, in the auction's currency, whoever sends the close.
   */
  lemma IntendedPaysOwner(st: AppState, c: Call, x: Address)
    requires |c.Current().apps| >= 1 && CloseWinnerIntendedSpec(st, c).Some?
    requires IsPaymentOption(Field(c, c.Current().apps[0], PAYMENT_OPTION))
    ensures var nftApp := c.Current().apps[0];
      var o := CloseWinnerIntendedSpec(st, c).value.outbox;
      Field(c, nftApp, NFT_OWNER).Bytes? && WinnerSplit(st, c).Some? && |o| >= 3 && |o[2]| == 1 &&
      o[2][0].accounts == [Field(c, nftApp, NFT_OWNER).s] && o[2][0].args[2] == Int(WinnerSplit(st, c).value.seller)
    ensures CloseWinnerIntendedSpec(st, WithSender(c, x)) == CloseWinnerIntendedSpec(st, c)
  {
    var owner := Field(c, c.Current().apps[0], NFT_OWNER).s;
    CloseWinnerToPaysSeller(st, c, owner);
    CloseWinnerToIgnoresSender(st, c, owner, x);
  }

  /**
   * Apart from deployment the module's own state changes only when an
   * account with the admin role repoints ADMIN_ID; every auction handler
   * leaves it alone and acts only through requests to the NFT application.
   */
  lemma AuctionStateWriters(st: AppState, c: Call)
    requires Approval(st, c).Some? && Route(c) != Some(Deploy)
    ensures var st' := Approval(st, c).value.state;
      st' == st || (AdminRole(c, st, Sender(c)) && |c.Current().apps| >= 1 &&
                    st' == st.(global := st.global[ADMIN_ID := Int(c.Current().apps[0])]))
  {
    PerformStateWriters(Route(c).value, st, c);
  }

  lemma PerformStateWriters(op: Op, st: AppState, c: Call)
    requires Perform(op, st, c).Some? && op != Deploy
    ensures var st' := Perform(op, st, c).value.state;
      st' == st || (AdminRole(c, st, Sender(c)) && |c.Current().apps| >= 1 &&
                    st' == st.(global := st.global[ADMIN_ID := Int(c.Current().apps[0])]))
  {
    match op
    case CloseAuction =>
      if CloseAuctionSpec(st, c) == CloseUnsoldSpec(st, c) {
      } else {
        assert CloseAuctionSpec(st, c) == CloseWinnerSpec(st, c);
      }
    case ChangeAdminId =>
    case CreateAuction =>
    case OnBid =>
    case UpdateApp =>
  }

  /**
   * deploy_contract records applications[1] as ADMIN_ID and the module
   * name, and changes nothing else; a lone creation call without rekeying
   * runs it.
   */
  lemma DeployRecords(st: AppState, c: Call)
    ensures DeploySpec(st, c).Some? <==> |c.Current().apps| >= 1
    ensures DeploySpec(st, c).Some? ==>
      var res := DeploySpec(st, c).value;
      AdminIdOf(res.state.global) == Some(c.Current().apps[0]) && Get(res.state.global, MODULE_NAME) == AUCTION_MODULE &&
      (forall k :: k != ADMIN_ID && k != MODULE_NAME ==> Get(res.state.global, k) == Get(st.global, k)) &&
      res.state.local == st.local && res.outbox == []
    ensures c.Current().appId == 0 && |c.group| == 1 && NoRekey(c) ==> Approval(st, c) == DeploySpec(st, c)
  {
  }

  /**
   * update_app: an update call is approved exactly for the OWNER of the
   * application ADMIN_ID names (with ADMIN_ID 0, this program's own
   * OWNER), and changes nothing.
   */
  lemma UpdateOnlyOwner(st: AppState, c: Call)
    requires c.Current().appId != 0 && c.Current().onCompletion == UpdateApplication
    ensures Approval(st, c).Some? <==> OwnerRole(c, st.global)
    ensures AdminIdOf(st.global) == Some(0) ==> (Approval(st, c).Some? <==> Get(st.global, OWNER) == Bytes(Sender(c)))
    ensures Approval(st, c).Some? ==> Approval(st, c).value == Step(st, [])
  {
  }

  /** change_admin_id: an admin repoints ADMIN_ID at applications[1], and nothing else changes. */
  lemma ChangeAdminIdRecords(st: AppState, c: Call)
    ensures ChangeAdminIdSpec(st, c).Some? <==> |c.Current().apps| >= 1 && AdminRole(c, st, Sender(c))
    ensures ChangeAdminIdSpec(st, c).Some? ==>
      var res := ChangeAdminIdSpec(st, c).value;
      AdminIdOf(res.state.global) == Some(c.Current().apps[0]) &&
      (forall k :: k != ADMIN_ID ==> Get(res.state.global, k) == Get(st.global, k)) &&
      res.state.local == st.local && res.outbox == []
  {
  }
}

/**
 * The settlement that auction.close_auction_winner and list.purchase_nft
 * share (contracts/modules/auction.py, contracts/modules/list.py): the
 * price is split into a royalty for the NFT creator, a platform fee for the
 * admin account and the rest for the seller, and the NFT application pays
 * them out in Algo or USDC before handing the NFT to the buyer.
 */
module Sale {
  import opened Avm
  import opened Constants
  import opened Utility

  datatype Split = Split(creator: U64, platform: U64, seller: U64)

  /**
   * creator = WideRatio(price, royalty, 100), platform = WideRatio(fee,
   * price, 100), seller = price - (creator + platform); each step aborts as
   * the AVM does.  (list.purchase_nft writes the products and the sum in the
   * other order, which yields the same values and the same aborts.)  For
   * example, price 1000 with royalty 10 and fee 5 splits as 100 to the
   * creator, 50 to the platform and 850 to the seller.
   */
  function RoyaltySplit(price: U64, royalty: U64, fee: U64): Option<Split>
  {
    var creator :- WideRatio(price, royalty, 100);
    var platform :- WideRatio(fee, price, 100);
    var taken :- Add(creator, platform);
    var seller :- Minus(price, taken);
    Some(Split(creator, platform, seller))
  }

  /**
   * The payout requests, in source order: platform fee to the admin
   * account, royalty to the creator, the rest to the seller, then the NFT
   * to the buyer; in Algo when the option is ALGO, in the USDC asset when it
   * is USDC, nothing for any other number; a byte string as option aborts
   * the comparison with ALGO.
   */
  function SalePayouts(c: Call, adminId: U64, nftApp: U64, moduleName: Value, option: Value, usdc: Value,
                       admin: Address, creator: Address, seller: Address, buyer: Address, nftId: U64, s: Split): Option<Outbox>
  {
    if option.Bytes? then None
    else if option == Const(ALGO) then
      Some([[PayAlgoCall(c, adminId, nftApp, admin, s.platform, moduleName)],
            [PayAlgoCall(c, adminId, nftApp, creator, s.creator, moduleName)],
            [PayAlgoCall(c, adminId, nftApp, seller, s.seller, moduleName)],
            [PayAssetCall(c, adminId, nftApp, buyer, nftId, 1, moduleName)]])
    else if option == Const(USDC) then
      var asset :- AsUInt(usdc);
      Some([[PayAssetCall(c, adminId, nftApp, admin, asset, s.platform, moduleName)],
            [PayAssetCall(c, adminId, nftApp, creator, asset, s.creator, moduleName)],
            [PayAssetCall(c, adminId, nftApp, seller, asset, s.seller, moduleName)],
            [PayAssetCall(c, adminId, nftApp, buyer, nftId, 1, moduleName)]])
    else
      Some([])
  }

  // ---------------------------------------------------------------- properties

  /** When the split is defined its three parts are the two floors and the remainder, and add up to the price. */
  lemma SplitSumsToPrice(price: U64, royalty: U64, fee: U64)
    ensures RoyaltySplit(price, royalty, fee).Some? ==>
      var s := RoyaltySplit(price, royalty, fee).value;
      s.creator == price * royalty / 100 && s.platform == fee * price / 100 &&
      s.creator + s.platform + s.seller == price
  {
  }

  /** The split aborts exactly when royalty and fee together take more than the price. */
  lemma SplitAbortsOnOverdraw(price: U64, royalty: U64, fee: U64)
    requires price * royalty / 100 <= MaxUInt && fee * price / 100 <= MaxUInt
    ensures RoyaltySplit(price, royalty, fee).None? <==> price * royalty / 100 + fee * price / 100 > price
  {
  }

  /** x·p/100 rounded down is at most x when p is at most 100. */
  lemma {:induction false} PercentAtMost(x: nat, p: nat)
    requires p <= 100
    ensures x * p / 100 <= x
  {
    MulLe(x, p, 100);
  }

  lemma MulLe(x: nat, a: nat, b: nat)
    requires a <= b
    ensures x * a <= x * b
  {
  }

  /** Two floors of percentages of the same amount add up to at most the floor of their sum. */
  lemma {:induction false} PercentSum(x: nat, a: nat, b: nat)
    ensures x * a / 100 + x * b / 100 <= x * (a + b) / 100
  {
    var qa, qb := x * a / 100, x * b / 100;
    assert x * a >= 100 * qa && x * b >= 100 * qb;
    assert x * (a + b) == x * a + x * b;
    assert x * (a + b) >= 100 * (qa + qb);
  }

  /** With royalty and fee at most 100 percent together, the split never aborts. */
  lemma {:induction false} SplitDefinedWhenPercentagesFit(price: U64, royalty: U64, fee: U64)
    requires royalty + fee <= 100
    ensures RoyaltySplit(price, royalty, fee).Some?
  {
    PercentAtMost(price, royalty);
    PercentAtMost(price, fee);
    assert fee * price == price * fee;
    PercentSum(price, royalty, fee);
    PercentAtMost(price, royalty + fee);
  }

  /** The NFT always goes to the buyer, exactly one unit, as the last request; the three currency payouts carry the split. */
  lemma PayoutsDeliverSplit(c: Call, adminId: U64, nftApp: U64, moduleName: Value, option: Value, usdc: Value,
                            admin: Address, creator: Address, seller: Address, buyer: Address, nftId: U64, s: Split)
    requires SalePayouts(c, adminId, nftApp, moduleName, option, usdc, admin, creator, seller, buyer, nftId, s).Some?
    ensures var o := SalePayouts(c, adminId, nftApp, moduleName, option, usdc, admin, creator, seller, buyer, nftId, s).value;
      (option == Const(ALGO) || option == Const(USDC)) <==> |o| == 4
    ensures var o := SalePayouts(c, adminId, nftApp, moduleName, option, usdc, admin, creator, seller, buyer, nftId, s).value;
      |o| == 4 ==> (o[3] == [PayAssetCall(c, adminId, nftApp, buyer, nftId, 1, moduleName)] &&
        o[0][0].args[2] == Int(s.platform) && o[0][0].accounts == [admin] &&
        o[1][0].args[2] == Int(s.creator) && o[1][0].accounts == [creator] &&
        o[2][0].args[2] == Int(s.seller) && o[2][0].accounts == [seller])
  {
  }
}

/**
 * How the requests the modules send (contracts/utility.py: pay_algo_txn,
 * pay_asset_txn, set_global_txn, del_global_txn) are served by the NFT
 * application (contracts/modules/nft_app.py).  An inner application call
 * runs the callee's approval program with that call as a group of one,
 * with the calling application as Global.caller_app_id.
 */
module Delivery {
  import opened Avm
  import opened Constants
  import opened Checkers
  import opened Utility
  import opened Sale
  import Nft

  /** The callee's view of an inner application call `t` submitted by application `caller`. */
  function InnerCall(t: Txn, caller: U64, now: U64, ledger: Ledger): (d: Call)
    ensures d.Current() == t && |d.group| == 1 && d.callerApp == caller && d.ledger == ledger
  {
    CallContext([t], 0, caller, now, ledger)
  }

  /**
   * The NFT application `nft` serving an outbox in order: each single
   * application call addressed to it runs Nft.Approval; every other inner
   * group (payments, transfers, calls elsewhere) is a ledger effect this
   * fold leaves aside.  The result collects the NFT application's own inner
   * transactions; None when one of the delivered calls is rejected.
   */
  function DeliverToNft(st: AppState, nft: U64, outbox: Outbox, caller: U64, now: U64, ledger: Ledger): Run
    decreases |outbox|
  {
    if outbox == [] then Some(Step(st, []))
    else
      var group := outbox[0];
      if |group| == 1 && group[0].txnType == ApplicationCall && group[0].appId == nft then
        var s1 :- Nft.Approval(st, InnerCall(group[0], caller, now, ledger));
        var s2 :- DeliverToNft(s1.state, nft, outbox[1..], caller, now, ledger);
        Some(Step(s2.state, s1.outbox + s2.outbox))
      else
        DeliverToNft(st, nft, outbox[1..], caller, now, ledger)
  }

  /**
   * The conditions under which the NFT application accepts module
   * `moduleName`, running as application `caller`, whose own ADMIN_ID is
   * `adminId`: the NFT application is not being created, stores the same
   * ADMIN_ID, which names another application (not 0), and that admin
   * registers `caller` under `moduleName`.
   */
  predicate Registered(st: AppState, nft: U64, adminId: U64, moduleName: Value, caller: U64, ledger: Ledger)
  {
    nft != 0 && caller != 0 && adminId != 0 && Get(st.global, ADMIN_ID) == Int(adminId) &&
    GlobalOf(ledger, adminId, moduleName) == Int(caller)
  }

  /**
   * The NFT application `nftApp`, in state `nftSt`, serves a module whose own
   * globals are `own`, called by `c`: the module has an ADMIN_ID, that admin
   * registers the calling application under `moduleName`, and the ledger the
   * call reads shows nftSt's globals for nftApp.
   */
  predicate Serves(own: Store, moduleName: Value, c: Call, nftSt: AppState, nftApp: U64)
  {
    AdminIdOf(own).Some? &&
    Registered(nftSt, nftApp, AdminIdOf(own).value, moduleName, c.Current().appId, c.ledger) &&
    nftApp in c.ledger.globals && c.ledger.globals[nftApp] == nftSt.global
  }

  /** A module's run on `c`, with its requests then served by NFT application applications[1]. */
  function Delivered(c: Call, nftSt: AppState, now: U64, r: Run): Run
    requires |c.Current().apps| >= 1
  {
    if r.None? then None else DeliverToNft(nftSt, c.Current().apps[0], r.value.outbox, c.Current().appId, now, c.ledger)
  }

  /** A write the NFT application can carry out: the flag decodes and so does the value it selects. */
  predicate WriteDecodes(w: GlobalWrite)
  {
    BtoiArg(w.flag).Some? && Nft.StoredValue(w.value, BtoiArg(w.flag).value).Some?
  }

  /** The value a set_global request leaves under its name. */
  function Written(w: GlobalWrite): Value
    requires WriteDecodes(w)
  {
    Nft.StoredValue(w.value, BtoiArg(w.flag).value).value
  }

  /** The NFT globals after a sequence of set_global writes, in order. */
  function ApplyWrites(g: Store, ws: seq<GlobalWrite>): Store
    requires forall i :: 0 <= i < |ws| ==> WriteDecodes(ws[i])
    decreases |ws|
  {
    if ws == [] then g else ApplyWrites(g[ws[0].name := Written(ws[0])], ws[1..])
  }

  /** set_global_txn, served: the NFT application stores the requested value and submits nothing. */
  lemma SetGlobalServed(c: Call, st: AppState, nft: U64, adminId: U64, moduleName: Value, w: GlobalWrite, now: U64)
    requires Registered(st, nft, adminId, moduleName, c.Current().appId, c.ledger)
    requires WriteDecodes(w)
    ensures var d := InnerCall(SetGlobalCall(c, adminId, nft, moduleName, w), c.Current().appId, now, c.ledger);
      Nft.Route(d) == Some(Nft.SetGlobal) &&
      Nft.Approval(st, d) == Some(Step(st.(global := st.global[w.name := Written(w)]), []))
  {
  }

  /** pay_algo_txn, served: the NFT application pays the beneficiary from its own account. */
  lemma PayAlgoServed(c: Call, st: AppState, nft: U64, adminId: U64, moduleName: Value, beneficiary: Address, amount: U64, now: U64)
    requires Registered(st, nft, adminId, moduleName, c.Current().appId, c.ledger)
    ensures var d := InnerCall(PayAlgoCall(c, adminId, nft, beneficiary, amount, moduleName), c.Current().appId, now, c.ledger);
      Nft.Route(d) == Some(Nft.PayAlgo) &&
      Nft.Approval(st, d) == Some(Step(st, [[InnerPayment(d, beneficiary, amount)]])) &&
      InnerPayment(d, beneficiary, amount).sender == c.ledger.appAddress(nft)
  {
    var d := InnerCall(PayAlgoCall(c, adminId, nft, beneficiary, amount, moduleName), c.Current().appId, now, c.ledger);
    FirstMatchAt(Nft.NoOpBranches(d), 1);
  }

  /** pay_asset_txn, served: the NFT application transfers the asset from its own account. */
  lemma PayAssetServed(c: Call, st: AppState, nft: U64, adminId: U64, moduleName: Value, beneficiary: Address, asset: U64, amount: U64, now: U64)
    requires Registered(st, nft, adminId, moduleName, c.Current().appId, c.ledger)
    ensures var d := InnerCall(PayAssetCall(c, adminId, nft, beneficiary, asset, amount, moduleName), c.Current().appId, now, c.ledger);
      Nft.Route(d) == Some(Nft.PayAsset) &&
      Nft.Approval(st, d) == Some(Step(st, [[InnerAssetTransfer(d, beneficiary, asset, amount)]])) &&
      InnerAssetTransfer(d, beneficiary, asset, amount).sender == c.ledger.appAddress(nft)
  {
    var d := InnerCall(PayAssetCall(c, adminId, nft, beneficiary, asset, amount, moduleName), c.Current().appId, now, c.ledger);
    FirstMatchAt(Nft.NoOpBranches(d), 2);
  }

  /** del_global_txn, served: the NFT application deletes exactly the named global. */
  lemma DelGlobalServed(c: Call, st: AppState, nft: U64, adminId: U64, moduleName: Value, name: Value, now: U64)
    requires Registered(st, nft, adminId, moduleName, c.Current().appId, c.ledger)
    ensures var d := InnerCall(DelGlobalCall(c, adminId, nft, moduleName, name), c.Current().appId, now, c.ledger);
      Nft.Route(d) == Some(Nft.RemoveGlobal) &&
      Nft.Approval(st, d) == Some(Step(st.(global := st.global - {name}), []))
  {
    var d := InnerCall(DelGlobalCall(c, adminId, nft, moduleName, name), c.Current().appId, now, c.ledger);
    FirstMatchAt(Nft.NoOpBranches(d), 3);
  }

  /** A request from an application the admin has not registered under the module name is rejected by the NFT application. */
  lemma UnregisteredCallerRejected(c: Call, st: AppState, nft: U64, adminId: U64, moduleName: Value, w: GlobalWrite, now: U64)
    requires nft != 0 && GlobalEx(c.ledger, st.global, adminId, moduleName) != Int(c.Current().appId)
    ensures var d := InnerCall(SetGlobalCall(c, adminId, nft, moduleName, w), c.Current().appId, now, c.ledger);
      Nft.Approval(st, d).None?
  {
  }

  /**
   * A run of set_global_txn requests that does not touch ADMIN_ID, served
   * in order, leaves the NFT globals as ApplyWrites describes.
   */
  lemma {:induction false} SetGlobalGroupsServed(c: Call, st: AppState, nft: U64, adminId: U64, moduleName: Value, ws: seq<GlobalWrite>, now: U64)
    requires Registered(st, nft, adminId, moduleName, c.Current().appId, c.ledger)
    requires forall i :: 0 <= i < |ws| ==> WriteDecodes(ws[i]) && ws[i].name != ADMIN_ID
    ensures DeliverToNft(st, nft, SetGlobalGroups(c, adminId, nft, moduleName, ws), c.Current().appId, now, c.ledger)
            == Some(Step(st.(global := ApplyWrites(st.global, ws)), []))
    decreases |ws|
  {
    var o := SetGlobalGroups(c, adminId, nft, moduleName, ws);
    if ws != [] {
      SetGlobalServed(c, st, nft, adminId, moduleName, ws[0], now);
      var st1 := st.(global := st.global[ws[0].name := Written(ws[0])]);
      assert o[1..] == SetGlobalGroups(c, adminId, nft, moduleName, ws[1..]);
      assert Registered(st1, nft, adminId, moduleName, c.Current().appId, c.ledger);
      SetGlobalGroupsServed(c, st1, nft, adminId, moduleName, ws[1..], now);
      var caller := c.Current().appId;
      assert o[0] == [SetGlobalCall(c, adminId, nft, moduleName, ws[0])];
      assert Nft.Approval(st, InnerCall(o[0][0], caller, now, c.ledger)) == Some(Step(st1, []));
      assert o[0][0].txnType == ApplicationCall && o[0][0].appId == nft;
      assert DeliverToNft(st1, nft, o[1..], caller, now, c.ledger) == Some(Step(st1.(global := ApplyWrites(st1.global, ws[1..])), []));
      var empty: Outbox := [];
      assert empty + empty == empty;
      assert DeliverToNft(st, nft, o, caller, now, c.ledger) == Some(Step(st1.(global := ApplyWrites(st1.global, ws[1..])), []));
      assert ApplyWrites(st.global, ws) == ApplyWrites(st1.global, ws[1..]);
    } else {
      assert o == [];
    }
  }

  /** A key no write names keeps its value. */
  lemma {:induction false} ApplyWritesUntouched(g: Store, ws: seq<GlobalWrite>, k: Value)
    requires forall i :: 0 <= i < |ws| ==> WriteDecodes(ws[i]) && ws[i].name != k
    ensures Get(ApplyWrites(g, ws), k) == Get(g, k) && (k in ApplyWrites(g, ws) <==> k in g)
    decreases |ws|
  {
    if ws != [] {
      ApplyWritesUntouched(g[ws[0].name := Written(ws[0])], ws[1..], k);
    }
  }

  /** The last write to a key decides what it holds. */
  lemma {:induction false} ApplyWritesLast(g: Store, ws: seq<GlobalWrite>, i: nat)
    requires forall j :: 0 <= j < |ws| ==> WriteDecodes(ws[j])
    requires i < |ws| && forall j :: i < j < |ws| ==> ws[j].name != ws[i].name
    ensures Get(ApplyWrites(g, ws), ws[i].name) == Written(ws[i])
    decreases |ws|
  {
    var g1 := g[ws[0].name := Written(ws[0])];
    if i == 0 {
      ApplyWritesUntouched(g1, ws[1..], ws[0].name);
    } else {
      ApplyWritesLast(g1, ws[1..], i - 1);
    }
  }

  /** Serving two outboxes one after the other is serving their concatenation. */
  lemma {:induction false} DeliverAppend(st: AppState, nft: U64, o1: Outbox, o2: Outbox, caller: U64, now: U64, ledger: Ledger)
    ensures DeliverToNft(st, nft, o1 + o2, caller, now, ledger) ==
      (var s1 :- DeliverToNft(st, nft, o1, caller, now, ledger);
       var s2 :- DeliverToNft(s1.state, nft, o2, caller, now, ledger);
       Some(Step(s2.state, s1.outbox + s2.outbox)))
    decreases |o1|
  {
    if o1 == [] {
      assert o1 + o2 == o2;
      var r := DeliverToNft(st, nft, o2, caller, now, ledger);
      if r.Some? {
        assert [] + r.value.outbox == r.value.outbox;
      }
    } else {
      assert (o1 + o2)[0] == o1[0] && (o1 + o2)[1..] == o1[1..] + o2;
      var group := o1[0];
      if |group| == 1 && group[0].txnType == ApplicationCall && group[0].appId == nft {
        var a := Nft.Approval(st, InnerCall(group[0], caller, now, ledger));
        if a.Some? {
          DeliverAppend(a.value.state, nft, o1[1..], o2, caller, now, ledger);
          var b := DeliverToNft(a.value.state, nft, o1[1..], caller, now, ledger);
          if b.Some? {
            var e := DeliverToNft(b.value.state, nft, o2, caller, now, ledger);
            if e.Some? {
              assert a.value.outbox + (b.value.outbox + e.value.outbox) == (a.value.outbox + b.value.outbox) + e.value.outbox;
            }
          }
        }
      } else {
        DeliverAppend(st, nft, o1[1..], o2, caller, now, ledger);
      }
    }
  }

  /** A payment the NFT application makes from its own account. */
  function NftPayment(ledger: Ledger, nft: U64, receiver: Address, amount: U64): (t: Txn)
    ensures t.txnType == Payment && t.sender == ledger.appAddress(nft) && t.receiver == receiver && t.amount == amount
  {
    BlankTxn(Payment, ledger.appAddress(nft)).(receiver := receiver, amount := amount)
  }

  /** An asset transfer the NFT application makes from its own account. */
  function NftTransfer(ledger: Ledger, nft: U64, receiver: Address, asset: U64, amount: U64): (t: Txn)
    ensures t.txnType == AssetTransfer && t.sender == ledger.appAddress(nft) && t.assetReceiver == receiver &&
            t.xferAsset == asset && t.assetAmount == amount
  {
    BlankTxn(AssetTransfer, ledger.appAddress(nft)).(assetReceiver := receiver, xferAsset := asset, assetAmount := amount)
  }

  /** One served pay_algo_txn request, as a one-group outbox. */
  lemma PayAlgoGroupServed(c: Call, st: AppState, nft: U64, adminId: U64, moduleName: Value, beneficiary: Address, amount: U64, now: U64)
    requires Registered(st, nft, adminId, moduleName, c.Current().appId, c.ledger)
    ensures DeliverToNft(st, nft, [[PayAlgoCall(c, adminId, nft, beneficiary, amount, moduleName)]], c.Current().appId, now, c.ledger)
            == Some(Step(st, [[NftPayment(c.ledger, nft, beneficiary, amount)]]))
  {
    PayAlgoServed(c, st, nft, adminId, moduleName, beneficiary, amount, now);
    var o: Outbox := [[PayAlgoCall(c, adminId, nft, beneficiary, amount, moduleName)]];
    var d := InnerCall(o[0][0], c.Current().appId, now, c.ledger);
    assert o[1..] == [] && o[0][0].appId == nft && o[0][0].txnType == ApplicationCall;
    assert SelfAddress(d) == c.ledger.appAddress(nft);
    var out: Outbox := [[InnerPayment(d, beneficiary, amount)]];
    assert out + [] == out;
  }

  /** One served pay_asset_txn request, as a one-group outbox. */
  lemma PayAssetGroupServed(c: Call, st: AppState, nft: U64, adminId: U64, moduleName: Value, beneficiary: Address, asset: U64, amount: U64, now: U64)
    requires Registered(st, nft, adminId, moduleName, c.Current().appId, c.ledger)
    ensures DeliverToNft(st, nft, [[PayAssetCall(c, adminId, nft, beneficiary, asset, amount, moduleName)]], c.Current().appId, now, c.ledger)
            == Some(Step(st, [[NftTransfer(c.ledger, nft, beneficiary, asset, amount)]]))
  {
    PayAssetServed(c, st, nft, adminId, moduleName, beneficiary, asset, amount, now);
    var o: Outbox := [[PayAssetCall(c, adminId, nft, beneficiary, asset, amount, moduleName)]];
    var d := InnerCall(o[0][0], c.Current().appId, now, c.ledger);
    assert o[1..] == [] && o[0][0].appId == nft && o[0][0].txnType == ApplicationCall;
    assert SelfAddress(d) == c.ledger.appAddress(nft);
    var out: Outbox := [[InnerAssetTransfer(d, beneficiary, asset, amount)]];
    assert out + [] == out;
  }

  /** One served del_global_txn request, as a one-group outbox. */
  lemma DelGlobalGroupServed(c: Call, st: AppState, nft: U64, adminId: U64, moduleName: Value, name: Value, now: U64)
    requires Registered(st, nft, adminId, moduleName, c.Current().appId, c.ledger)
    ensures DeliverToNft(st, nft, [[DelGlobalCall(c, adminId, nft, moduleName, name)]], c.Current().appId, now, c.ledger)
            == Some(Step(st.(global := st.global - {name}), []))
  {
    DelGlobalServed(c, st, nft, adminId, moduleName, name, now);
    var o: Outbox := [[DelGlobalCall(c, adminId, nft, moduleName, name)]];
    var d := InnerCall(o[0][0], c.Current().appId, now, c.ledger);
    assert o[1..] == [] && o[0][0].appId == nft && o[0][0].txnType == ApplicationCall;
    var st1 := st.(global := st.global - {name});
    assert Nft.Approval(st, d) == Some(Step(st1, []));
    assert DeliverToNft(st1, nft, o[1..], c.Current().appId, now, c.ledger) == Some(Step(st1, []));
    var empty: Outbox := [];
    assert empty + empty == empty;
  }

  /** The transfers the NFT application makes when it serves the payout requests of a sale. */
  function PayoutsMade(ledger: Ledger, nft: U64, option: Value, usdc: Value, admin: Address, creator: Address,
                       seller: Address, buyer: Address, nftId: U64, s: Split): Outbox
  {
    if option == Const(ALGO) then
      [[NftPayment(ledger, nft, admin, s.platform)], [NftPayment(ledger, nft, creator, s.creator)],
       [NftPayment(ledger, nft, seller, s.seller)], [NftTransfer(ledger, nft, buyer, nftId, 1)]]
    else if option == Const(USDC) && usdc.Int? then
      [[NftTransfer(ledger, nft, admin, usdc.n, s.platform)], [NftTransfer(ledger, nft, creator, usdc.n, s.creator)],
       [NftTransfer(ledger, nft, seller, usdc.n, s.seller)], [NftTransfer(ledger, nft, buyer, nftId, 1)]]
    else []
  }

  /** Two served one-group requests that leave the state alone, in order. */
  lemma PairServed(st: AppState, nft: U64, a: Txn, b: Txn, ta: Txn, tb: Txn, caller: U64, now: U64, ledger: Ledger)
    requires DeliverToNft(st, nft, [[a]], caller, now, ledger) == Some(Step(st, [[ta]]))
    requires DeliverToNft(st, nft, [[b]], caller, now, ledger) == Some(Step(st, [[tb]]))
    ensures DeliverToNft(st, nft, [[a], [b]], caller, now, ledger) == Some(Step(st, [[ta], [tb]]))
  {
    DeliverAppend(st, nft, [[a]], [[b]], caller, now, ledger);
    assert [[a]] + [[b]] == [[a], [b]] && [[ta]] + [[tb]] == [[ta], [tb]];
  }

  /** Four served one-group requests that leave the state alone, in order. */
  lemma QuadServed(st: AppState, nft: U64, a: Txn, b: Txn, x: Txn, y: Txn, ta: Txn, tb: Txn, tx: Txn, ty: Txn,
                   caller: U64, now: U64, ledger: Ledger)
    requires DeliverToNft(st, nft, [[a]], caller, now, ledger) == Some(Step(st, [[ta]]))
    requires DeliverToNft(st, nft, [[b]], caller, now, ledger) == Some(Step(st, [[tb]]))
    requires DeliverToNft(st, nft, [[x]], caller, now, ledger) == Some(Step(st, [[tx]]))
    requires DeliverToNft(st, nft, [[y]], caller, now, ledger) == Some(Step(st, [[ty]]))
    ensures DeliverToNft(st, nft, [[a], [b], [x], [y]], caller, now, ledger) == Some(Step(st, [[ta], [tb], [tx], [ty]]))
  {
    PairServed(st, nft, a, b, ta, tb, caller, now, ledger);
    PairServed(st, nft, x, y, tx, ty, caller, now, ledger);
    DeliverAppend(st, nft, [[a], [b]], [[x], [y]], caller, now, ledger);
    assert [[a], [b]] + [[x], [y]] == [[a], [b], [x], [y]] && [[ta], [tb]] + [[tx], [ty]] == [[ta], [tb], [tx], [ty]];
  }

  /** The four Algo payout requests of a sale, served. */
  lemma AlgoPayoutsServed(c: Call, st: AppState, nft: U64, adminId: U64, moduleName: Value,
                          admin: Address, creator: Address, seller: Address, buyer: Address, nftId: U64, s: Split, now: U64)
    requires Registered(st, nft, adminId, moduleName, c.Current().appId, c.ledger)
    ensures DeliverToNft(st, nft, SalePayouts(c, adminId, nft, moduleName, Const(ALGO), Int(0), admin, creator, seller, buyer, nftId, s).value,
                         c.Current().appId, now, c.ledger)
            == Some(Step(st, PayoutsMade(c.ledger, nft, Const(ALGO), Int(0), admin, creator, seller, buyer, nftId, s)))
  {
    PayAlgoGroupServed(c, st, nft, adminId, moduleName, admin, s.platform, now);
    PayAlgoGroupServed(c, st, nft, adminId, moduleName, creator, s.creator, now);
    PayAlgoGroupServed(c, st, nft, adminId, moduleName, seller, s.seller, now);
    PayAssetGroupServed(c, st, nft, adminId, moduleName, buyer, nftId, 1, now);
    QuadServed(st, nft, PayAlgoCall(c, adminId, nft, admin, s.platform, moduleName), PayAlgoCall(c, adminId, nft, creator, s.creator, moduleName),
               PayAlgoCall(c, adminId, nft, seller, s.seller, moduleName), PayAssetCall(c, adminId, nft, buyer, nftId, 1, moduleName),
               NftPayment(c.ledger, nft, admin, s.platform), NftPayment(c.ledger, nft, creator, s.creator),
               NftPayment(c.ledger, nft, seller, s.seller), NftTransfer(c.ledger, nft, buyer, nftId, 1), c.Current().appId, now, c.ledger);
  }

  /** The four USDC payout requests of a sale, served. */
  lemma UsdcPayoutsServed(c: Call, st: AppState, nft: U64, adminId: U64, moduleName: Value, usdc: U64,
                          admin: Address, creator: Address, seller: Address, buyer: Address, nftId: U64, s: Split, now: U64)
    requires Registered(st, nft, adminId, moduleName, c.Current().appId, c.ledger)
    ensures DeliverToNft(st, nft, SalePayouts(c, adminId, nft, moduleName, Const(USDC), Int(usdc), admin, creator, seller, buyer, nftId, s).value,
                         c.Current().appId, now, c.ledger)
            == Some(Step(st, PayoutsMade(c.ledger, nft, Const(USDC), Int(usdc), admin, creator, seller, buyer, nftId, s)))
  {
    PayAssetGroupServed(c, st, nft, adminId, moduleName, admin, usdc, s.platform, now);
    PayAssetGroupServed(c, st, nft, adminId, moduleName, creator, usdc, s.creator, now);
    PayAssetGroupServed(c, st, nft, adminId, moduleName, seller, usdc, s.seller, now);
    PayAssetGroupServed(c, st, nft, adminId, moduleName, buyer, nftId, 1, now);
    QuadServed(st, nft, PayAssetCall(c, adminId, nft, admin, usdc, s.platform, moduleName), PayAssetCall(c, adminId, nft, creator, usdc, s.creator, moduleName),
               PayAssetCall(c, adminId, nft, seller, usdc, s.seller, moduleName), PayAssetCall(c, adminId, nft, buyer, nftId, 1, moduleName),
               NftTransfer(c.ledger, nft, admin, usdc, s.platform), NftTransfer(c.ledger, nft, creator, usdc, s.creator),
               NftTransfer(c.ledger, nft, seller, usdc, s.seller), NftTransfer(c.ledger, nft, buyer, nftId, 1), c.Current().appId, now, c.ledger);
  }

  /**
   * The payout requests of a sale, served: the NFT application pays the
   * platform fee, the royalty and the seller's share in the sale currency
   * from its own account and hands one unit of the NFT to the buyer; its
   * state is unchanged.
   */
  lemma {:induction false} SalePayoutsServed(c: Call, st: AppState, nft: U64, adminId: U64, moduleName: Value, option: Value, usdc: Value,
                                             admin: Address, creator: Address, seller: Address, buyer: Address, nftId: U64, s: Split, now: U64)
    requires Registered(st, nft, adminId, moduleName, c.Current().appId, c.ledger)
    requires SalePayouts(c, adminId, nft, moduleName, option, usdc, admin, creator, seller, buyer, nftId, s).Some?
    ensures DeliverToNft(st, nft, SalePayouts(c, adminId, nft, moduleName, option, usdc, admin, creator, seller, buyer, nftId, s).value,
                         c.Current().appId, now, c.ledger)
            == Some(Step(st, PayoutsMade(c.ledger, nft, option, usdc, admin, creator, seller, buyer, nftId, s)))
  {
    if option == Const(ALGO) {
      AlgoPayoutsServed(c, st, nft, adminId, moduleName, admin, creator, seller, buyer, nftId, s, now);
    } else if option == Const(USDC) {
      UsdcPayoutsServed(c, st, nft, adminId, moduleName, usdc.n, admin, creator, seller, buyer, nftId, s, now);
    }
  }

  /** Two outboxes served one after another, the first leaving the state alone and the second submitting nothing. */
  lemma TwoServed(st: AppState, nft: U64, o1: Outbox, o2: Outbox, made: Outbox, st2: AppState, caller: U64, now: U64, ledger: Ledger)
    requires DeliverToNft(st, nft, o1, caller, now, ledger) == Some(Step(st, made))
    requires DeliverToNft(st, nft, o2, caller, now, ledger) == Some(Step(st2, []))
    ensures DeliverToNft(st, nft, o1 + o2, caller, now, ledger) == Some(Step(st2, made))
  {
    DeliverAppend(st, nft, o1, o2, caller, now, ledger);
    assert made + [] == made;
  }

  /** Three outboxes served one after another, the first leaving the state alone and the other two submitting nothing. */
  lemma ThreeServed(st: AppState, nft: U64, o1: Outbox, o2: Outbox, o3: Outbox, made: Outbox, st2: AppState, st3: AppState,
                    caller: U64, now: U64, ledger: Ledger)
    requires DeliverToNft(st, nft, o1, caller, now, ledger) == Some(Step(st, made))
    requires DeliverToNft(st, nft, o2, caller, now, ledger) == Some(Step(st2, []))
    requires DeliverToNft(st2, nft, o3, caller, now, ledger) == Some(Step(st3, []))
    ensures DeliverToNft(st, nft, o1 + o2 + o3, caller, now, ledger) == Some(Step(st3, made))
  {
    DeliverAppend(st, nft, o1 + o2, o3, caller, now, ledger);
    DeliverAppend(st, nft, o1, o2, caller, now, ledger);
    assert made + [] + [] == made;
  }

  /**
   * A sale's requests, served: the payouts, then the set_global writes
   * `ws`, then the deletion of PAYMENT_OPTION.  The NFT application makes
   * the payouts and ends with the writes applied and PAYMENT_OPTION gone.
   */
  lemma {:induction false} SaleServed(c: Call, st: AppState, nft: U64, adminId: U64, moduleName: Value, option: Value, usdc: Value,
                                      admin: Address, creator: Address, seller: Address, buyer: Address, nftId: U64, s: Split,
                                      ws: seq<GlobalWrite>, now: U64)
    requires Registered(st, nft, adminId, moduleName, c.Current().appId, c.ledger)
    requires SalePayouts(c, adminId, nft, moduleName, option, usdc, admin, creator, seller, buyer, nftId, s).Some?
    requires forall i :: 0 <= i < |ws| ==> WriteDecodes(ws[i]) && ws[i].name != ADMIN_ID
    ensures DeliverToNft(st, nft, SalePayouts(c, adminId, nft, moduleName, option, usdc, admin, creator, seller, buyer, nftId, s).value +
                                  SetGlobalGroups(c, adminId, nft, moduleName, ws) +
                                  [[DelGlobalCall(c, adminId, nft, moduleName, PAYMENT_OPTION)]], c.Current().appId, now, c.ledger)
            == Some(Step(st.(global := ApplyWrites(st.global, ws) - {PAYMENT_OPTION}),
                         PayoutsMade(c.ledger, nft, option, usdc, admin, creator, seller, buyer, nftId, s)))
  {
    SalePayoutsServed(c, st, nft, adminId, moduleName, option, usdc, admin, creator, seller, buyer, nftId, s, now);
    SetGlobalGroupsServed(c, st, nft, adminId, moduleName, ws, now);
    var st2 := st.(global := ApplyWrites(st.global, ws));
    ApplyWritesUntouched(st.global, ws, ADMIN_ID);
    DelGlobalGroupServed(c, st2, nft, adminId, moduleName, PAYMENT_OPTION, now);
    ThreeServed(st, nft, SalePayouts(c, adminId, nft, moduleName, option, usdc, admin, creator, seller, buyer, nftId, s).value,
                SetGlobalGroups(c, adminId, nft, moduleName, ws), [[DelGlobalCall(c, adminId, nft, moduleName, PAYMENT_OPTION)]],
                PayoutsMade(c.ledger, nft, option, usdc, admin, creator, seller, buyer, nftId, s), st2,
                st2.(global := st2.global - {PAYMENT_OPTION}), c.Current().appId, now, c.ledger);
  }
}
